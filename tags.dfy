/** Struct-tag name resolution used to name fields in validation errors:
    `getTagName` of internal/config/validate.go and `getNameByPriority` of
    internal/handler/http/validators.go. */
module Tags {

  /** A struct field as reflection sees it: its Go name and its parsed tags. */
  datatype StructField = StructField(name: string, tags: map<string, string>)

  /** `fld.Tag.Get(key)`: the tag's value, or "" when the key is absent. */
  function TagGet(fld: StructField, key: string): string
  {
    if key in fld.tags then fld.tags[key] else ""
  }

  /** `strings.SplitN(s, ",", 2)[0]`: the part of `s` before its first comma,
      or all of `s` when it has none. The contract pins the result down. */
  function BeforeComma(s: string): (r: string)
    ensures |r| <= |s| && r == s[..|r|]
    ensures ',' !in r
    ensures |r| < |s| ==> s[|r|] == ','
  {
    if s == [] || s[0] == ',' then "" else [s[0]] + BeforeComma(s[1..])
  }

  /** Any prefix of `s` without a comma that is followed by a comma or by
      the end of `s` is the one BeforeComma returns. */
  lemma BeforeCommaUnique(s: string, p: string)
    requires |p| <= |s| && p == s[..|p|] && ',' !in p
    requires |p| < |s| ==> s[|p|] == ','
    ensures BeforeComma(s) == p
  {
  }

  /** `getTagName`: the env tag up to its first comma, else the whole yaml
      tag, else the field name. */
  function GetTagName(fld: StructField): (r: string)
    ensures BeforeComma(TagGet(fld, "env")) != "" ==> r == BeforeComma(TagGet(fld, "env"))
    ensures r == BeforeComma(TagGet(fld, "env")) || r == TagGet(fld, "yaml") || r == fld.name
    ensures r == "" <==> BeforeComma(TagGet(fld, "env")) == "" && TagGet(fld, "yaml") == "" && fld.name == ""
  {
    var name := BeforeComma(TagGet(fld, "env"));
    var name := if name == "" then TagGet(fld, "yaml") else name;
    if name == "" then fld.name else name
  }

  /** The yaml tag is taken verbatim: its options after a comma are kept. */
  lemma GetTagNameKeepsYamlOptions(fld: StructField)
    requires BeforeComma(TagGet(fld, "env")) == ""
    requires TagGet(fld, "yaml") != ""
    ensures GetTagName(fld) == TagGet(fld, "yaml")
  {
  }

  /** `getNameByPriority` as written: json, form, env, then form again,
      each up to its first comma. */
  function GetNameByPriority(fld: StructField): (r: string)
    ensures ',' !in r
    ensures BeforeComma(TagGet(fld, "json")) != "" ==> r == BeforeComma(TagGet(fld, "json"))
  {
    var name := BeforeComma(TagGet(fld, "json"));
    var name := if name == "" then BeforeComma(TagGet(fld, "form")) else name;
    var name := if name == "" then BeforeComma(TagGet(fld, "env")) else name;
    if name == "" then BeforeComma(TagGet(fld, "form")) else name
  }

  /** An independent statement of the priority: the first non-empty of the
      json, form and env prefixes, or "" when all three are empty. */
  function FirstNonEmpty(candidates: seq<string>): (r: string)
    ensures r == "" <==> forall i :: 0 <= i < |candidates| ==> candidates[i] == ""
    ensures r != "" ==> r in candidates
  {
    if candidates == [] then ""
    else if candidates[0] != "" then candidates[0]
    else FirstNonEmpty(candidates[1..])
  }

  /** The fourth, repeated form check never changes the result, and there
      is no fall-back to the Go field name. */
  lemma {:induction false} NameByPriorityIsFirstOfThree(fld: StructField)
    ensures GetNameByPriority(fld) == FirstNonEmpty([
      BeforeComma(TagGet(fld, "json")),
      BeforeComma(TagGet(fld, "form")),
      BeforeComma(TagGet(fld, "env"))])
  {
    var c := [BeforeComma(TagGet(fld, "json")), BeforeComma(TagGet(fld, "form")), BeforeComma(TagGet(fld, "env"))];
    assert c[1..] == [c[1], c[2]];
    assert c[1..][1..] == [c[2]];
    assert c[1..][1..][1..] == [];
  }

  /** With empty json, form and env tags the name is "", whatever the
      field is called. */
  lemma NameByPriorityEmpty(fld: StructField)
    requires TagGet(fld, "json") == "" && TagGet(fld, "form") == "" && TagGet(fld, "env") == ""
    ensures GetNameByPriority(fld) == ""
  {
  }

  /** Example: a json tag with options yields the bare name. */
  lemma NameByPriorityStripsOptions()
    ensures GetNameByPriority(StructField("Name", map["json" := "name,omitempty"])) == "name"
  {
    var s := "name,omitempty";
    BeforeCommaUnique(s, "name");
  }
}

/** Subscriber configuration of pkg/pskafka/configs.go: the struct-tag
    rules and the protocol checks of `validate`, and the choice of SASL
    mechanism. */
module KafkaConfig {
  import opened Wrappers

  // Security protocols.
  const Plaintext := "PLAINTEXT"
  const SaslPlaintext := "SASL_PLAINTEXT"
  const SaslScrum := "SASL_SCRUM"

  // SCRAM algorithms.
  const ScrumSHA256 := "SHA-256"
  const ScrumSHA512 := "SHA-512"

  datatype SaslPlaintextConfig = SaslPlaintextConfig(username: string, password: string)

  datatype SaslScrumConfig = SaslScrumConfig(algorithm: string, username: string, password: string)

  /** A nil reference to a nested configuration is `None`. */
  datatype SubscriberConfig = SubscriberConfig(
    brokers: seq<string>,
    securityProtocol: string,
    groupID: string,
    saslPlaintextConfig: Option<SaslPlaintextConfig>,
    saslScrumConfig: Option<SaslScrumConfig>)

  /** The library's verdict on the broker list under `required,hostname_port`. */
  type BrokersRule = seq<string> -> bool

  /** The fields a tag rule can fail on; `Name` is what `err.Field()` gives. */
  datatype Field = Brokers | SecurityProtocol | GroupID | Username | Password | Algorithm
  {
    function Name(): string
    {
      match this
      case Brokers => "Brokers"
      case SecurityProtocol => "SecurityProtocol"
      case GroupID => "GroupID"
      case Username => "Username"
      case Password => "Password"
      case Algorithm => "Algorithm"
    }
  }

  /** The failed fields of the nested plaintext configuration: `required`
      on Username and Password. */
  function PlaintextFailures(c: SaslPlaintextConfig): seq<Field>
  {
    (if c.username == "" then [Username] else []) +
    (if c.password == "" then [Password] else [])
  }

  /** The failed fields of the nested SCRAM configuration:
      `required,oneof=SHA-256 SHA-512` on Algorithm, `required` on the rest. */
  function ScrumFailures(c: SaslScrumConfig): seq<Field>
  {
    (if c.algorithm !in {ScrumSHA256, ScrumSHA512} then [Algorithm] else []) +
    (if c.username == "" then [Username] else []) +
    (if c.password == "" then [Password] else [])
  }

  /** The field errors `v.Struct(c)` reports, in field declaration order,
      with present nested configurations validated in place. */
  function TagFailures(c: SubscriberConfig, brokersOk: BrokersRule): seq<Field>
  {
    TopFailures(c, brokersOk) + NestedFailures(c)
  }

  /** The failures of the three top-level fields. */
  function TopFailures(c: SubscriberConfig, brokersOk: BrokersRule): seq<Field>
  {
    (if !brokersOk(c.brokers) then [Brokers] else []) +
    (if c.securityProtocol !in {Plaintext, SaslPlaintext, SaslScrum} then [SecurityProtocol] else []) +
    (if c.groupID == "" then [GroupID] else [])
  }

  /** The failures inside the nested configurations that are present. */
  function NestedFailures(c: SubscriberConfig): seq<Field>
  {
    (if c.saslPlaintextConfig.Some? then PlaintextFailures(c.saslPlaintextConfig.value) else []) +
    (if c.saslScrumConfig.Some? then ScrumFailures(c.saslScrumConfig.value) else [])
  }

  /** Nested configurations only fail on their own fields. */
  lemma NestedFailuresOwnFields(c: SubscriberConfig)
    ensures Brokers !in NestedFailures(c) && SecurityProtocol !in NestedFailures(c) && GroupID !in NestedFailures(c)
  {
    assert forall f :: f in NestedFailures(c) ==> f.Username? || f.Password? || f.Algorithm?;
  }

  /** The top-level tag rules: Brokers fails exactly when the library rejects
      the list, SecurityProtocol exactly when it is not one of the three
      protocols (the empty string included), GroupID exactly when empty. */
  lemma TagFailuresTopLevel(c: SubscriberConfig, brokersOk: BrokersRule)
    ensures Brokers in TagFailures(c, brokersOk) <==> !brokersOk(c.brokers)
    ensures SecurityProtocol in TagFailures(c, brokersOk) <==> c.securityProtocol !in {Plaintext, SaslPlaintext, SaslScrum}
    ensures GroupID in TagFailures(c, brokersOk) <==> c.groupID == ""
  {
    NestedFailuresOwnFields(c);
    var top := TopFailures(c, brokersOk);
    assert forall f :: f in TagFailures(c, brokersOk) <==> f in top || f in NestedFailures(c);
  }

  /** A SASL protocol whose nested configuration is missing. */
  predicate MissingPlaintextConfig(c: SubscriberConfig)
  {
    c.securityProtocol == SaslPlaintext && c.saslPlaintextConfig.None?
  }

  predicate MissingScrumConfig(c: SubscriberConfig)
  {
    c.securityProtocol == SaslScrum && c.saslScrumConfig.None?
  }

  /** The names `err.Field()` gives the failed fields, in order. */
  function FieldNames(fields: seq<Field>): (names: seq<string>)
    ensures |names| == |fields|
    ensures forall i :: 0 <= i < |fields| ==> names[i] == fields[i].Name()
  {
    if fields == [] then [] else FieldNames(fields[..|fields| - 1]) + [fields[|fields| - 1].Name()]
  }

  /** The errors `validate` returns. */
  datatype ConfigError =
    | InvalidSubscriberConfig(failedFields: seq<string>)
    | SaslPlaintextConfigRequired
    | SaslScrumConfigRequired

  /** `SubscriberConfig.validate`: any tag failure is reported first, with
      the name of every failed field; then a SASL protocol without its
      nested configuration is rejected; otherwise the configuration is
      valid. */
  method Validate(c: SubscriberConfig, brokersOk: BrokersRule) returns (r: Option<ConfigError>)
    ensures TagFailures(c, brokersOk) != [] ==> r == Some(InvalidSubscriberConfig(FieldNames(TagFailures(c, brokersOk))))
    ensures TagFailures(c, brokersOk) == [] && MissingPlaintextConfig(c) ==> r == Some(SaslPlaintextConfigRequired)
    ensures TagFailures(c, brokersOk) == [] && MissingScrumConfig(c) ==> r == Some(SaslScrumConfigRequired)
    ensures r.None? <==> TagFailures(c, brokersOk) == [] && !MissingPlaintextConfig(c) && !MissingScrumConfig(c)
  {
    var errs := TagFailures(c, brokersOk);
    var failedFields: seq<string> := [];
    var i := 0;
    while i < |errs|
      invariant 0 <= i <= |errs|
      invariant failedFields == FieldNames(errs[..i])
    {
      assert errs[..i + 1][..i] == errs[..i];
      failedFields := failedFields + [errs[i].Name()];
      i := i + 1;
    }
    assert errs[..i] == errs;

    if |failedFields| > 0 {
      return Some(InvalidSubscriberConfig(failedFields));
    }
    if MissingPlaintextConfig(c) {
      return Some(SaslPlaintextConfigRequired);
    }
    if MissingScrumConfig(c) {
      return Some(SaslScrumConfigRequired);
    }
    return None;
  }

  /** The hash a SCRAM mechanism uses. */
  datatype Hash = SHA256 | SHA512

  /** The SASL mechanism handed to the dialer. */
  datatype Mechanism =
    | Plain(username: string, password: string)
    | Scram(hash: Hash, username: string, password: string)

  /** `SaslPlaintextConfig.mechanism`: never fails, carries the credentials
      verbatim. */
  function PlainMechanism(c: SaslPlaintextConfig): (r: Result<Mechanism, string>)
    ensures r.Ok? && r.value.Plain?
    ensures r.value.username == c.username && r.value.password == c.password
  {
    Ok(Plain(c.username, c.password))
  }

  /** `SaslScrumConfig.mechanism`: SHA-256 and SHA-512 select their hash;
      any other algorithm is an "unsupported algorithm" error. */
  function ScramMechanism(c: SaslScrumConfig): (r: Result<Mechanism, string>)
    ensures r.Ok? <==> c.algorithm == ScrumSHA256 || c.algorithm == ScrumSHA512
    ensures r.Ok? ==> r.value.Scram? && r.value.username == c.username && r.value.password == c.password
    ensures r.Ok? ==> (r.value.hash == SHA256 <==> c.algorithm == ScrumSHA256)
    ensures r.Err? ==> r.error == "unsupported algorithm: " + c.algorithm
  {
    if c.algorithm == ScrumSHA256 then Ok(Scram(SHA256, c.username, c.password))
    else if c.algorithm == ScrumSHA512 then Ok(Scram(SHA512, c.username, c.password))
    else Err("unsupported algorithm: " + c.algorithm)
  }

  /** A configuration without tag failures never has a SCRAM configuration
      whose algorithm `mechanism` rejects. */
  lemma NoTagFailuresScramAccepted(c: SubscriberConfig, brokersOk: BrokersRule)
    requires TagFailures(c, brokersOk) == []
    requires c.saslScrumConfig.Some?
    ensures ScramMechanism(c.saslScrumConfig.value).Ok?
  {
  }

  /** An algorithm such as "SHA-1" is rejected. */
  lemma ScramRejectsSha1(user: string, pass: string)
    ensures ScramMechanism(SaslScrumConfig("SHA-1", user, pass)).Err?
  {
  }
}

/**
 * The windowsca Terraform provider: its type name, its provider schema and
 * its Configure step, which turns the provider block and the environment
 * into a WinRM client handle or into diagnostics.
 */
module Provider {
  import opened Wrappers
  import opened Diagnostics

  // ----------------------------------------------------------------------
  // Configuration values
  // ----------------------------------------------------------------------

  /**
   * One string attribute of the provider block as the framework decodes it:
   * not yet known (it depends on something not applied), not given, or a literal.
   */
  datatype Attr = Unknown | Null | Set(s: string) {
    predicate IsUnknown() { Unknown? }
    predicate IsNull() { Null? }
    /** The literal; an unknown or null value reads as the empty string. */
    function ValueString(): string { if Set? then s else "" }
  }

  /** The three configuration fields, in the fixed order every gate visits them. */
  datatype Field = Hostname | Username | Password {
    /** Position in the order hostname, username, password. */
    function Rank(): nat {
      match this
      case Hostname => 0
      case Username => 1
      case Password => 2
    }
    /** Schema attribute name; also the path of the field's unknown-value error. */
    function AttributeName(): string {
      match this
      case Hostname => "winrm_hostname"
      case Username => "winrm_username"
      case Password => "winrm_password"
    }
    /** Path of the field's missing-value error (not the schema attribute name). */
    function MissingPath(): string {
      match this
      case Hostname => "host"
      case Username => "username"
      case Password => "password"
    }
    /** Environment variable that supplies the field's default. */
    function EnvVar(): string {
      match this
      case Hostname => "WINDOWSCA_HOSTNAME"
      case Username => "WINDOWSCA_USERNAME"
      case Password => "WINDOWSCA_PASSWORD"
    }
    /** How the diagnostics name the field, in a title and in running text. */
    function Title(): string {
      match this
      case Hostname => "Host"
      case Username => "Username"
      case Password => "Password"
    }
    function Noun(): string {
      match this
      case Hostname => "host"
      case Username => "username"
      case Password => "password"
    }
  }

  /** The decoded provider block. */
  datatype ProviderModel = ProviderModel(winrmHostname: Attr, winrmUsername: Attr, winrmPassword: Attr) {
    function Get(f: Field): Attr {
      match f
      case Hostname => winrmHostname
      case Username => winrmUsername
      case Password => winrmPassword
    }
  }

  /** A snapshot of the process environment; a variable that is not set is absent. */
  type Environment = map<string, string>

  /** Reading a variable: an absent one reads as the empty string. */
  function Getenv(env: Environment, name: string): string {
    if name in env then env[name] else ""
  }

  /** The merged host, username and password, possibly empty. */
  datatype Creds = Creds(host: string, username: string, password: string) {
    function Get(f: Field): string {
      match f
      case Hostname => host
      case Username => username
      case Password => password
    }
  }

  /** Credentials fit to hand to the client constructor: all three non-empty. */
  type Credentials = c: Creds | c.host != "" && c.username != "" && c.password != ""
    witness Creds("h", "u", "p")

  /** The opaque client the external constructor returns. */
  datatype ClientHandle = ClientHandle(id: nat)

  /** The external client constructor: a handle, or the text of its error. */
  type ClientConstructor = Credentials -> Result<ClientHandle, string>

  // ----------------------------------------------------------------------
  // Diagnostic messages
  // ----------------------------------------------------------------------

  /**
   * What a diagnostic says. The three kinds Configure raises are kept as
   * kinds and rendered to their exact summary and detail text below; a
   * diagnostic from elsewhere (the configuration decoder) is plain text.
   */
  datatype Message =
    | Text(summary: string, detail: string)
    | UnknownValue(field: Field)
    | MissingValue(field: Field)
    | ClientFailure(err: string)
  {
    function Summary(): string {
      match this
      case Text(s, _) => s
      case UnknownValue(f) => "Unknown Windows WinRM " + f.Title()
      case MissingValue(f) => "Missing Windows WinRM " + f.Title()
      case ClientFailure(_) => ClientErrorSummary
    }

    function Detail(): string {
      match this
      case Text(_, d) => d
      case UnknownValue(f) =>
        "The provider cannot create the Windows WinRM client as there is an unknown configuration value for the Windows WinRM " + f.Noun() + ". " +
        "Either target apply the source of the value first, set the value statically in the configuration, or use the " + f.EnvVar() + " environment variable."
      case MissingValue(f) =>
        "The provider cannot create the Windows WinRM client as there is a missing or empty value for the Windows WinRM " + f.Noun() + ". " +
        "Set the " + f.Noun() + " value in the configuration or use the " + f.EnvVar() + " environment variable. " +
        "If either is already set, ensure the value is not empty."
      case ClientFailure(e) => ClientErrorDetailPrefix + e
    }
  }

  const ClientErrorSummary: string := "Unable to Create Windows WinRM Client"

  const ClientErrorDetailPrefix: string :=
    "An unexpected error occurred when creating the Windows WinRM client. " +
    "If the error is not clear, please contact the provider developers.\n\n" +
    "Windows WinRM Client Error: "

  type Diag = Diagnostic<Message>

  /** The error a field with an unknown value raises, at the schema attribute's path. */
  function UnknownError(f: Field): Diag {
    Diagnostic(Error, Some(f.AttributeName()), UnknownValue(f))
  }

  /** The error a field left empty after the merge raises, at the field's short path. */
  function MissingError(f: Field): Diag {
    Diagnostic(Error, Some(f.MissingPath()), MissingValue(f))
  }

  /** The one diagnostic a failed client construction adds; it has no attribute path. */
  function ClientError(err: string): Diag {
    Diagnostic(Error, None, ClientFailure(err))
  }

  /** What Configure receives: the diagnostics and the value that decoding the provider block produced. */
  datatype ConfigureRequest = ConfigureRequest(decodeDiagnostics: seq<Diag>, config: ProviderModel)

  // ----------------------------------------------------------------------
  // Specification of Configure
  // ----------------------------------------------------------------------

  /** Some attribute of the provider block has an unknown value. */
  predicate AnyUnknown(config: ProviderModel) {
    exists f: Field :: config.Get(f).IsUnknown()
  }

  /** Some merged value is empty. */
  predicate AnyMissing(merged: Creds) {
    exists f: Field :: merged.Get(f) == ""
  }

  /** The unknown-value gate's errors: one per unknown field, hostname first. */
  function UnknownErrors(config: ProviderModel): seq<Diag> {
    (if config.winrmHostname.IsUnknown() then [UnknownError(Hostname)] else []) +
    (if config.winrmUsername.IsUnknown() then [UnknownError(Username)] else []) +
    (if config.winrmPassword.IsUnknown() then [UnknownError(Password)] else [])
  }

  /** The presence gate's errors: one per empty merged value, host first. */
  function MissingErrors(merged: Creds): seq<Diag> {
    (if merged.host == "" then [MissingError(Hostname)] else []) +
    (if merged.username == "" then [MissingError(Username)] else []) +
    (if merged.password == "" then [MissingError(Password)] else [])
  }

  /** One field: the environment value is the default, a non-null configuration value replaces it. */
  function Merge(attr: Attr, envValue: string): string {
    if attr.IsNull() then envValue else attr.ValueString()
  }

  function Merged(config: ProviderModel, env: Environment): Creds {
    Creds(Merge(config.winrmHostname, Getenv(env, Hostname.EnvVar())),
          Merge(config.winrmUsername, Getenv(env, Username.EnvVar())),
          Merge(config.winrmPassword, Getenv(env, Password.EnvVar())))
  }

  /**
   * The whole effect of one Configure call: the diagnostics afterwards, the
   * client stored for data sources and resources (None: nothing stored), and
   * the credentials handed to the client constructor (None: it was not called).
   */
  datatype Outcome = Outcome(diagnostics: seq<Diag>, client: Option<ClientHandle>, constructed: Option<Credentials>)

  /**
   * Configure, gate by gate. `prior` is what the response's diagnostics held
   * before the call.
   */
  function ConfigureOutcome(prior: seq<Diag>, req: ConfigureRequest, env: Environment,
                            newClient: ClientConstructor): Outcome
  {
    var base := AppendAll(prior, req.decodeDiagnostics);
    if HasErrors(base) then
      Outcome(base, None, None)
    else if AnyUnknown(req.config) then
      Outcome(base + UnknownErrors(req.config), None, None)
    else
      var merged := Merged(req.config, env);
      if AnyMissing(merged) then
        Outcome(base + MissingErrors(merged), None, None)
      else
        assert merged.Get(Hostname) != "" && merged.Get(Username) != "" && merged.Get(Password) != "";
        var creds: Credentials := merged;
        match newClient(creds)
        case Failure(err) => Outcome(base + [ClientError(err)], None, Some(creds))
        case Success(client) => Outcome(base, Some(client), Some(creds))
  }

  /** ConfigureOutcome when decoding left an error: nothing more happens. */
  lemma OutcomeOnDecodeError(prior: seq<Diag>, req: ConfigureRequest, env: Environment, newClient: ClientConstructor)
    requires HasErrors(AppendAll(prior, req.decodeDiagnostics))
    ensures ConfigureOutcome(prior, req, env, newClient) == Outcome(AppendAll(prior, req.decodeDiagnostics), None, None)
  {
  }

  /** ConfigureOutcome when decoding was clean and some field is unknown. */
  lemma OutcomeOnUnknown(prior: seq<Diag>, req: ConfigureRequest, env: Environment, newClient: ClientConstructor)
    requires !HasErrors(AppendAll(prior, req.decodeDiagnostics))
    requires AnyUnknown(req.config)
    ensures ConfigureOutcome(prior, req, env, newClient) ==
      Outcome(AppendAll(prior, req.decodeDiagnostics) + UnknownErrors(req.config), None, None)
  {
  }

  /** ConfigureOutcome when every field is known and some merged value is empty. */
  lemma OutcomeOnMissing(prior: seq<Diag>, req: ConfigureRequest, env: Environment, newClient: ClientConstructor)
    requires !HasErrors(AppendAll(prior, req.decodeDiagnostics))
    requires !AnyUnknown(req.config)
    requires AnyMissing(Merged(req.config, env))
    ensures ConfigureOutcome(prior, req, env, newClient) ==
      Outcome(AppendAll(prior, req.decodeDiagnostics) + MissingErrors(Merged(req.config, env)), None, None)
  {
  }

  /** ConfigureOutcome when every gate passed: the constructor's answer decides. */
  lemma OutcomeOnConstruct(prior: seq<Diag>, req: ConfigureRequest, env: Environment, newClient: ClientConstructor,
                           creds: Credentials)
    requires !HasErrors(AppendAll(prior, req.decodeDiagnostics))
    requires !AnyUnknown(req.config)
    requires creds == Merged(req.config, env)
    ensures var base := AppendAll(prior, req.decodeDiagnostics);
      ConfigureOutcome(prior, req, env, newClient) ==
        match newClient(creds)
        case Failure(err) => Outcome(base + [ClientError(err)], None, Some(creds))
        case Success(client) => Outcome(base, Some(client), Some(creds))
  {
    assert !AnyMissing(creds) by {
      forall f: Field ensures creds.Get(f) != "" {
        match f
        case Hostname =>
        case Username =>
        case Password =>
      }
    }
  }

  // ----------------------------------------------------------------------
  // Facts the imperative Configure relies on
  // ----------------------------------------------------------------------

  /** After errors are added to a collection that had none, it has an error exactly when some were added. */
  lemma CleanPlusErrors(base: seq<Diag>, added: seq<Diag>)
    requires !HasErrors(base) && AllErrors(added)
    ensures HasErrors(base + added) <==> added != []
  {
    if added != [] {
      assert (base + added)[|base|] == added[0];
    }
  }

  /** An error not yet added cannot be held by a collection that had no error before. */
  lemma FreshError(base: seq<Diag>, added: seq<Diag>, d: Diag)
    requires !HasErrors(base) && d.severity == Error && d !in added
    ensures d !in base + added
  {
  }

  /**
   * The unknown-value gate's errors: one for a field exactly when that field
   * is unknown, and some exactly when some field is.
   */
  lemma UnknownErrorsSpec(config: ProviderModel)
    ensures forall f :: UnknownError(f) in UnknownErrors(config) <==> config.Get(f).IsUnknown()
    ensures UnknownErrors(config) != [] <==> AnyUnknown(config)
  {
    var e := UnknownErrors(config);
    forall f ensures UnknownError(f) in e <==> config.Get(f).IsUnknown() {
      match f
      case Hostname =>
      case Username =>
      case Password =>
    }
    if AnyUnknown(config) {
      var f :| config.Get(f).IsUnknown();
      assert UnknownError(f) in e;
    }
  }

  /**
   * The unknown-value gate's errors are distinct errors, each about one field
   * at that field's schema attribute path, in hostname, username, password order.
   */
  lemma UnknownErrorsShape(config: ProviderModel)
    ensures var e := UnknownErrors(config);
      && AllErrors(e) && NoDuplicates(e)
      && (forall i :: 0 <= i < |e| ==>
            e[i].message.UnknownValue? && e[i] == UnknownError(e[i].message.field) &&
            e[i].path == Some(e[i].message.field.AttributeName()))
      && (forall i, j :: 0 <= i < j < |e| ==>
            e[i].message.UnknownValue? && e[j].message.UnknownValue? &&
            e[i].message.field.Rank() < e[j].message.field.Rank())
  {
  }

  /**
   * The presence gate's errors: one for a field exactly when its merged value
   * is empty, and some exactly when some merged value is.
   */
  lemma MissingErrorsSpec(merged: Creds)
    ensures forall f :: MissingError(f) in MissingErrors(merged) <==> merged.Get(f) == ""
    ensures MissingErrors(merged) != [] <==> AnyMissing(merged)
  {
    var e := MissingErrors(merged);
    forall f ensures MissingError(f) in e <==> merged.Get(f) == "" {
      match f
      case Hostname =>
      case Username =>
      case Password =>
    }
    if AnyMissing(merged) {
      var f :| merged.Get(f) == "";
      assert MissingError(f) in e;
    }
  }

  /**
   * The presence gate's errors are distinct errors, each about one field at
   * that field's short path, in host, username, password order.
   */
  lemma MissingErrorsShape(merged: Creds)
    ensures var e := MissingErrors(merged);
      && AllErrors(e) && NoDuplicates(e)
      && (forall i :: 0 <= i < |e| ==>
            e[i].message.MissingValue? && e[i] == MissingError(e[i].message.field) &&
            e[i].path == Some(e[i].message.field.MissingPath()))
      && (forall i, j :: 0 <= i < j < |e| ==>
            e[i].message.MissingValue? && e[j].message.MissingValue? &&
            e[i].message.field.Rank() < e[j].message.field.Rank())
  {
  }

  // ----------------------------------------------------------------------
  // The responses the provider writes into
  // ----------------------------------------------------------------------

  /** Where Configure leaves its diagnostics and the client for data sources and resources. */
  class ConfigureResponse {
    var diagnostics: seq<Diag>
    var dataSourceData: Option<ClientHandle>
    var resourceData: Option<ClientHandle>

    constructor ()
      ensures diagnostics == [] && dataSourceData == None && resourceData == None
    {
      diagnostics := [];
      dataSourceData := None;
      resourceData := None;
    }

    predicate HasError()
      reads this
    {
      HasErrors(diagnostics)
    }

    /** Adds each diagnostic of `incoming` in turn, skipping one already held. */
    method Append(incoming: seq<Diag>)
      modifies this
      ensures diagnostics == AppendAll(old(diagnostics), incoming)
      ensures dataSourceData == old(dataSourceData) && resourceData == old(resourceData)
    {
      var i := 0;
      while i < |incoming|
        invariant 0 <= i <= |incoming|
        invariant AppendAll(diagnostics, incoming[i..]) == AppendAll(old(diagnostics), incoming)
        invariant dataSourceData == old(dataSourceData) && resourceData == old(resourceData)
      {
        assert incoming[i..][1..] == incoming[i + 1..];
        if incoming[i] !in diagnostics {
          diagnostics := diagnostics + [incoming[i]];
        }
        i := i + 1;
      }
    }

    /** Adds an error about the attribute at `path`, unless the same one is already held. */
    method AddAttributeError(path: string, message: Message)
      modifies this
      ensures var d := Diagnostic(Error, Some(path), message);
        diagnostics == if d in old(diagnostics) then old(diagnostics) else old(diagnostics) + [d]
      ensures dataSourceData == old(dataSourceData) && resourceData == old(resourceData)
    {
      Append([Diagnostic(Error, Some(path), message)]);
    }

    /** Adds an error that is not about one attribute, unless the same one is already held. */
    method AddError(message: Message)
      modifies this
      ensures var d := Diagnostic(Error, None, message);
        diagnostics == if d in old(diagnostics) then old(diagnostics) else old(diagnostics) + [d]
      ensures dataSourceData == old(dataSourceData) && resourceData == old(resourceData)
    {
      Append([Diagnostic(Error, None, message)]);
    }
  }

  class MetadataResponse {
    var typeName: string

    constructor ()
      ensures typeName == ""
    {
      typeName := "";
    }
  }

  /** A string attribute of the provider schema. */
  datatype StringAttribute = StringAttribute(optional: bool, sensitive: bool)

  class SchemaResponse {
    var attributes: map<string, StringAttribute>

    constructor ()
      ensures attributes == map[]
    {
      attributes := map[];
    }
  }

  // ----------------------------------------------------------------------
  // The provider's operations
  // ----------------------------------------------------------------------

  const TypeName: string := "windowsca"

  method Metadata(resp: MetadataResponse)
    modifies resp
    ensures resp.typeName == TypeName
  {
    resp.typeName := TypeName;
  }

  /**
   * The provider block: exactly the three configuration fields, each an
   * optional string, and only the password sensitive.
   */
  function ProviderSchema(): (s: map<string, StringAttribute>)
    ensures s.Keys == {Hostname.AttributeName(), Username.AttributeName(), Password.AttributeName()}
    ensures forall f: Field :: f.AttributeName() in s && s[f.AttributeName()].optional
    ensures forall f: Field :: f.AttributeName() in s && (s[f.AttributeName()].sensitive <==> f == Password)
  {
    map["winrm_hostname" := StringAttribute(true, false),
        "winrm_username" := StringAttribute(true, false),
        "winrm_password" := StringAttribute(true, true)]
  }

  method Schema(resp: SchemaResponse)
    modifies resp
    ensures resp.attributes == ProviderSchema()
  {
    resp.attributes := ProviderSchema();
  }

  /**
   * The unknown-value gate: one error per field whose value is unknown, at
   * the schema attribute's path, in hostname, username, password order; every
   * field is checked.
   */
  method ReportUnknown(config: ProviderModel, resp: ConfigureResponse)
    requires !HasErrors(resp.diagnostics)
    modifies resp
    ensures resp.diagnostics == old(resp.diagnostics) + UnknownErrors(config)
    ensures resp.dataSourceData == old(resp.dataSourceData) && resp.resourceData == old(resp.resourceData)
  {
    ghost var base := resp.diagnostics;
    ghost var added: seq<Diag> := [];
    if config.winrmHostname.IsUnknown() {
      FreshError(base, added, UnknownError(Hostname));
      resp.AddAttributeError(Hostname.AttributeName(), UnknownValue(Hostname));
      added := added + [UnknownError(Hostname)];
    }
    assert resp.diagnostics == base + added;
    if config.winrmUsername.IsUnknown() {
      FreshError(base, added, UnknownError(Username));
      resp.AddAttributeError(Username.AttributeName(), UnknownValue(Username));
      added := added + [UnknownError(Username)];
    }
    assert resp.diagnostics == base + added;
    if config.winrmPassword.IsUnknown() {
      FreshError(base, added, UnknownError(Password));
      resp.AddAttributeError(Password.AttributeName(), UnknownValue(Password));
      added := added + [UnknownError(Password)];
    }
    assert resp.diagnostics == base + added;
  }

  /**
   * The presence gate: one error per merged value that is empty, at the
   * field's short path, in host, username, password order; every value is
   * checked.
   */
  method ReportMissing(host: string, username: string, password: string, resp: ConfigureResponse)
    requires !HasErrors(resp.diagnostics)
    modifies resp
    ensures resp.diagnostics == old(resp.diagnostics) + MissingErrors(Creds(host, username, password))
    ensures resp.dataSourceData == old(resp.dataSourceData) && resp.resourceData == old(resp.resourceData)
  {
    ghost var base := resp.diagnostics;
    ghost var added: seq<Diag> := [];
    if host == "" {
      FreshError(base, added, MissingError(Hostname));
      resp.AddAttributeError(Hostname.MissingPath(), MissingValue(Hostname));
      added := added + [MissingError(Hostname)];
    }
    assert resp.diagnostics == base + added;
    if username == "" {
      FreshError(base, added, MissingError(Username));
      resp.AddAttributeError(Username.MissingPath(), MissingValue(Username));
      added := added + [MissingError(Username)];
    }
    assert resp.diagnostics == base + added;
    if password == "" {
      FreshError(base, added, MissingError(Password));
      resp.AddAttributeError(Password.MissingPath(), MissingValue(Password));
      added := added + [MissingError(Password)];
    }
    assert resp.diagnostics == base + added;
  }

  /**
   * Configure: decode gate, unknown-value gate, environment/configuration
   * merge, presence gate, then the client constructor. The ghost result
   * records the credentials handed to the constructor, or None when it was
   * not called.
   */
  method Configure(req: ConfigureRequest, env: Environment, newClient: ClientConstructor,
                   resp: ConfigureResponse)
    returns (ghost constructed: Option<Credentials>)
    modifies resp
    ensures var o := ConfigureOutcome(old(resp.diagnostics), req, env, newClient);
      && resp.diagnostics == o.diagnostics
      && constructed == o.constructed
      && resp.dataSourceData == (if o.client.Some? then o.client else old(resp.dataSourceData))
      && resp.resourceData == (if o.client.Some? then o.client else old(resp.resourceData))
  {
    ghost var prior := resp.diagnostics;
    constructed := None;
    var config := req.config;
    resp.Append(req.decodeDiagnostics);
    if resp.HasError() {
      OutcomeOnDecodeError(prior, req, env, newClient);
      return;
    }

    ghost var base := resp.diagnostics;
    ReportUnknown(config, resp);
    UnknownErrorsShape(config);
    UnknownErrorsSpec(config);
    CleanPlusErrors(base, UnknownErrors(config));
    if resp.HasError() {
      OutcomeOnUnknown(prior, req, env, newClient);
      return;
    }
    assert resp.diagnostics == base;

    // The environment supplies each default; a non-null configuration value overrides it.
    var host := Getenv(env, Hostname.EnvVar());
    var username := Getenv(env, Username.EnvVar());
    var password := Getenv(env, Password.EnvVar());

    host := Merge(config.winrmHostname, host);
    username := Merge(config.winrmUsername, username);
    password := Merge(config.winrmPassword, password);
    assert Creds(host, username, password) == Merged(config, env);

    ReportMissing(host, username, password, resp);
    MissingErrorsShape(Creds(host, username, password));
    MissingErrorsSpec(Creds(host, username, password));
    CleanPlusErrors(base, MissingErrors(Creds(host, username, password)));
    if resp.HasError() {
      OutcomeOnMissing(prior, req, env, newClient);
      return;
    }

    assert host != "" && username != "" && password != "";
    var creds: Credentials := Creds(host, username, password);
    constructed := Some(creds);
    var result := newClient(creds);
    OutcomeOnConstruct(prior, req, env, newClient, creds);
    if result.Failure? {
      resp.AddError(ClientFailure(result.error));
      return;
    }

    resp.dataSourceData := Some(result.value);
    resp.resourceData := Some(result.value);
  }
}

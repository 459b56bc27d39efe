/**
 * What one Configure call guarantees, stated over ConfigureOutcome (which the
 * imperative Provider.Configure is proved to follow): which gate stops the
 * call, what each gate adds, how configuration and environment combine, and
 * when the client constructor runs.
 */
module ProviderProperties {
  import opened Wrappers
  import opened Diagnostics
  import opened Provider

  /** The diagnostics the call holds once decoding's diagnostics are appended. */
  function Base(prior: seq<Diag>, req: ConfigureRequest): seq<Diag> {
    AppendAll(prior, req.decodeDiagnostics)
  }

  /** What the gates and the constructor add after decoding's diagnostics. */
  function Added(prior: seq<Diag>, req: ConfigureRequest, env: Environment, newClient: ClientConstructor): seq<Diag>
    requires Base(prior, req) <= ConfigureOutcome(prior, req, env, newClient).diagnostics
  {
    ConfigureOutcome(prior, req, env, newClient).diagnostics[|Base(prior, req)|..]
  }

  /**
   * Configure only ever adds: the diagnostics held before the call, and then
   * decoding's diagnostics, survive as a prefix of the result.
   */
  lemma NothingLost(prior: seq<Diag>, req: ConfigureRequest, env: Environment, newClient: ClientConstructor)
    ensures var o := ConfigureOutcome(prior, req, env, newClient);
      prior <= Base(prior, req) <= o.diagnostics
  {
    var base := Base(prior, req);
    assert base[..|prior|] == prior;
    var o := ConfigureOutcome(prior, req, env, newClient);
    assert o.diagnostics[..|base|] == base;
  }

  /**
   * An error among decoding's diagnostics stops the call: nothing is added
   * after them, no client is stored and the constructor is not called.
   */
  lemma DecodeErrorStops(prior: seq<Diag>, req: ConfigureRequest, env: Environment, newClient: ClientConstructor)
    requires HasErrors(req.decodeDiagnostics)
    ensures var o := ConfigureOutcome(prior, req, env, newClient);
      && o.diagnostics == AppendAll(prior, req.decodeDiagnostics)
      && o.client == None && o.constructed == None
  {
    AppendAllHasErrors(prior, req.decodeDiagnostics);
  }

  /**
   * The unknown-value gate: when decoding was clean and some field is
   * unknown, the call adds exactly one error per unknown field, each at its
   * schema attribute path, and nothing about missing values; the environment
   * plays no part and the constructor is not called.
   */
  lemma UnknownGate(prior: seq<Diag>, req: ConfigureRequest, env: Environment, newClient: ClientConstructor)
    requires !HasErrors(Base(prior, req)) && AnyUnknown(req.config)
    ensures var o := ConfigureOutcome(prior, req, env, newClient);
      && o.client == None && o.constructed == None
      && o.diagnostics == Base(prior, req) + UnknownErrors(req.config)
      && (forall f :: UnknownError(f) in UnknownErrors(req.config) <==> req.config.Get(f).IsUnknown())
      && (forall i :: 0 <= i < |UnknownErrors(req.config)| ==>
            UnknownErrors(req.config)[i].message.UnknownValue? &&
            UnknownErrors(req.config)[i].path == Some(UnknownErrors(req.config)[i].message.field.AttributeName()))
      && AllErrors(UnknownErrors(req.config)) && NoDuplicates(UnknownErrors(req.config))
  {
    UnknownErrorsSpec(req.config);
    UnknownErrorsShape(req.config);
  }

  /**
   * Merge precedence for each field: a literal in the configuration wins
   * over the environment, even an empty one; a field left out of the
   * configuration takes the environment variable, or "" when it is unset.
   */
  lemma MergePrecedence(config: ProviderModel, env: Environment, f: Field)
    requires !config.Get(f).IsUnknown()
    ensures var v := Merged(config, env).Get(f);
      && (config.Get(f).Set? ==> v == config.Get(f).s)
      && (config.Get(f).Null? && f.EnvVar() in env ==> v == env[f.EnvVar()])
      && (config.Get(f).Null? && f.EnvVar() !in env ==> v == "")
  {
    match f
    case Hostname =>
    case Username =>
    case Password =>
  }

  /**
   * The presence gate: when decoding was clean and every field is known but
   * some merged value is empty, the call adds exactly one error per empty
   * value, each at the field's short path, and the constructor is not called.
   */
  lemma MissingGate(prior: seq<Diag>, req: ConfigureRequest, env: Environment, newClient: ClientConstructor)
    requires !HasErrors(Base(prior, req)) && !AnyUnknown(req.config)
    requires AnyMissing(Merged(req.config, env))
    ensures var o := ConfigureOutcome(prior, req, env, newClient);
      var e := MissingErrors(Merged(req.config, env));
      && o.client == None && o.constructed == None
      && o.diagnostics == Base(prior, req) + e
      && (forall f :: MissingError(f) in e <==> Merged(req.config, env).Get(f) == "")
      && (forall i :: 0 <= i < |e| ==>
            e[i].message.MissingValue? && e[i].path == Some(e[i].message.field.MissingPath()))
      && AllErrors(e) && NoDuplicates(e)
  {
    MissingErrorsSpec(Merged(req.config, env));
    MissingErrorsShape(Merged(req.config, env));
  }

  /**
   * An explicit empty string in the configuration is not replaced by the
   * environment: once the earlier gates pass, it is reported missing, and
   * the constructor is not called, whatever the environment holds.
   */
  lemma ExplicitEmptyIsMissing(prior: seq<Diag>, req: ConfigureRequest, env: Environment,
                               newClient: ClientConstructor, f: Field)
    requires !HasErrors(Base(prior, req)) && !AnyUnknown(req.config)
    requires req.config.Get(f) == Set("")
    ensures var o := ConfigureOutcome(prior, req, env, newClient);
      MissingError(f) in o.diagnostics && o.constructed == None && o.client == None
  {
    MergePrecedence(req.config, env, f);
    MissingErrorsSpec(Merged(req.config, env));
    assert MissingError(f) in MissingErrors(Merged(req.config, env));
  }

  /**
   * The constructor is called exactly when decoding was clean, no field is
   * unknown and no merged value is empty, and then with the merged values.
   */
  lemma ConstructorCalledIffGatesPass(prior: seq<Diag>, req: ConfigureRequest, env: Environment,
                                      newClient: ClientConstructor)
    ensures var o := ConfigureOutcome(prior, req, env, newClient);
      && (o.constructed.Some? <==>
            !HasErrors(Base(prior, req)) && !AnyUnknown(req.config) && !AnyMissing(Merged(req.config, env)))
      && (o.constructed.Some? ==> o.constructed.value == Merged(req.config, env))
  {
  }

  /**
   * A constructor error adds exactly one error after decoding's diagnostics:
   * no attribute path, the fixed summary, and a detail that ends with the
   * constructor's own error text. No client is stored.
   */
  lemma ConstructorFailure(prior: seq<Diag>, req: ConfigureRequest, env: Environment,
                           newClient: ClientConstructor, creds: Credentials, err: string)
    requires !HasErrors(Base(prior, req)) && !AnyUnknown(req.config)
    requires creds == Merged(req.config, env) && newClient(creds) == Failure(err)
    ensures var o := ConfigureOutcome(prior, req, env, newClient);
      && o.client == None && o.constructed == Some(creds)
      && |o.diagnostics| == |Base(prior, req)| + 1
      && var d := o.diagnostics[|Base(prior, req)|];
      && d.severity == Error && d.path == None
      && d.message.Summary() == "Unable to Create Windows WinRM Client"
      && |err| <= |d.message.Detail()|
      && d.message.Detail()[|d.message.Detail()| - |err|..] == err
  {
    OutcomeOnConstruct(prior, req, env, newClient, creds);
    var detail := ClientErrorDetailPrefix + err;
    assert detail[|detail| - |err|..] == err;
  }

  /**
   * A constructed client adds no diagnostic and becomes the data of both
   * data sources and resources.
   */
  lemma ConstructorSuccess(prior: seq<Diag>, req: ConfigureRequest, env: Environment,
                           newClient: ClientConstructor, creds: Credentials, client: ClientHandle)
    requires !HasErrors(Base(prior, req)) && !AnyUnknown(req.config)
    requires creds == Merged(req.config, env) && newClient(creds) == Success(client)
    ensures var o := ConfigureOutcome(prior, req, env, newClient);
      o.diagnostics == Base(prior, req) && o.client == Some(client) && o.constructed == Some(creds)
  {
    OutcomeOnConstruct(prior, req, env, newClient, creds);
  }

  /**
   * A client is stored exactly when the diagnostics afterwards hold no
   * error: every path that stores nothing leaves an error behind.
   */
  lemma ClientIffNoError(prior: seq<Diag>, req: ConfigureRequest, env: Environment, newClient: ClientConstructor)
    ensures var o := ConfigureOutcome(prior, req, env, newClient);
      o.client.Some? <==> !HasErrors(o.diagnostics)
  {
    var base := Base(prior, req);
    var merged := Merged(req.config, env);
    if HasErrors(base) {
    } else if AnyUnknown(req.config) {
      UnknownErrorsSpec(req.config);
      UnknownErrorsShape(req.config);
      CleanPlusErrors(base, UnknownErrors(req.config));
    } else if AnyMissing(merged) {
      MissingErrorsSpec(merged);
      MissingErrorsShape(merged);
      CleanPlusErrors(base, MissingErrors(merged));
    } else {
      assert merged.Get(Hostname) != "" && merged.Get(Username) != "" && merged.Get(Password) != "";
      var creds: Credentials := merged;
      OutcomeOnConstruct(prior, req, env, newClient, creds);
      if newClient(creds).Failure? {
        CleanPlusErrors(base, [ClientError(newClient(creds).error)]);
      }
    }
  }

  /**
   * The two gates never report together: what a call adds holds no
   * missing-value error when it holds an unknown-value error, and the
   * reverse.
   */
  lemma GatesNeverMix(prior: seq<Diag>, req: ConfigureRequest, env: Environment, newClient: ClientConstructor)
    ensures Base(prior, req) <= ConfigureOutcome(prior, req, env, newClient).diagnostics
    ensures var added := Added(prior, req, env, newClient);
      forall i, j :: 0 <= i < |added| && 0 <= j < |added| && added[i].message.UnknownValue? ==>
        !added[j].message.MissingValue?
  {
    NothingLost(prior, req, env, newClient);
    var base := Base(prior, req);
    var merged := Merged(req.config, env);
    var o := ConfigureOutcome(prior, req, env, newClient);
    if HasErrors(base) {
      assert o.diagnostics[|base|..] == [];
    } else if AnyUnknown(req.config) {
      UnknownErrorsShape(req.config);
      assert o.diagnostics[|base|..] == UnknownErrors(req.config);
    } else if AnyMissing(merged) {
      MissingErrorsShape(merged);
      assert o.diagnostics[|base|..] == MissingErrors(merged);
    } else {
      assert merged.Get(Hostname) != "" && merged.Get(Username) != "" && merged.Get(Password) != "";
      var creds: Credentials := merged;
      OutcomeOnConstruct(prior, req, env, newClient, creds);
      assert forall i :: 0 <= i < |o.diagnostics[|base|..]| ==> o.diagnostics[|base|..][i].message.ClientFailure?;
    }
  }

  /**
   * Hostname and password in the configuration, username from the
   * environment: the constructor receives all three.
   */
  lemma UsernameFromEnvironment(newClient: ClientConstructor)
    ensures var req := ConfigureRequest([], ProviderModel(Set("h"), Null, Set("p")));
      var env := map["WINDOWSCA_USERNAME" := "u"];
      ConfigureOutcome([], req, env, newClient).constructed == Some(Creds("h", "u", "p"))
  {
    var req := ConfigureRequest([], ProviderModel(Set("h"), Null, Set("p")));
    var env := map["WINDOWSCA_USERNAME" := "u"];
    assert Merged(req.config, env) == Creds("h", "u", "p");
    assert !HasErrors(Base([], req));
  }

  /**
   * Nothing configured and nothing in the environment: the three
   * missing-value errors, host, username, password, and nothing else.
   */
  lemma NothingConfigured(newClient: ClientConstructor)
    ensures var req := ConfigureRequest([], ProviderModel(Null, Null, Null));
      ConfigureOutcome([], req, map[], newClient) ==
        Outcome([MissingError(Hostname), MissingError(Username), MissingError(Password)], None, None)
  {
    var req := ConfigureRequest([], ProviderModel(Null, Null, Null));
    assert Merged(req.config, map[]) == Creds("", "", "");
    assert !HasErrors(Base([], req));
    assert AnyMissing(Creds("", "", "")) by {
      assert Creds("", "", "").Get(Hostname) == "";
    }
  }
}

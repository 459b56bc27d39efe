# windowsca provider: Configure, Metadata and Schema

A Dafny model of the Terraform provider `windowsca` (`windowsca/provider.go`).
Its one step with real logic is `Configure`. It decodes the provider block
(`winrm_hostname`, `winrm_username`, `winrm_password`), then passes three gates
in order:

1. stop if decoding left an error;
2. report every attribute whose value is still unknown;
3. take each value from its environment variable (`WINDOWSCA_HOSTNAME`,
   `WINDOWSCA_USERNAME`, `WINDOWSCA_PASSWORD`), replaced by the configuration
   value when that value is not null, then report every value that is empty.

Only then does it hand the three values to the WinRM client constructor. A
constructor error becomes one wrapped diagnostic. A client becomes the data of
both data sources and resources.

Files:

- `wrappers.dfy`: `Option` and `Result`.
- `diagnostics.dfy`: the framework's diagnostics accumulator as the provider
  uses it. Appending skips a diagnostic already held. "Has an error" means some
  member has error severity.
- `provider.dfy`: the data model and the rendered message texts.
  - `ConfigureOutcome` is the specification of one call.
  - `ConfigureResponse` is the response object with a growing diagnostics sequence.
  - `Configure` is the imperative method, which reassigns `host`, `username`
    and `password` step by step. It is proved to end in exactly the state
    `ConfigureOutcome` describes.
  - The file also holds `Metadata` and `Schema`.
- `properties.dfy`: what a Configure call guarantees, proved over `ConfigureOutcome`.

Modelling choices:

- A diagnostic's message is kept as a kind (`UnknownValue(field)`,
  `MissingValue(field)`, `ClientFailure(err)`, or plain `Text` for decoder
  diagnostics). `Message.Summary` and `Message.Detail` render each kind to the
  exact summary and detail the source writes. Two diagnostics of the gates are
  equal exactly when their rendered texts and paths are, so skipping duplicates
  behaves the same.
- `os.Getenv` reads a snapshot `map<string, string>`. A variable that is absent
  reads as `""`.
- The client constructor is a function parameter. It accepts only
  `Credentials`, the triples whose three parts are all non-empty, so every call
  to it carries the proof that the presence gate passed. `Configure` records,
  in a ghost result, the argument it passed to the constructor, or `None` when
  it did not call it; the Go method returns nothing.
- A decoder *warning* does not stop `Configure`; only error severity does
  (`HasError`). The diagnostics already held before the call count toward the
  first `HasError` check.

## Model

| member | source | states |
|---|---|---|
| Diagnostics.AppendAll | windowsca/provider.go:62 | appending decoder diagnostics only grows the collection, by at most what was offered, and keeps the old contents as a prefix |
| Diagnostics.AppendAllMembers | windowsca/provider.go:62 | after appending, every old and every offered diagnostic is held, and nothing else is |
| Diagnostics.AppendAllNoDuplicates | windowsca/provider.go:62 | appending never introduces a duplicate into a collection that had none |
| Diagnostics.AppendAllHasErrors | windowsca/provider.go:62-65 | the collection has an error after the append exactly when it had one before or decoding reported one |
| Provider.Getenv | windowsca/provider.go:104-106 | the definition is the model of `os.Getenv` over an environment snapshot: a set variable reads as its value, an unset one as `""`; used by `Merged`, and `ProviderProperties.MergePrecedence` states both cases |
| Provider.Merge | windowsca/provider.go:108-118 | the definition is the model of one field's override: a null configuration value keeps the environment default, any other value replaces it with its `ValueString`; `ProviderProperties.MergePrecedence` states the precedence |
| Provider.Merged | windowsca/provider.go:104-118 | the definition is the model of the three independent per-field merges, each defaulting to its own environment variable; `ProviderProperties.MergePrecedence` and `ProviderProperties.ExplicitEmptyIsMissing` state its properties |
| Provider.Message.Summary | windowsca/provider.go:73-161 | the definition renders each diagnostic kind to its summary; the texts equal the source's literals character for character ("Unknown Windows WinRM Host", …, "Unable to Create Windows WinRM Client"); `ProviderProperties.ConstructorFailure` states the client error's summary |
| Provider.Message.Detail | windowsca/provider.go:74-164 | the definition renders each diagnostic kind to its detail; the texts equal the source's literals character for character, and the client error's detail is the fixed prefix followed by the constructor's error text, which `ProviderProperties.ConstructorFailure` states |
| Provider.UnknownErrors | windowsca/provider.go:70-95 | the definition is the model of the three unknown checks as the list of errors they add; `Provider.UnknownErrorsSpec` and `Provider.UnknownErrorsShape` state its properties and `Provider.ReportUnknown` is proved to append exactly it |
| Provider.MissingErrors | windowsca/provider.go:123-151 | the definition is the model of the three presence checks as the list of errors they add; `Provider.MissingErrorsSpec` and `Provider.MissingErrorsShape` state its properties and `Provider.ReportMissing` is proved to append exactly it |
| Provider.ConfigureOutcome | windowsca/provider.go:58-173 | the definition is the model of one call, gate by gate: diagnostics afterwards, client stored and constructor argument; `Provider.Configure` is proved to end in exactly this outcome, and every `ProviderProperties` lemma states a property of it |
| Provider.ConfigureResponse.Append | windowsca/provider.go:62 | the loop leaves the diagnostics equal to `AppendAll` of the old ones and the offer, and leaves the client data unchanged |
| Provider.ConfigureResponse.AddAttributeError | windowsca/provider.go:71-76 | an error at the given attribute path is added unless the same one is already held |
| Provider.ConfigureResponse.AddError | windowsca/provider.go:160-165 | an error without a path is added unless the same one is already held |
| Provider.Metadata | windowsca/provider.go:35-37 | the response's type name becomes `windowsca` |
| Provider.ProviderSchema | windowsca/provider.go:40-55 | the schema has exactly the three attributes, all optional, and only `winrm_password` is sensitive |
| Provider.Schema | windowsca/provider.go:40-55 | the response's attributes become the provider schema |
| Provider.UnknownErrorsSpec | windowsca/provider.go:70-99 | the unknown-value gate reports a field exactly when that field is unknown, and reports something exactly when some field is unknown |
| Provider.UnknownErrorsShape | windowsca/provider.go:70-95 | the unknown-value errors are distinct errors, each at its `winrm_*` attribute path, in hostname, username, password order |
| Provider.MissingErrorsSpec | windowsca/provider.go:123-155 | the presence gate reports a field exactly when its merged value is empty, and reports something exactly when some value is empty |
| Provider.MissingErrorsShape | windowsca/provider.go:123-151 | the missing-value errors are distinct errors, each at the short path `host`/`username`/`password`, in that order |
| Provider.OutcomeOnDecodeError | windowsca/provider.go:61-65 | proof step of `Configure`: unfolds the decode-error branch of `ConfigureOutcome`; the property itself is `ProviderProperties.DecodeErrorStops` |
| Provider.OutcomeOnUnknown | windowsca/provider.go:70-99 | proof step of `Configure`: unfolds the unknown-value branch of `ConfigureOutcome`; the property itself is `ProviderProperties.UnknownGate` |
| Provider.OutcomeOnMissing | windowsca/provider.go:101-155 | proof step of `Configure`: unfolds the missing-value branch of `ConfigureOutcome`; the property itself is `ProviderProperties.MissingGate` |
| Provider.OutcomeOnConstruct | windowsca/provider.go:157-172 | proof step of `Configure`: unfolds the constructor branch of `ConfigureOutcome`; the properties themselves are `ProviderProperties.ConstructorFailure` and `ProviderProperties.ConstructorSuccess` |
| Provider.CleanPlusErrors | windowsca/provider.go:97-99 | an error-free collection that gains errors has an error exactly when it gained at least one |
| Provider.FreshError | windowsca/provider.go:70-95 | an error the gate has not added yet is not held, so adding it is never skipped |
| Provider.ReportUnknown | windowsca/provider.go:70-95 | the three unknown checks append exactly the unknown-value errors to an error-free response and leave its client data unchanged |
| Provider.ReportMissing | windowsca/provider.go:123-151 | the three presence checks append exactly the missing-value errors to an error-free response and leave its client data unchanged |
| Provider.Configure | windowsca/provider.go:58-173 | the method ends with the diagnostics, the constructor argument and the data-source and resource data that `ConfigureOutcome` gives |
| ProviderProperties.NothingLost | windowsca/provider.go:58-173 | the diagnostics held before the call, then decoding's, survive as a prefix of the result |
| ProviderProperties.DecodeErrorStops | windowsca/provider.go:61-65 | an error from decoding means nothing is added after decoding's diagnostics, no client is stored and the constructor is not called |
| ProviderProperties.UnknownGate | windowsca/provider.go:70-99 | with decoding clean and some field unknown, exactly one error per unknown field and no other kind is added, whatever the environment; the constructor is not called |
| ProviderProperties.MergePrecedence | windowsca/provider.go:104-118 | a literal configuration value wins over the environment, even an empty one; a null value takes the environment variable, or `""` when it is unset |
| ProviderProperties.MissingGate | windowsca/provider.go:123-155 | with every field known, exactly one missing-value error per empty merged value is added; the constructor is not called |
| ProviderProperties.ExplicitEmptyIsMissing | windowsca/provider.go:108-151 | a configuration value set to `""` is reported missing whatever the environment holds, and no client is built |
| ProviderProperties.ConstructorCalledIffGatesPass | windowsca/provider.go:153-158 | the constructor is called exactly when decoding is clean, nothing is unknown and nothing merged is empty, and then with the merged triple |
| ProviderProperties.ConstructorFailure | windowsca/provider.go:158-167 | a constructor error adds exactly one error, with no path, the summary "Unable to Create Windows WinRM Client" and a detail ending in the error text; no client is stored |
| ProviderProperties.ConstructorSuccess | windowsca/provider.go:169-172 | a constructed client adds no diagnostic and is the one stored for both data sources and resources |
| ProviderProperties.ClientIffNoError | windowsca/provider.go:58-173 | a client is stored exactly when the final diagnostics hold no error |
| ProviderProperties.GatesNeverMix | windowsca/provider.go:97-99 | one call never adds both an unknown-value error and a missing-value error |
| ProviderProperties.UsernameFromEnvironment | windowsca/provider.go:104-118 | hostname `h` and password `p` configured, with `WINDOWSCA_USERNAME=u`, hand `("h", "u", "p")` to the constructor |
| ProviderProperties.NothingConfigured | windowsca/provider.go:123-151 | nothing configured and nothing in the environment gives the host, username and password missing-value errors in that order, and nothing else |

## Left out

- `main.go` is not part of this model. It is process bootstrap that hands the provider to the plugin server.
- `New` is not modelled. It only allocates the field-less provider value.
- `DataSources` and `Resources` are not modelled. Both return nil: the provider declares no data source and no resource.
- The WinRM client behind `windowsca.NewClient` is unseen code, so it is a function parameter that either returns a handle or fails with an error text. Its protocol, its retries and its use of the pointers it receives are not modelled. The source also calls it from inside package `windowsca` without an import, so its identity is unknown.
- Decoding the provider block (`req.Config.Get`) is not modelled. The request carries its result: the diagnostics it produced and the decoded three-state values.
- `context.Context`, the framework's `path`, `types` and `schema` types, and the server that renders diagnostics are not modelled. An attribute path is kept as its root attribute name.
- The process environment is read from a snapshot given to the call. Changes to it during the call are not modelled.
- Redaction of the sensitive password in logs and plans is not modelled. The host does it, and the model only records the `sensitive` flag.
- Metadata's and Schema's requests are ignored by the source and are not parameters here.

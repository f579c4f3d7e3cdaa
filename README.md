# External credential-provider keychain — a Dafny model

This project models the external credential-provider keychain of the soci
snapshotter (`service/keychain/credentialproviderconfig/credentialproviderconfig.go`).
The keychain gets a registry username and password for an image by running a
plugin binary that speaks the kubelet credential-provider protocol
(`credentialprovider.kubelet.k8s.io/v1`). It writes a JSON
`CredentialProviderRequest` to the plugin's standard input. It reads a JSON
`CredentialProviderResponse` from the plugin's standard output. The plugin
runs under a one-minute deadline.

The model has two parts, both in module `CredentialProviderConfig`
(`credentialproviderconfig.dfy`):

- **Option folding.** `Options` is the mutable options record. `Option`
  (built only by `WithCredentialProviderPath`) writes its path into it in
  place. `NewExternalCredentialProviderKeychain` runs the options in order in a
  loop and builds a `Keychain` holding the resulting binary path. The loop is
  proved against `ApplyAll`, the functional reading of the same fold.
- **The `credentials` pipeline.** The operating system and the JSON codec are
  parameters: `Effects` holds four functions for inspecting the binary path,
  encoding the request, running the plugin (with its standard input and its
  deadline) and decoding its output. `Fetch` is the decision logic. It returns
  the trace of effects used, in order, and the outcome: one of the six errors,
  or the non-empty `auth` map. `Keychain.Credentials` is the method itself. It
  returns Go's triple `(username, password, error)`, with `None` standing for a
  nil error. It is proved to agree with `Fetch` on both the outcome and the
  trace: a ghost out-parameter records each effect as the method uses it.
  `Message` gives each error's text, as the source formats it.

Module `Wrappers` (`wrappers.dfy`) holds the `Option` type used for the error.

Some behaviour of the code is worth stating plainly, because a reader might
expect otherwise:

- Every failed run of the plugin gives the same "error running" error
  (line 91). A run killed at the one-minute deadline and a run that fails to
  start or exits non-zero are not told apart.
- A request that fails to encode and output that fails to decode give two
  different errors, with different messages (lines 77 and 98). The model has
  `MarshalFailed` and `UnmarshalFailed` for them.
- Two calls with the same plugin behaviour give the same result when the call
  fails, and when the `auth` map has one entry (`SoleEntrySelected`). When
  the map has entries carrying different pairs, either pair may be returned
  (`EveryEntrySelectable`, `TwoEntriesEitherSelected`), because Go's map
  iteration order is unspecified. The model leaves that choice open.

## Model

| member | source | states |
|---|---|---|
| `CredentialProviderConfig.Options.constructor` | service/keychain/credentialproviderconfig/credentialproviderconfig.go:29 | a fresh options record has an empty binary path (Go's zero value) |
| `CredentialProviderConfig.Option.Apply` | service/keychain/credentialproviderconfig/credentialproviderconfig.go:22-26 | running a `WithCredentialProviderPath` option overwrites the record's binary path with the option's path, in place |
| `CredentialProviderConfig.ApplyAllAppend` | service/keychain/credentialproviderconfig/credentialproviderconfig.go:30-32 | applying options in order composes: running `a + b` equals running `a` and then `b` on the result |
| `CredentialProviderConfig.ApplyAll` | service/keychain/credentialproviderconfig/credentialproviderconfig.go:29-32 | running options over an options record leaves the starting value when there are none, and otherwise the path of one of the options |
| `CredentialProviderConfig.LastOptionWins` | service/keychain/credentialproviderconfig/credentialproviderconfig.go:22-32 | after a run of options the binary path is the path of the last option, or the starting value when there are none |
| `CredentialProviderConfig.NewExternalCredentialProviderKeychain` | service/keychain/credentialproviderconfig/credentialproviderconfig.go:28-37 | the loop over the options leaves the keychain's binary path equal to the fold of the options over an empty record, that is the last option's path, or `""` when no option is given |
| `CredentialProviderConfig.Keychain.constructor` | service/keychain/credentialproviderconfig/credentialproviderconfig.go:33-35 | the keychain keeps the binary path it is built with |
| `CredentialProviderConfig.Keychain.Credentials` | service/keychain/credentialproviderconfig/credentialproviderconfig.go:60-104 | the effects the method uses, in order, are exactly those of `Fetch`'s trace; every error comes with empty username and password; the error is the one the first failing stage decides; on success there is no error and the pair is some entry of the decoded `auth` map |
| `CredentialProviderConfig.Fetch` | service/keychain/credentialproviderconfig/credentialproviderconfig.go:62-103 | the binary is always inspected first; the stages used run in pipeline order, each at most once; a success has used all four stages and carries a non-empty `auth` map |
| `CredentialProviderConfig.NewRequest` | service/keychain/credentialproviderconfig/credentialproviderconfig.go:69-73 | the request has kind `CredentialProviderRequest`, API version `credentialprovider.kubelet.k8s.io/v1`, and the image reference's string form as its image |
| `CredentialProviderConfig.RequestIsFixed` | service/keychain/credentialproviderconfig/credentialproviderconfig.go:69-96 | the encoded request always has kind `CredentialProviderRequest`, API version `credentialprovider.kubelet.k8s.io/v1` and the image; the plugin run is the configured binary, under a 60-second deadline, fed the encoded request; only output of a completed run is decoded |
| `CredentialProviderConfig.StatFailureStops` | service/keychain/credentialproviderconfig/credentialproviderconfig.go:62-68 | a missing binary gives the "did not exist" error and any other inspection failure the "error inspecting" error with its cause; in both cases nothing but the inspection is done |
| `CredentialProviderConfig.MarshalFailureStops` | service/keychain/credentialproviderconfig/credentialproviderconfig.go:75-78 | a request that fails to encode gives the "error json marshal" error with its cause, and the plugin is never run |
| `CredentialProviderConfig.RunFailureStops` | service/keychain/credentialproviderconfig/credentialproviderconfig.go:84-92 | a failed run, the deadline's expiry included, gives the "error running" error with the binary path and cause, and the output is never decoded |
| `CredentialProviderConfig.UnmarshalFailureDecides` | service/keychain/credentialproviderconfig/credentialproviderconfig.go:94-99 | output that fails to decode gives the "error json unmarshal" error with its cause |
| `CredentialProviderConfig.AuthDecides` | service/keychain/credentialproviderconfig/credentialproviderconfig.go:100-103 | after a successful decode, an empty or absent `auth` map gives the "no response" error, and a non-empty one answers the call with that map |
| `CredentialProviderConfig.AnsweredIffAllStagesSucceed` | service/keychain/credentialproviderconfig/credentialproviderconfig.go:62-103 | a call succeeds if and only if inspection, encoding, running and decoding all succeed and the `auth` map has an entry |
| `CredentialProviderConfig.EveryEntrySelectable` | service/keychain/credentialproviderconfig/credentialproviderconfig.go:100-101 | any entry of the `auth` map is a pair the call may return; no match key is preferred |
| `CredentialProviderConfig.TwoEntriesEitherSelected` | service/keychain/credentialproviderconfig/credentialproviderconfig.go:100-101 | with two entries carrying different pairs, either pair may be returned |
| `CredentialProviderConfig.SoleEntrySelected` | service/keychain/credentialproviderconfig/credentialproviderconfig.go:100-102 | when the `auth` map has exactly one entry, the selected pair is that entry |
| `CredentialProviderConfig.Message` | service/keychain/credentialproviderconfig/credentialproviderconfig.go:64-103 | each error's text starts with its format's fixed lead (lines 64, 67, 77, 91, 98, 103); the missing-binary text ends in " did not exist" and the no-response text ends with the binary path |
| `CredentialProviderConfig.MessageIdentifiesError` | service/keychain/credentialproviderconfig/credentialproviderconfig.go:64-103 | equal error messages come from the same kind of error; for a missing binary or an empty response they also name the same path |

## Left out

- File-system inspection (`os.Stat`), the child process (`exec.CommandContext`, `cmd.Run`, the standard-input, -output and -error buffers) and the one-minute context deadline are not modelled: their results are the `stat` and `run` functions of `Effects`. The deadline appears only as the value 60 handed to `run`.
- JSON encoding and decoding are not modelled: their results are the `marshal` and `unmarshal` functions of `Effects`. A response whose `auth` is absent or `null` is represented by its decoded value with an empty map.
- The image reference's string form (`reference.Spec.String()`, from containerd) is taken as the `image` string.
- The debug log line and the `host` argument it prints have no effect on the result; `host` is accepted and unused.
- The `context.Context` argument of `NewExternalCredentialProviderKeychain` is unused by the source and not modelled.
- Returning the bound method `kc.credentials` as a `resolver.Credential` value is not modelled; the method returns the `Keychain` object, whose `Credentials` method plays that part.
- A nil `Option` in the argument list would make the Go code panic; options here are always `WithCredentialProviderPath` values.
- Error wrapping (`%w`) is represented by carrying the wrapped error's text as `cause`; `errors.Is`/`errors.As` unwrapping is not modelled.
- Keychain.Credentials: does not fix which entry of a multi-entry `auth` map is returned, because Go's map iteration order is unspecified; it states only that the pair is some entry.

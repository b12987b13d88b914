# createkubeconfig, modelled in Dafny

`createkubeconfig` is a one-shot command-line tool. It turns a handful of
flags into a kubeconfig document with a single cluster/context/user triple,
all named after `--cluster`, and writes that document to `--kubeconfig`.
The user entry carries either a literal bearer token or the path of a token
file. When both `--token` and `--token-file` are given, the document refers
to the file, and the tool also writes the token into that file with mode
0600. A bare token file name (one without a `/`) is placed in the
kubeconfig's directory.

The model follows the tool's four stages:

- `validation.dfy` (module `Validation`): the `Options` record, the ordered
  chain of presence checks (`Validate`), and `Violated`/`Rank`, which state
  each constraint on its own and give its place in the chain.
- `builder.dfy` (module `KubeconfigBuilder`): the document (`Config`, with
  `Cluster`, `Context` and `AuthInfo` entries) and `CreateKubeconfig`. It also
  has the two-arm `Credential` view of a user entry and `CurrentTarget`,
  which follows the current context the way a kubeconfig reader does.
- `paths.dfy` (module `TokenPath`): the separator search, `Dir`, `Join`,
  `Base` and `ResolveTokenPath` for `/`-separated paths.
- `persister.dfy` (module `Persister`): the intended writes (`Plan`), a
  filesystem as a map from path to content (`Apply`), the count of writes
  that succeed before the first unwritable path (`Succeeding`), and the class
  `FileSystem`. Its `Run` method performs validation and then the two writes
  in place.

`createKubeconfig` stores the `--token-file` value exactly as given
(cmd/createkubeconfig/main.go:74-75). Only the token file write in `main`
resolves it (cmd/createkubeconfig/main.go:117-120): a bare name goes beside
the kubeconfig, and any other value is kept verbatim, relative to the working
directory when it is not absolute. `ReferenceHoldsToken` states what this
guarantees: the stored reference, resolved the way the tool resolves it,
holds the token.

## Model

| member | source | states |
|---|---|---|
| `Validation.ValidLevel` | cmd/createkubeconfig/main.go:46 | the level parser as a predicate: a level name in any letter case; it has no contract of its own, and its meaning is pinned down by `DefaultLevelAccepted` |
| `Validation.Validate` | cmd/createkubeconfig/main.go:45-70 | validation passes iff the level parses, at least one of token and token file is non-empty, and service account, namespace, cluster, server and kubeconfig are all non-empty; a reported error names a violated constraint |
| `Validation.PassIffNoViolation` | cmd/createkubeconfig/main.go:45-70 | validation passes exactly when none of the seven constraints is violated; no other check is made |
| `Validation.FirstViolationReported` | cmd/createkubeconfig/main.go:45-69 | the error reported is `e` iff `e`'s constraint is violated and every constraint checked before it holds (order: log level, token, service account, namespace, cluster, server, kubeconfig) |
| `Validation.MissingTokenIff` | cmd/createkubeconfig/main.go:50-52 | the token error is reported exactly when the level is valid and both token and token file are empty |
| `Validation.EitherCredentialSuffices` | cmd/createkubeconfig/main.go:50-52 | with a valid level, either credential flag alone passes the token check |
| `Validation.ServerNotInspected` | cmd/createkubeconfig/main.go:62-64 | replacing a non-empty server by any other non-empty string leaves the outcome unchanged |
| `Validation.DefaultLevelAccepted` | cmd/createkubeconfig/main.go:31 | the default level `info` parses, the level check ignores letter case, and an unknown name is refused |
| `Validation.DefaultsLackCredential` | cmd/createkubeconfig/main.go:31-38 | with every flag at its default, the token check is the first to fail |
| `KubeconfigBuilder.CreateKubeconfig` | cmd/createkubeconfig/main.go:72-98 | the document holds exactly one cluster, one context and one user, all keyed by the cluster name, which is also the current context; the context points at that cluster and user; the cluster's server and the context's namespace are the ones given; the credential is the token file when one is given, else the literal token |
| `KubeconfigBuilder.CredentialPriority` | cmd/createkubeconfig/main.go:73-78 | a non-empty token file is stored with an empty token, whatever the token is; otherwise the token is stored with an empty token file |
| `KubeconfigBuilder.TokenIgnoredWithTokenFile` | cmd/createkubeconfig/main.go:74-78 | when a token file is given, the token has no influence on the document |
| `KubeconfigBuilder.ExactlyOneArm` | cmd/createkubeconfig/main.go:73-78 | when at least one credential is given (as validation ensures), exactly one of the user entry's two fields is populated |
| `KubeconfigBuilder.CurrentContextResolves` | cmd/createkubeconfig/main.go:80-97 | following the current context reaches the given server, the given namespace and the chosen credential |
| `KubeconfigBuilder.LiteralTokenDocument` | cmd/createkubeconfig/main.go:72-98 | for token `abc`, no token file, server `https://api.x`, cluster `prow` and namespace `ci`, the document is the expected one, with the token embedded |
| `TokenPath.IndexOf` | cmd/createkubeconfig/main.go:118 | the result is -1 iff the character is absent; otherwise it is the index of the first occurrence |
| `TokenPath.LastIndexOf` | cmd/createkubeconfig/main.go:119 | the result is -1 iff the character is absent; otherwise it is the index of the last occurrence |
| `TokenPath.LastIndexOfIs` | cmd/createkubeconfig/main.go:119 | an occurrence with no later occurrence is the one the search returns |
| `TokenPath.Dir` | cmd/createkubeconfig/main.go:119 | the directory of a path is never empty, and it is `.` for a path without a separator |
| `TokenPath.DirJoin` | cmd/createkubeconfig/main.go:119 | joining a non-empty bare name onto a directory gives a path whose directory is that directory and whose last element is the name |
| `TokenPath.Join` | cmd/createkubeconfig/main.go:119 | a name placed inside a directory; it has no contract of its own, and its meaning is pinned down by `DirJoin` (the directory and the last element of the result are the two parts joined) |
| `TokenPath.ResolveTokenPath` | cmd/createkubeconfig/main.go:116-120 | a token file name containing a separator is used verbatim; otherwise the result is the name joined onto the kubeconfig's directory |
| `TokenPath.BareNameColocated` | cmd/createkubeconfig/main.go:117-120 | a resolved bare name lies in the same directory as the kubeconfig and keeps the name as its last element |
| `TokenPath.ResolveBareExample` | cmd/createkubeconfig/main.go:117-120 | `sa.token` with kubeconfig `/etc/kube/config` resolves to `/etc/kube/sa.token` |
| `TokenPath.ResolveAbsoluteExample` | cmd/createkubeconfig/main.go:117-118 | `/abs/sa.token` resolves to itself |
| `TokenPath.ResolveNoDirExample` | cmd/createkubeconfig/main.go:119 | with a kubeconfig path that has no directory, a bare name stays as it is (the working directory) |
| `TokenPath.ResolveScenarioExample` | cmd/createkubeconfig/main.go:117-120 | `sa-token` with kubeconfig `/tmp/kc` resolves to `/tmp/sa-token` |
| `Persister.Plan` | cmd/createkubeconfig/main.go:113-124 | the writes `main` makes after validation, in order; it has no contract of its own, and its meaning is pinned down by `PlanOrder`, `SecretWrittenIff` and the contract of `FileSystem.Run` |
| `Persister.Succeeding` | cmd/createkubeconfig/main.go:113-123 | the count of writes that succeed is the index of the first write to an unwritable path, or all of them |
| `Persister.ApplyUntouched` | cmd/createkubeconfig/main.go:113-124 | a path that no write targets keeps its content, or stays absent |
| `Persister.ApplyLastWins` | cmd/createkubeconfig/main.go:113-124 | the last write to a path decides that path's content |
| `Persister.PlanOrder` | cmd/createkubeconfig/main.go:113-124 | the kubeconfig document is written first; there is a second write exactly when both token and token file are given |
| `Persister.SecretWrittenIff` | cmd/createkubeconfig/main.go:116-124 | a token file is written iff both token and token file are non-empty, and it holds the token with mode 0600 at the resolved path |
| `Persister.NoOtherPathChanges` | cmd/createkubeconfig/main.go:113-124 | however many writes succeed, every file path spelled differently from the kubeconfig path and the resolved token path is unchanged (directories are not modelled) |
| `Persister.DocumentSurvivesIff` | cmd/createkubeconfig/main.go:113-124 | after a complete run, the kubeconfig path holds the document unless the resolved token path is spelled exactly like the kubeconfig path, in which case it holds the token |
| `Persister.ReferenceHoldsToken` | cmd/createkubeconfig/main.go:116-121 | after a complete run that writes a token file, the document stores the `--token-file` value as given, and that value, resolved the way the tool resolves it (a bare name beside the kubeconfig, any other value verbatim), holds the token |
| `Persister.WriteFailureStops` | cmd/createkubeconfig/main.go:113-123 | nothing is written iff the kubeconfig path is unwritable; an unwritable token path leaves the document written without its token file |
| `Persister.LiteralTokenScenario` | cmd/createkubeconfig/main.go:105-124 | with token `abc` and no token file, validation passes and the only write is the document to `/tmp/kc` embedding the token |
| `Persister.TokenFileScenario` | cmd/createkubeconfig/main.go:105-124 | with token `abc` and token file `sa-token`, the document refers to `sa-token`, and `abc` is written to `/tmp/sa-token` with mode 0600 |
| `Persister.MissingClusterScenario` | cmd/createkubeconfig/main.go:59-61 | an empty cluster with everything else valid is rejected with the cluster error |
| `Persister.FileSystem.WriteFile` | cmd/createkubeconfig/main.go:121 | a write to a writable path replaces that one entry and is logged; a write to an unwritable path fails and changes nothing |
| `Persister.FileSystem.Run` | cmd/createkubeconfig/main.go:105-124 | invalid options are rejected with the first violated constraint and its message and change no file; otherwise the planned writes are made in order up to the first failing one, which is reported by path; earlier writes stay in place |

## Left out

- `gatherOptions`: flag parsing. `Options` holds the flag values after parsing, and `Defaults` holds the flag defaults.
- Logging setup (`log.SetLevel`, `logrusutil.ComponentInit`): global logging state with no effect on the files written.
- `cmd/app/main.go`: the HTTP demo service is not part of this model.
- Serialization of the document to YAML by the client library: a written kubeconfig is modelled as the path mapping to the `Config` value. The permission bits the client library gives that file are not modelled.
- `ValidLevel`: the logging library's level parser is modelled by its set of level names, compared after ASCII lower-casing. Non-ASCII case folding is not modelled.
- `Dir` and `Join`: these model Go's path operations for `/` only, without the lexical clean-up of `.`, `..` and repeated separators. They agree with Go for a clean directory and a name other than `.` and `..`. A token file named `.` or `..` is joined literally (`/etc/kube/..`), where Go would clean it away (`/etc`); `BareNameColocated` then speaks of that literal spelling.
- FileSystem: paths are compared as strings. `./kc` and `kc`, `a//b` and `a/b`, a relative and an absolute spelling, or a symlink and its target are separate entries, although they name one file. So `DocumentSurvivesIff` and `NoOtherPathChanges` speak of spellings: with kubeconfig `./kc` and token file `kc`, the tool overwrites the document with the token, while the model keeps both entries.
- `FileSystem.WriteFile`: mode 0600 is recorded on every token file write. The operating system applies a mode only when it creates the file, and then masks it with the umask. A partially written file after an I/O error is not modelled. Which paths fail is fixed by the `unwritable` set.
- `FileSystem.Run`: the client library's kubeconfig write first creates the kubeconfig's missing parent directories (mode 0755). Directories are not modelled: the filesystem holds files only, so the new state after `Run` omits those directories, and `unwritable` may list a path whose only problem is a missing directory, which the tool would have created. A failed token file write is reported with the resolved path that was attempted. The tool's log line names the `--token-file` value instead, while the wrapped error names the path. Log messages and the process exit code are not modelled beyond the `Status` value.

# kubeconfig: configuration comparison and cluster setup

A model of the logic in minikube's kubeconfig package tests
(`pkg/minikube/kubeconfig/config_test.go`). The package keeps a client
configuration: name-keyed collections of clusters, users (auth-infos) and
contexts, plus a current-context pointer. The test file has three parts that
carry behaviour:

- `configEquals`, the structural comparison used to check that a
  configuration survives being written and read back;
- `minikubeConfig`, which adds a cluster, a user and a context named
  "minikube" to a configuration in place and makes that context current;
- the context-switch rule of `SetupKubeConfig` as the setup table asserts it:
  without `KeepContext` the current context becomes the cluster name, and
  with it a current context that is already set is kept.

Modules:

- `Api` (`api.dfy`): the client configuration types. `Cluster`, `AuthInfo`
  and `Context` are values with only the fields the comparison reads. `Config`
  is a class, because the code holds it by pointer and updates it in place.
  Byte data is `seq<bv8>`. Extensions are a name-keyed map of opaque raw
  objects.
- `Equality` (`config_equals.dfy`): `ConfigEquals` is the comparison as a
  predicate. `CompareConfigs` and `CompareEntries` are the same comparison as
  the loops with early exits; map iteration order is unspecified, so the next
  name is picked nondeterministically. `View` keeps what the comparison can
  see: scalar fields, plus only the lengths of byte data and extension
  collections. `ConfigEqualsIffSameView` proves that the comparison is
  exactly equality of views. It is therefore an equivalence relation, it
  ignores data contents, and it ignores the current context.
- `Setup` (`setup.dfy`): the setup parameters, the three entries setup
  stores, the context-switch rule `NextCurrentContext`, and `Merge`, the
  in-memory part of `SetupKubeConfig`. Also `MinikubeConfig`, and the
  scenarios of the setup table and the new-config round trip as methods
  whose postconditions are the tests' expectations.

Observations:

- `configEquals` is documented as checking that configs are identical. It
  does not compare the current context, and it compares byte data and
  extensions by length only. `CurrentContextNotCompared` and
  `DataContentsNotCompared` state this.
- The implementation of `SetupKubeConfig` is not part of this model. `Merge`
  follows the package's documented design: insert or overwrite under the
  cluster name, and switch the current context unless `keepContext` is set
  and a current context already exists. The tests check only the resulting
  current context. They do not check that other entries are preserved, and
  they do not try `keepContext` with no current context. In that untried
  case the model switches to the cluster name, and the setup table's
  keep-context assertion would report that result as "Context was changed".

## Model

| member | source | states |
|---|---|---|
| `Api.Config.constructor` | pkg/minikube/kubeconfig/config_test.go:131-150 | a new (or freshly loaded empty) configuration has no auth-infos, no clusters and no contexts, and no current context |
| `Equality.SameCluster` | pkg/minikube/kubeconfig/config_test.go:255-261 | two clusters pass the field test exactly when origin, server, API version, TLS-skip flag and authority path are equal and the authority data and extension collections have equal lengths (equal views) |
| `Equality.SameAuthInfo` | pkg/minikube/kubeconfig/config_test.go:275-283 | two auth-infos pass the field test exactly when origin, certificate and key paths, token, username and password are equal and certificate data, key data and extensions have equal lengths (equal views) |
| `Equality.SameContext` | pkg/minikube/kubeconfig/config_test.go:298-302 | two contexts pass the field test exactly when origin, cluster, auth-info and namespace are equal and the extension collections have equal lengths (equal views) |
| `Equality.MapsMatch` | pkg/minikube/kubeconfig/config_test.go:246-264 | a collection check that passes (equal sizes, every name of the first found in the second with a passing entry) means both sides hold the same names and every name of the second side also passes |
| `Equality.ConfigEquals` | pkg/minikube/kubeconfig/config_test.go:229-308 | the comparison of kind, API version, colours, extension count and the three collections; when it holds, both configurations name the same clusters, auth-infos and contexts |
| `Equality.ConfigEqualsIffSameView` | pkg/minikube/kubeconfig/config_test.go:229-308 | the comparison holds exactly when kind, API version, colours, the extension count and, for every name, each entry's scalar fields and data/extension lengths agree, with the same names on both sides |
| `Equality.MapsMatchIffSameView` | pkg/minikube/kubeconfig/config_test.go:245-264 | one collection check (equal sizes, every name of the first found in the second with matching fields) holds exactly when both collections have the same names and matching entries |
| `Equality.ConfigEqualsReflexive` | pkg/minikube/kubeconfig/config_test.go:229-308 | every configuration compares equal to itself |
| `Equality.ConfigEqualsSymmetric` | pkg/minikube/kubeconfig/config_test.go:245-306 | the comparison gives the same answer with its arguments swapped, although it only looks up the first side's names in the second |
| `Equality.ConfigEqualsTransitive` | pkg/minikube/kubeconfig/config_test.go:245-306 | two configurations equal to a third are equal to each other |
| `Equality.DifferentTopLevelNotEqual` | pkg/minikube/kubeconfig/config_test.go:230-291 | a different kind, API version, colour preference, top-level extension count, or cluster, auth-info or context count makes the comparison false |
| `Equality.MissingNameNotEqual` | pkg/minikube/kubeconfig/config_test.go:249-296 | a cluster, auth-info or context name present on only one side, either side, makes the comparison false |
| `Equality.DataContentsNotCompared` | pkg/minikube/kubeconfig/config_test.go:255-302 | a cluster, auth-info or context whose certificate, key or extension data is replaced by data of the same length, each independently, still passes its field test |
| `Equality.DataContentsNotComparedInConfig` | pkg/minikube/kubeconfig/config_test.go:229-308 | two configurations with the same names and top-level fields whose entries differ only in the contents of same-length byte data and extensions compare equal |
| `Equality.CurrentContextNotCompared` | pkg/minikube/kubeconfig/config_test.go:229-308 | configurations with the same entries and top-level fields compare equal whatever their current contexts |
| `Equality.CompareEntries` | pkg/minikube/kubeconfig/config_test.go:249-264 | the per-collection loop with early return, over names in any order, returns exactly the collection check |
| `Equality.CompareConfigs` | pkg/minikube/kubeconfig/config_test.go:229-308 | the comparison with its early returns returns true exactly when `ConfigEquals` holds |
| `Setup.NextCurrentContext` | pkg/minikube/kubeconfig/config_test.go:118-123 | without keepContext the current context becomes the cluster name; with keepContext a set current context is kept, so one naming another cluster is not switched |
| `Setup.NextCurrentContextSettles` | pkg/minikube/kubeconfig/config_test.go:83-93 | repeating a setup does not move the current context again; with keepContext a context set by hand survives repeated setups |
| `Setup.Merge` | pkg/minikube/kubeconfig/config_test.go:107-123 | the cluster, user and context are inserted or overwritten under the cluster name, the current context follows the switch rule, nothing else changes, the new context resolves, and every context that resolved still resolves |
| `Setup.MinikubeConfig` | pkg/minikube/kubeconfig/config_test.go:203-226 | adds "minikube" cluster, user and context (the context naming that cluster and user), makes it current, leaves all other names and fields unchanged; the entries are those setup merges for the minikube parameters |
| `Setup.LaCroixConfig` | pkg/minikube/kubeconfig/config_test.go:30-50 | the existing la-croix configuration of the setup table, whose contexts all resolve |
| `Setup.SetupKubeConfigCases` | pkg/minikube/kubeconfig/config_test.go:52-129 | new config and add-to-config cases end with current context "test"; the keep-context case ends with "la-croix", not "test" |
| `Setup.WriteThenRead` | pkg/minikube/kubeconfig/config_test.go:165-171 | the configuration read back after a write has the same view as the one written: every compared field, and the lengths of byte data and extensions |
| `Setup.NewConfigCase` | pkg/minikube/kubeconfig/config_test.go:153-179 | a new configuration with the minikube entries, written and read back, compares equal to the original, because a round trip keeps the view and the comparison is equality of views |

## Left out

- File handling: temporary files and directories, writing the existing configuration to disk, and removing files. These are I/O only.
- Setup.WriteThenRead: the YAML serialisation behind `WriteConfig` and `ReadConfigOrNew` lives in the Kubernetes client library, which is not part of this model. The write-then-read pair promises only that the configuration read back has the same view (the compared fields and data lengths). Nothing is promised about the current context or the contents of byte data.
- Loading errors: a malformed file and a failed write are I/O and parse errors of that library. `SetupKubeConfig` passes them through. `Merge` models only the in-memory update.
- The "use config env var" case: it is about resolving the configuration path from the environment, not about the merge.
- `t.Parallel()`: this is test-runner concurrency.
- Setup.MinikubeConfig: the API server port is a constant of a package that is not part of this model. It is a parameter, and server addresses are opaque strings.
- Fields of the client library types that the comparison does not read, such as the preferences' extensions and auth-provider settings.
- The target file path of the setup parameters, because the file is not modelled.

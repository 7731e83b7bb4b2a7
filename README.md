# vault-webhook admission core, in Dafny

vault-webhook is a Kubernetes mutating admission webhook. When a Pod is created, the webhook looks up the DatabaseCredentialBindings of the Pod's namespace whose service account is the Pod's. It answers with one JSON Patch (RFC 6902) per request that, for the matched databases, does four things:

- adds the shared `vault-creds` emptyDir volume;
- mounts that volume at each database's output path in every existing container and init container, without adding the same vault-creds mount twice (mounts are compared whole, so a different mount at the same path does not stop it);
- appends a vault-creds sidecar container per database; the sidecar gets `--job` when the Pod's first owner is a Job or Workflow;
- prepends an init sidecar per database, which gets `--init` and has exactly the sidecar's two mounts.

The model covers this pipeline:

- `matcher.dfy`: the binding selection of webhook.go. `filterBindings`, `matchBindings` and `appendIfMissing` each appear twice: as a specification function and as a loop method proved equal to it.
- `vault.dfy`: the patch construction of vault.go. The Pod is a class whose container lists `createPatch` and `addVault` update in place.
- `jsonpatch.dfy`: what the API server does with the three kinds of operation the webhook emits. This lets the model prove that the patch turns the Pod into the intended Pod.
- `admission.dfy`: the decision of `mutate` and the status prologue of `serve`.
- `types.dfy` and `sequences.dfy`: the records, and an order-preservation predicate.

These inputs become parameters, because the code never defines them:

- the sidecar image and the Vault, gateway, CA and login settings;
- the secret-path format, which is `Config.secretPath`, a function standing in for `fmt.Sprintf(secretPathFormat, database, role)`.

Decoding the admission review and the Pod, listing the bindings, and encoding the patch are library calls. They are inputs that report success or an error message.

## Model

| member | source | states |
|---|---|---|
| Matcher.InNamespace | webhook.go:177-185 | every kept binding is from the input and has the target namespace; never longer than the input |
| Matcher.InNamespaceCounts | webhook.go:179-183 | each binding of the namespace is kept as many times as it occurs; every other binding is dropped (webhook_test.go:10-29) |
| Matcher.InNamespaceInOrder | webhook.go:179-183 | the kept bindings are a subsequence of the input, in input order |
| Matcher.FilterBindings | webhook.go:177-185 | the loop returns exactly InNamespace of its input |
| Matcher.AddIfKeyMissing | webhook.go:217-228 | the result holds d's key; unchanged when the key (role, database, outputPath, outputFile) is already present, the container ignored; otherwise d appended; no duplicate keys is preserved |
| Matcher.AppendIfMissing | webhook.go:217-228 | the early-return loop equals AddIfKeyMissing |
| Matcher.ResolvedOutputPath | webhook.go:197-200 | an empty output path becomes "/etc/database"; a non-empty one is kept unchanged |
| Matcher.ToDatabase | webhook.go:197-211 | the matched record has the binding's role, database and output file, the resolved (never empty) output path, and the binding's container |
| Matcher.MatchedDatabases | webhook.go:193-215 | no two matched entries share a key; never longer than the input |
| Matcher.MatchedFromMatchingBinding | webhook.go:195-211 | every entry is the resolved form of a binding whose service account equals the Pod's exactly |
| Matcher.MatchedSound | webhook.go:195-211 | every entry comes from a binding whose service account equals the Pod's exactly, and is the resolved form of the first such binding of its key |
| Matcher.FirstIndices | webhook.go:195-196 | the positions, strictly increasing, of exactly those bindings that name the service account and come first among them with their key |
| Matcher.LastFirstOfKeyIffNewKey | webhook.go:204-227 | a matching binding is the first of its key exactly when the entries matched before it lack its key |
| Matcher.MatchedCoversEveryKey | webhook.go:195-212 | every binding of the service account has its key in the result |
| Matcher.MatchedFirstSeenWins | webhook.go:204-227 | the first binding of each key is the one kept, with its container |
| Matcher.MatchedStep | webhook.go:195-227 | one more binding adds its resolved entry, and its position, exactly when it is the first of its key naming the service account; otherwise neither changes |
| Matcher.MatchedInOrder | webhook.go:195-214 | the result is exactly the first binding of each key (FirstIndices), resolved, in input order: same length, entry k from the k-th such binding |
| Matcher.MatchedEmptyIff | webhook.go:193-215 | nothing matches exactly when no binding names the service account (webhook_test.go:31-50) |
| Matcher.DuplicateBindingsMatchOnce | webhook.go:217-228 | two bindings that differ only in container give one entry, the first |
| Matcher.MatchBindings | webhook.go:193-215 | the loop with the inline default path returns exactly MatchedDatabases |
| Vault.Pod.constructor | vault.go:12 | the Pod object holds the given Pod value |
| Vault.AddVolume | vault.go:172-198 | one "add" op, on "/spec/volumes" for a Pod without volumes and on "/spec/volumes/-" otherwise (vault_test.go:56-73) |
| Vault.AddVolumeApplies | vault.go:181-195 | applied to the Pod, the op leaves the old volumes followed by the vault-creds emptyDir volume |
| Vault.AppendVolumeMountIfMissing | vault.go:219-226 | the old mounts are a prefix; the result holds exactly the old mounts and v; unchanged if v is present; at most one longer |
| Vault.MountsFor | vault.go:204-212 | the old mounts are a prefix; the result holds exactly the old mounts and one vault-creds mount per output path; the appended mounts are distinct and new |
| Vault.MountsForPresent | vault.go:210-211 | mounts that are all present already are left as they are |
| Vault.MountsForIdempotent | vault.go:204-212 | injecting mounts twice equals injecting them once |
| Vault.MountedContainers | vault.go:200-217 | one container out per container in |
| Vault.MountedContainersShape | vault.go:204-214 | each container keeps its other fields and its old mounts, and gains a vault-creds mount for every database (vault_test.go:13-37) |
| Vault.MountedContainersIdempotent | vault.go:200-217 | applying addVolumeMount twice equals applying it once |
| Vault.SharedOutputPathMountedOnce | vault.go:205-211 | two databases with one output path give one mount (vault_test.go:39-54) |
| Vault.DistinctOutputPathsMountedInOrder | vault.go:205-211 | two output paths give two mounts, in database order |
| Vault.DifferentMountAtSamePathKept | vault.go:219-226 | a mount at the output path that differs in name or options does not count as present: the vault-creds mount is added after it |
| Vault.AddVolumeMount | vault.go:200-217 | the nested loop returns exactly MountedContainers |
| Vault.HyphenatedName | vault.go:35 | every '_' of the database name becomes '-', other characters are kept |
| Vault.HyphenatedNameHasNoUnderscore | vault.go:35 | a hyphenated name has no '_' |
| Vault.SidecarArgsHaveNoFlags | vault.go:64-77 | the twelve base arguments hold neither "--job" nor "--init" |
| Vault.VaultSidecarShape | vault.go:34-142 | name "vault-creds-" + hyphenated database + "-" + role; auth-role database_namespace_serviceAccount; "--out" path; the two fixed mounts; "--job" exactly when the first owner kind is Job or Workflow; never "--init" (vault_test.go:152-187) |
| Vault.VaultSidecar | vault.go:56-140 | the base sidecar with only its arguments changed: the twelve base arguments, then "--job" exactly when the first owner is job-like |
| Vault.InitSidecar | vault.go:108-146 | the base sidecar with name + "-init" and the base arguments followed by "--init" |
| Vault.InitSidecarShape | vault.go:108-146 | the sidecar's name + "-init"; base arguments followed by "--init"; never "--job"; the same two mounts |
| Vault.VaultSidecars | vault.go:25-142 | one sidecar per database |
| Vault.InitSidecars | vault.go:25-146 | one init sidecar per database |
| Vault.VaultOps | vault.go:149-167 | two ops: "replace" of /spec/containers with the old containers as prefix, one more per database; /spec/initContainers, "replace" exactly when there were init containers, one per database followed by the old init containers |
| Vault.AddVault | vault.go:23-170 | only the Pod's containers change, gaining one sidecar per database in order; the patch is "replace" of the containers, then the init sidecars followed by the old init containers, "replace" if there were any and "add" otherwise (vault_test.go:98-106) |
| Vault.PatchFor | vault.go:12-21 | three ops: the addVolume op; then /spec/containers holding the mounted containers followed by one sidecar per database, in order; then /spec/initContainers holding one init sidecar per database followed by the mounted init containers |
| Vault.CreatePatch | vault.go:12-21 | the patch is PatchFor of the old Pod; the containers end up mounted plus sidecars; init containers are mounted |
| Vault.PatchApplies | vault.go:12-21 | applied in order to the Pod's JSON form, the patch succeeds and yields the intended Pod |
| Vault.PatchShape | vault.go:12-21 | three ops: volume "add", containers "replace", initContainers "add" or "replace"; pairwise distinct paths |
| Vault.FooBarSidecarNames | vault.go:35-145 | for database "foo" and role "bar" the sidecar is "vault-creds-foo-bar" and the init sidecar "vault-creds-foo-bar-init" with "--init" |
| Vault.OneCredentialEmptyPodPatch | vault.go:12-21 | for one credential and a Pod with no volumes or containers: add the one-volume array, replace the containers with the sidecar, add the init sidecar list |
| Vault.PreStopValid | vault_test.go:272-279 | valid only with a preStop handler; a handler with neither exec nor sleep is never valid |
| Vault.PreStopValidCases | vault_test.go:272-279 | an exec with a command and a positive sleep are valid; no handler, an empty handler and a negative sleep are not |
| Admission.Mutate | webhook.go:105-174 | allowed exactly when there is no message; a patch exactly with type JSONPatch and only when allowed; a Pod-decode, list or patch-encoding error gives only that message; with no error and something matched, allowed with createPatch's patch |
| Admission.MutateAllowsUnchangedIff | webhook.go:139-154 | allowed without a patch exactly when the Pod and bindings decoded and no binding of the namespace names the Pod's service account |
| Admission.MutatePatchApplies | webhook.go:156-173 | a patch is sent only when nothing failed and something matched; it is createPatch's patch and yields the intended Pod |
| Admission.SingleBindingScenario | webhook.go:139-173 | binding ns1/foo/bar/sa1 and an empty Pod of sa1: volume add, sidecar "vault-creds-foo-bar", init sidecar "vault-creds-foo-bar-init" with "--init" |
| Admission.Prologue | webhook.go:56-68 | an HTTP error exactly for an empty body or a Content-Type other than "application/json"; 400 for an empty body, checked first; 415 only for a non-empty body |
| Admission.ServeAsWritten | webhook.go:49-89 | empty body gives 400; a review that decodes without a request panics |
| Admission.Serve | webhook.go:56-89 | 400 for an empty body, checked first; 415 exactly for a non-empty body whose Content-Type is not "application/json"; otherwise a response carrying the request's UID, the decode error as message; never a panic |
| Admission.ServeAsWrittenPanicsWithoutRequest | webhook.go:72-109 | a JSON body that decodes to a review without a request panics as written and is answered by Serve |
| Admission.ServeAgreesWithRequestPresent | webhook.go:49-89 | on every other input Serve answers as ServeAsWritten does (the preStop copying, left out, is not part of either) |

## Left out

- The binding cache (controller.go) is not part of this model: the outcome of its `List` is an input, a list of bindings or an error.
- Certificate hot-reload (tlsutil.go) and process startup (main.go) are not part of this model; they are concurrency, file watching and server setup.
- JSON encoding and decoding are abstract inputs, and the patch is a sequence of operations rather than bytes. This covers `deserializer.Decode`, `json.Unmarshal` of the Pod, and `json.Marshal` of the patch and the review.
- HTTP I/O in `serve` is left out, because it is transport. That covers reading the body, writing the response, and the 500 paths after an encoding or write failure.
- Logging is left out.
- The preStop lifecycle copying at vault.go:110-131 is left out. It reads an init-container override that the record no longer has, and it dereferences optional handlers without checking them, so as written a binding without a preStop hook would stop the handler there too. Only the validity rule its tests assert is modelled: `Vault.PreStopValid`, checked by `Vault.PreStopValidCases`.
- Resource requests and limits (vault.go:46-54) are kept as literal strings; parsing quantities is a library call.
- Volume mounts keep every field the webhook compares on (name, path, read-only, sub-path, sub-path expression, mount propagation), so `Vault.AppendVolumeMountIfMissing` compares them whole as the code does; mount propagation is an optional string rather than a pointer.
- Containers keep only the fields the webhook sets or reads: name, image, pull policy, arguments, environment, resources and mounts. The Pod keeps only its service account, owner kinds, volumes and containers.
- Vault.VaultSidecarShape: the secret-path argument is only as precise as `Config.secretPath`, which stands in for the format string the code never defines.
- JsonPatch.ApplyOp: models only the operations and paths the webhook emits ("add" and "replace" on the three Pod members, and "add" at "/spec/volumes/-"). It refuses everything else rather than modelling all of RFC 6902.

## Findings

| source | as written | input that shows it | evidently intended | confidence | as-written member | corrected member |
|---|---|---|---|---|---|---|
| webhook.go:72-109 | `serve` passes a review that decoded without error to `mutate`, which reads `ar.Request.Object` at once; `serve` itself checks `ar.Request != nil` only afterwards | a non-empty body with Content-Type "application/json" holding `{"kind":"AdmissionReview","apiVersion":"admission.k8s.io/v1beta1"}`, a review without a request | answer with an error response, as for every other per-request failure, instead of a nil dereference | not executed | Admission.ServeAsWritten, Admission.ServeAsWrittenPanicsWithoutRequest | Admission.Serve |

# k8s-labelr-webhook: the mutation pipeline in Dafny

The webhook is a Kubernetes mutating admission webhook. For every object a
non-system user submits, it injects a fixed set of labels and annotations:
`sea=turtle`, `land=mongoose`, `air=falcon` and one `address` annotation.
A request from a user whose name contains `system` is passed through
without a patch, and a raw object that does not unmarshal is answered with
500. When `spec.template.metadata.labels` is present (even empty), it also
writes the labels into the pod template and into `spec.selector.matchLabels`,
and the annotations into the pod template. A pod template at another path
is not patched.

This project models the mutation pipeline:

- `wrappers.dfy` (`Wrappers`): `Option` and `Result`.
- `json_patch.dfy` (`JsonPatch`): JSON Patch operations (RFC 6902) and
  unescaped JSON Pointers (RFC 6901). It also proves that the pointer's
  tokens can be read back.
- `utils.dfy` (`Utils`): the types of utils.go.
  - `GenericK8sObject` is the object view. Each of its four maps is an
    `Option`, so an absent map (Go `nil`) is distinct from an empty one.
  - It also holds the AdmissionReview envelope and the two response
    assemblers.
- `patcher.dfy` (`Patcher`): `patchBuilder` as an imperative method.
  - The method grows the `patches` sequence step by step. Its four
    `range` loops are `while` loops that pick keys in an arbitrary order.
  - It is proved equal to the specification function `Build` for the
    orders the loops took.
- `document.dfy` (`Document`): the admitted object as a JSON document.
  - The document is cut down to the five maps the patch addresses.
  - It defines the `add` operation of section 4.1 of RFC 6902 on that
    document.
  - Adding to a member of an absent map fails. Adding to an existing
    member replaces its value.
- `patcher_proofs.dfy` (`PatcherProofs`): the properties of the built
  patch.
  - Structure: ordering, counting, coverage and adjacency.
  - Effect: applying the patch under RFC 6902 equals an independent
    reference definition, `Effect`.
  - Corollaries of the effect: order independence, when the patch
    succeeds, non-destructiveness and idempotence.
- `handler.dfy` (`Handler`): the decision logic of `mutateObject` and
  `admissionReviewFromRequest` in main.go.
  - The content-type gate.
  - The `strings.Contains(username, "system")` bypass.
  - The outcome of each branch: status 400, status 500, or a response.

Go randomises map iteration. The order each `range` loop visits the
configured maps is therefore a parameter, `Orders`, restricted by
`ValidOrders`. Each loop may take a different order. Every property is
proved for all valid orders.

The handler answers 500, not 400, for a raw object that does not unmarshal
(main.go:81-86), and it discards the error `patchBuilder` returns
(main.go:89).

## Model

| member | source | states |
|---|---|---|
| Patcher.PatchBuilder | patcher.go:7-92 | The patches slice built step by step equals `Build` for the orders its loops took, and those orders enumerate each configured map exactly once. Whatever the orders, every operation is an `add`, and the length is [labels nil] + [annotations nil] + \|L\| + \|A\|, plus 2\|L\| + [template annotations nil] + \|A\| when template labels are present |
| Patcher.AppendMetadataOps | patcher.go:21-55 | The metadata part equals `MetadataOps` for the loop orders. It has only `add` operations: one per nil metadata map and one per configured label and annotation |
| Patcher.AppendTemplateLabelOps | patcher.go:62-81 | The template part appends the label/selector pairs, then `add /spec/template/metadata/annotations {}` when those annotations are nil. It adds 2\|L\| + [template annotations nil] operations, all `add` |
| Patcher.AppendTemplateOps | patcher.go:57-89 | When template labels are present, appends `TemplateOps`: 2\|L\| + [template annotations nil] + \|A\| operations, all `add`. Otherwise it appends nothing |
| Patcher.AppendKeyOps | patcher.go:41-55 | A `range` loop over a map appends `KeyOps` for the order it reports, and that order visits every key exactly once. Whatever the order, it appends exactly \|m\| operations. Each sets some key of `m` to its value, and every key of `m` gets one |
| Patcher.AppendPairOps | patcher.go:62-73 | The pod-template loop appends `PairOps` for the order it reports. Whatever the order, it appends 2\|m\| `add` operations, and every key has its template-label operation immediately followed by its selector operation, with the same value |
| Patcher.AppendedKeyOps | patcher.go:41-55 | For any enumeration of the map, appending `KeyOps` adds one operation per key. Each sets a key of the map to its value, and every key is covered |
| Patcher.AppendedPairOps | patcher.go:62-73 | For any enumeration of the labels, appending `PairOps` adds two `add` operations per key, with each key's template/selector pair adjacent |
| PatcherProofs.BuildOnlyAdds | patcher.go:24-87 | Every emitted operation is an `add` |
| PatcherProofs.BuildLength | patcher.go:19-89 | The patch length is [labels nil] + [annotations nil] + \|L\| + \|A\|, plus 2\|L\| + [template annotations nil] + \|A\| when template labels are present |
| PatcherProofs.BuildCreatesAbsentMaps | patcher.go:23-81 | A map is created exactly when it is nil: labels, annotations, and template annotations only when template labels are present. Template labels and the selector's matchLabels are never created. Every creation is `add <map> {}` |
| PatcherProofs.BuildCreatesBeforeWrites | patcher.go:21-88 | A map's creation precedes every write of a key into that map. The metadata creations precede every key write anywhere |
| PatcherProofs.BuildSetsEachKeyOnce | patcher.go:41-88 | Each configured key is written into each patched map exactly once, with its configured value. A key is written into a map iff it is configured for that map and the map is patched |
| PatcherProofs.BuildPairsAdjacent | patcher.go:62-73 | Each template-label write is immediately followed by the selector write of the same key and value. Each selector write immediately follows such a template-label write |
| PatcherProofs.BuildWithoutTemplateLabels | patcher.go:59-89 | With nil template labels, no emitted path starts with `/spec` |
| PatcherProofs.ApplyBuild | patcher.go:21-89 | Applying the patch under RFC 6902 `add` equals `Effect`, which is defined map by map. Nil maps that are patched become the configured entries. Present maps keep their keys, with the configured keys overwritten. The patch fails iff a map it writes into but does not create is nil |
| PatcherProofs.ApplyOrderIndependent | patcher.go:41-88 | The patch's effect does not depend on the order the `range` loops took |
| PatcherProofs.ApplySucceeds | patcher.go:59-73 | The patch applies to the admitted object iff it is not the case that template labels are present, matchLabels is absent and labels are configured |
| PatcherProofs.ApplyNonDestructive | patcher.go:21-55 | Applying the patch keeps every existing map and every existing key. A key's value changes only when that key is configured for that map. Configured keys end up with their configured values, and no other key is added |
| PatcherProofs.ApplyIdempotent | patcher.go:21-55 | Applying the same patch a second time to its result changes nothing |
| PatcherProofs.RebuildIdempotent | patcher.go:7-92 | Building the patch again for the patched object, in any loop order, and applying it changes nothing |
| Utils.PassingAdmissionReviewResponse | utils.go:23-33 | The reply has a response and no request, `allowed` is set, and the UID and group/version/kind are echoed. It carries no patch and no patch type |
| Utils.PatchingAdmissionReviewResponse | utils.go:35-48 | The reply has a response and no request, `allowed` is set, and the UID and group/version/kind are echoed. It carries exactly the given patch, with type JSONPatch |
| Utils.PatchingDiffersFromPassingOnlyInPatch | utils.go:23-48 | The two replies to one review agree on every field except the patch and the patch type |
| Handler.AdmissionReviewFromRequest | main.go:106-130 | Parsing succeeds iff the Content-Type is exactly `application/json` and the body decodes. On success the result is the decoded review |
| Handler.Contains | main.go:63 | `strings.Contains(s, sub)` holds iff `sub` occurs at some index of `s` |
| Handler.SystemAnywhereBypasses | main.go:63 | A username with `system` anywhere in it counts as a system user, e.g. `systemov` and `kube-system` |
| Handler.BypassIsCaseSensitive | main.go:63 | `SYSTEM` is not a system user: the match is case-sensitive |
| Handler.ContentTypeIsExact | main.go:108-110 | The content type `application/json; charset=utf-8` is refused, and the handler answers 400 |
| Handler.MutateObject | main.go:44-104 | Corrected handler (see ## Findings). The outcome is 400, 500 or a response; it never panics. It is 400 iff the request fails the gate, fails to decode or carries no request. It is 500 iff a non-system user's raw object does not unmarshal. A response answers the inbound review, and it has no patch iff the user is a system user. A system user gets exactly the passing response. Anyone else gets exactly `Build` of their object |
| Handler.MutateObjectAsWritten | main.go:44-104 | As written, the handler panics iff the request passes the gate and decodes into a review without a request. Otherwise it agrees with `MutateObject` |
| Handler.HandleMutate | main.go:44-104 | Corrected handler (see ## Findings). The step-by-step handler calls the patch-builder method and yields `MutateObject`'s outcome for the orders its loops took. Whatever the orders, it never panics. It gives 400 exactly for an unusable request and 500 exactly for a non-system user's object that does not unmarshal. Otherwise it replies to the inbound review, with the passing response for a system user |
| Handler.BypassIgnoresObject | main.go:63-76 | For a system user the outcome does not depend on the raw object |
| Handler.ResponsePatchApplies | main.go:89-91 | The patch in a patching response, applied to the admitted object, has exactly `Effect`. It succeeds iff it is not the case that the object has template labels and no `spec.selector.matchLabels` |
| Handler.MissingRequestPanics | main.go:50-60 | A decoded review without a request makes the as-written handler panic, while the corrected handler answers 400 |

## Left out

- TLS certificate loading, server setup and `ListenAndServeTLS` (main.go:23-42). This is process and transport I/O.
- All logging. It has no behaviour to state.
- Library calls are modelled only by their results:
  - `io.ReadAll` and the deserializer's `Decode`: `HttpRequest.decoded` is the decoded review, or `None` when either call fails.
  - `json.Unmarshal` of the raw object: `AdmissionRequest.rawObject` is the parsed object view, or `None`.
  - `json.Marshal` of the patch: the patch is the sequence of operations, not bytes.
- Handler.MutateObject: the 500 answers for a response that fails to marshal (main.go:66-72, 92-98) are omitted. They cannot occur for these record types.
- Patcher.PatchBuilder: the `error` result of `json.Marshal` (patcher.go:91) is not modelled, because the handler discards it.
- The HTTP body, headers and status line are not modelled. Only the decision the handler writes is.
- JSON Pointer escaping (`~0`, `~1`). Paths are plain concatenation, as in the source.
  - The structural and effect lemmas assume keys without `/` or `~` (`PlainKeys`). The hard-coded keys meet this (`PatcherProofs.DefaultConfigPlain`).
- The document model:
  - It holds only the five string maps the patch addresses.
  - The containers `/metadata`, `/spec/template/metadata` and `/spec/selector` are taken to exist.
  - Operations other than `add` and values other than a string or `{}` make an operation fail; the builder emits neither.
- The AdmissionReview and AdmissionRequest fields the handler does not read (for example `Request.Resource` is kept only as a string).
- Concurrency between requests. The handler keeps no shared state.

## Findings

| source | as written | input that shows it | evidently intended | confidence | as-written member | corrected member |
|---|---|---|---|---|---|---|
| main.go:59 | After `admissionReviewFromRequest` succeeds, `admissionReviewRequest.Request` is dereferenced without a nil check | Content-Type `application/json`, body `{"apiVersion":"admission.k8s.io/v1","kind":"AdmissionReview"}`: it decodes, with `Request` nil | An unusable review answered 400, like the other request errors | medium; not executed | Handler.MutateObjectAsWritten | Handler.MutateObject, Handler.HandleMutate |

/**
 * The object view the webhook decodes an admitted object into, and the two
 * assemblers of the outbound AdmissionReview (utils.go).
 */
module Utils {
  import opened Wrappers
  import opened JsonPatch

  /**
   * The part of `metav1.ObjectMeta` the webhook looks at. `None` is a map
   * that is absent or `null` in the JSON (Go `nil`); `Some(map[])` is a map
   * that is present but empty. The two are distinct states.
   */
  datatype ObjectMeta = ObjectMeta(
    labels: Option<map<string, string>>,
    annotations: Option<map<string, string>>)

  /** `GenericK8sObjectTemplate`: the pod template's metadata. */
  datatype Template = Template(metadata: ObjectMeta)

  /** `GenericK8sObjectSpec`: only `spec.template` is read. */
  datatype Spec = Spec(template: Template)

  /**
   * `GenericK8sObject`: any Kubernetes object seen through its metadata and,
   * for workload controllers, its pod template's metadata.
   */
  datatype GenericK8sObject = GenericK8sObject(metadata: ObjectMeta, spec: Spec)

  /** The group/version/kind of an AdmissionReview envelope. */
  datatype GroupVersionKind = GroupVersionKind(group: string, version: string, kind: string)

  /** `admissionv1.PatchType`; the webhook only ever uses JSONPatch. */
  datatype PatchType = JSONPatch

  /**
   * The fields of `admissionv1.AdmissionRequest` the webhook uses. `rawObject`
   * is the outcome of unmarshalling `Object.Raw` into a GenericK8sObject:
   * `None` when the bytes do not unmarshal.
   */
  datatype AdmissionRequest = AdmissionRequest(
    uid: string,
    resource: string,
    username: string,
    rawObject: Option<GenericK8sObject>)

  /**
   * `admissionv1.AdmissionResponse`. `patch` stands for the JSON array of
   * operations that the `Patch` bytes encode; `None` is a nil `Patch`, and a
   * `None` patchType is a nil `PatchType` pointer.
   */
  datatype AdmissionResponse = AdmissionResponse(
    uid: string,
    allowed: bool,
    patch: Option<seq<PatchOp>>,
    patchType: Option<PatchType>)

  /** `admissionv1.AdmissionReview`: the envelope for both directions. */
  datatype AdmissionReview = AdmissionReview(
    gvk: GroupVersionKind,
    request: Option<AdmissionRequest>,
    response: Option<AdmissionResponse>)

  /**
   * What the API server needs of a reply to `inbound`: a review carrying a
   * response and no request, with the inbound group/version/kind, the
   * inbound request's UID, and `allowed` set.
   */
  predicate AnswersReview(inbound: AdmissionReview, reply: AdmissionReview)
    requires inbound.request.Some?
  {
    && reply.request.None?
    && reply.response.Some?
    && reply.response.value.allowed
    && reply.response.value.uid == inbound.request.value.uid
    && reply.gvk == inbound.gvk
  }

  /** The patch a reply carries, if it carries one with the JSONPatch type. */
  function PatchOf(reply: AdmissionReview): (r: Option<seq<PatchOp>>) {
    match reply.response
    case Some(AdmissionResponse(_, _, Some(p), Some(JSONPatch))) => Some(p)
    case _ => None
  }

  /**
   * `passingAdmissionReviewResponse`: allow the object unchanged. The source
   * dereferences the inbound request, so it must be present.
   */
  function PassingAdmissionReviewResponse(inbound: AdmissionReview): (reply: AdmissionReview)
    requires inbound.request.Some?
    ensures AnswersReview(inbound, reply)
    ensures reply.response.value.patch.None? && reply.response.value.patchType.None?
    ensures PatchOf(reply).None?
  {
    var response := AdmissionResponse(inbound.request.value.uid, true, None, None);
    AdmissionReview(inbound.gvk, None, Some(response))
  }

  /** `patchingAdmissionReviewResponse`: allow the object with `patch` applied. */
  function PatchingAdmissionReviewResponse(inbound: AdmissionReview, patch: seq<PatchOp>): (reply: AdmissionReview)
    requires inbound.request.Some?
    ensures AnswersReview(inbound, reply)
    ensures reply.response.value.patchType == Some(JSONPatch)
    ensures PatchOf(reply) == Some(patch)
  {
    var response := AdmissionResponse(inbound.request.value.uid, true, Some(patch), Some(JSONPatch));
    AdmissionReview(inbound.gvk, None, Some(response))
  }

  /**
   * The two replies to the same review differ only in the patch and its
   * type; every other field is the same.
   */
  lemma PatchingDiffersFromPassingOnlyInPatch(inbound: AdmissionReview, patch: seq<PatchOp>)
    requires inbound.request.Some?
    ensures
      var passing := PassingAdmissionReviewResponse(inbound);
      var patching := PatchingAdmissionReviewResponse(inbound, patch);
      && patching.(response := passing.response) == passing
      && patching.response.value.(patch := None, patchType := None) == passing.response.value
  {
  }
}

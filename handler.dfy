/**
 * The decision logic of the `/mutate` handler (main.go): the content-type
 * gate of `admissionReviewFromRequest`, the bypass for system users, and the
 * outcome `mutateObject` produces on each branch.
 */
module Handler {
  import opened Wrappers
  import opened JsonPatch
  import opened Utils
  import opened Patcher
  import opened Document
  import PatcherProofs

  /** The only Content-Type the handler accepts, compared byte for byte. */
  const JsonContentType: string := "application/json"

  /** The substring that marks a username as a system user. */
  const SystemMarker: string := "system"

  /**
   * An inbound HTTP request as the handler sees it: its `Content-Type`
   * header, and the AdmissionReview its body decodes into, or `None` when
   * reading the body or decoding it fails.
   */
  datatype HttpRequest = HttpRequest(contentType: string, decoded: Option<AdmissionReview>)

  /**
   * What `mutateObject` does with a request: write an error status, write a
   * review, or panic on a nil dereference.
   */
  datatype Outcome = Status(code: int) | Respond(review: AdmissionReview) | Panic

  /**
   * `admissionReviewFromRequest`: the decoded review, provided the
   * Content-Type is exactly `application/json` and the body decodes.
   */
  function AdmissionReviewFromRequest(r: HttpRequest): (res: Result<AdmissionReview>)
    ensures res.Ok? <==> r.contentType == JsonContentType && r.decoded.Some?
    ensures res.Ok? ==> res.value == r.decoded.value
  {
    if r.contentType != JsonContentType then Err("expected application/json content-type")
    else
      match r.decoded
      case None => Err("the body does not decode into an AdmissionReview")
      case Some(review) => Ok(review)
  }

  /** `sub` occurs in `s` starting at index `i`. */
  predicate OccursAt(s: string, sub: string, i: int) {
    0 <= i && i + |sub| <= |s| && s[i..i + |sub|] == sub
  }

  /**
   * Past a first character where `sub` does not start, `s` contains `sub`
   * exactly when its tail does.
   */
  lemma OccursInTail(s: string, sub: string)
    requires |s| > 0 && !OccursAt(s, sub, 0)
    ensures (exists j :: OccursAt(s[1..], sub, j)) <==> (exists i :: OccursAt(s, sub, i))
  {
    if j :| OccursAt(s[1..], sub, j) {
      assert s[1..][j..j + |sub|] == s[j + 1..j + 1 + |sub|];
      assert OccursAt(s, sub, j + 1);
    }
    if i :| OccursAt(s, sub, i) {
      assert s[1..][i - 1..i - 1 + |sub|] == s[i..i + |sub|];
      assert OccursAt(s[1..], sub, i - 1);
    }
  }

  /** `strings.Contains(s, sub)`: `sub` occurs somewhere in `s`, case-sensitively. */
  function Contains(s: string, sub: string): (r: bool)
    ensures r <==> exists i :: OccursAt(s, sub, i)
    decreases |s|
  {
    if |s| < |sub| then false
    else if s[..|sub|] == sub then assert OccursAt(s, sub, 0); true
    else
      assert !OccursAt(s, sub, 0);
      OccursInTail(s, sub);
      Contains(s[1..], sub)
  }

  /** An occurrence survives any text placed around it. */
  lemma ContainsInContext(pre: string, s: string, post: string, sub: string)
    requires Contains(s, sub)
    ensures Contains(pre + s + post, sub)
  {
    var i :| OccursAt(s, sub, i);
    var t := pre + s + post;
    assert t[|pre| + i..|pre| + i + |sub|] == s[i..i + |sub|];
    assert OccursAt(t, sub, |pre| + i);
  }

  /** The bypass test of main.go: the username contains `system` anywhere. */
  predicate IsSystemUser(username: string) {
    Contains(username, SystemMarker)
  }

  /** The request passes the gate and decodes into a review that carries a request. */
  predicate HasRequest(r: HttpRequest) {
    AdmissionReviewFromRequest(r).Ok? && r.decoded.value.request.Some?
  }

  /** The decoded review's request. */
  function Req(r: HttpRequest): (res: AdmissionRequest)
    requires HasRequest(r)
  {
    r.decoded.value.request.value
  }

  /**
   * The part of `mutateObject` after a review with a request is in hand:
   * the passing response for a system user; otherwise 500 when the raw
   * object does not unmarshal, and the patching response with the builder's
   * patch when it does. The builder's error is discarded.
   */
  function Dispatch(review: AdmissionReview, ord: Orders): (out: Outcome)
    requires review.request.Some?
    requires ValidOrders(ord, DefaultConfig)
  {
    var req := review.request.value;
    if IsSystemUser(req.username) then Respond(PassingAdmissionReviewResponse(review))
    else
      match req.rawObject
      case None => Status(500)
      case Some(obj) => Respond(PatchingAdmissionReviewResponse(review, Build(obj, DefaultConfig, ord)))
  }

  /**
   * `mutateObject` as written: a review that decodes without a `request`
   * reaches the log line that reads `Request.Resource`, a nil dereference.
   * `ord` is the order the builder's loops visit the configured maps.
   */
  function MutateObjectAsWritten(r: HttpRequest, ord: Orders): (out: Outcome)
    requires ValidOrders(ord, DefaultConfig)
    ensures out == Panic <==> AdmissionReviewFromRequest(r).Ok? && r.decoded.value.request.None?
    ensures out != Panic ==> out == MutateObject(r, ord)
  {
    match AdmissionReviewFromRequest(r)
    case Err(_) => Status(400)
    case Ok(review) =>
      if review.request.None? then Panic
      else Dispatch(review, ord)
  }

  /**
   * `mutateObject` with a review lacking its request answered 400 like any
   * other unusable request. Every outcome is 400, 500 or a review that
   * answers the inbound one; a system user gets the passing response and
   * anyone else the patching response with exactly the builder's patch.
   */
  function MutateObject(r: HttpRequest, ord: Orders): (out: Outcome)
    requires ValidOrders(ord, DefaultConfig)
    ensures out != Panic
    ensures out == Status(400) <==> !HasRequest(r)
    ensures out == Status(500) <==> HasRequest(r) && !IsSystemUser(Req(r).username) && Req(r).rawObject.None?
    ensures out.Status? ==> out.code == 400 || out.code == 500
    ensures out.Respond? ==> HasRequest(r) && AnswersReview(r.decoded.value, out.review)
    ensures out.Respond? ==> (PatchOf(out.review).None? <==> IsSystemUser(Req(r).username))
    ensures HasRequest(r) && IsSystemUser(Req(r).username) ==>
      out == Respond(PassingAdmissionReviewResponse(r.decoded.value))
    ensures out.Respond? && !IsSystemUser(Req(r).username) ==>
      && Req(r).rawObject.Some?
      && PatchOf(out.review) == Some(Build(Req(r).rawObject.value, DefaultConfig, ord))
  {
    match AdmissionReviewFromRequest(r)
    case Err(_) => Status(400)
    case Ok(review) =>
      if review.request.None? then Status(400)
      else Dispatch(review, ord)
  }

  /** Orders in which Go may visit the hard-coded maps. */
  lemma DefaultOrders()
    ensures ValidOrders(Orders(["sea", "land", "air"], ["address"], ["sea", "land", "air"], ["address"]), DefaultConfig)
  {
    var labels := ["sea", "land", "air"];
    assert DefaultConfig.labels.Keys == {"sea", "land", "air"};
    assert forall k :: k in labels <==> k == "sea" || k == "land" || k == "air";
  }

  /**
   * `mutateObject` step by step, calling the patch builder on the
   * non-bypass branch. `ord` is the order its loops took, or any valid
   * order when the builder is not called. Whatever that order, the
   * outcome is never a panic, is 400 exactly for an unusable request, 500
   * exactly for a non-system user's object that does not unmarshal, and a
   * reply to the inbound review otherwise.
   */
  method HandleMutate(r: HttpRequest) returns (out: Outcome, ghost ord: Orders)
    ensures ValidOrders(ord, DefaultConfig)
    ensures out == MutateObject(r, ord)
    ensures out != Panic
    ensures out == Status(400) <==> !HasRequest(r)
    ensures out == Status(500) <==> HasRequest(r) && !IsSystemUser(Req(r).username) && Req(r).rawObject.None?
    ensures out.Respond? ==> HasRequest(r) && AnswersReview(r.decoded.value, out.review)
    ensures HasRequest(r) && IsSystemUser(Req(r).username) ==>
      out == Respond(PassingAdmissionReviewResponse(r.decoded.value))
  {
    DefaultOrders();
    ord := Orders(["sea", "land", "air"], ["address"], ["sea", "land", "air"], ["address"]);
    var parsed := AdmissionReviewFromRequest(r);
    if parsed.Err? {
      return Status(400), ord;
    }
    var review := parsed.value;
    if review.request.None? {
      return Status(400), ord;
    }
    var req := review.request.value;
    if IsSystemUser(req.username) {
      out := Respond(PassingAdmissionReviewResponse(review));
      return;
    }
    if req.rawObject.None? {
      return Status(500), ord;
    }
    var patch;
    patch, ord := PatchBuilder(req.rawObject.value, DefaultConfig);
    out := Respond(PatchingAdmissionReviewResponse(review, patch));
  }

  /** Whether a request bypasses the patch does not depend on its raw object. */
  lemma BypassIgnoresObject(r: HttpRequest, raw: Option<GenericK8sObject>, ord: Orders)
    requires ValidOrders(ord, DefaultConfig)
    requires HasRequest(r) && IsSystemUser(Req(r).username)
    ensures
      var review := r.decoded.value;
      var r' := r.(decoded := Some(review.(request := Some(Req(r).(rawObject := raw)))));
      MutateObject(r', ord) == MutateObject(r, ord)
  {
    var review := r.decoded.value;
    var r' := r.(decoded := Some(review.(request := Some(Req(r).(rawObject := raw)))));
    assert HasRequest(r') && Req(r').username == Req(r).username;
    assert PassingAdmissionReviewResponse(r'.decoded.value) == PassingAdmissionReviewResponse(review);
  }

  /**
   * Every username with `system` in it is bypassed, wherever it appears:
   * `systemov`, `kube-system`.
   */
  lemma SystemAnywhereBypasses(pre: string, post: string)
    ensures IsSystemUser(pre + SystemMarker + post)
    ensures IsSystemUser("systemov")
    ensures IsSystemUser("kube-system")
  {
    assert OccursAt(SystemMarker, SystemMarker, 0);
    ContainsInContext(pre, SystemMarker, post, SystemMarker);
    assert OccursAt("systemov", SystemMarker, 0);
    assert "kube-system"[5..11] == SystemMarker;
    assert OccursAt("kube-system", SystemMarker, 5);
  }

  /** The bypass match is case-sensitive: `SYSTEM` is not a system user. */
  lemma BypassIsCaseSensitive()
    ensures !IsSystemUser("SYSTEM")
  {
    var u := "SYSTEM";
    forall i | 0 <= i && i + |SystemMarker| <= |u|
      ensures !OccursAt(u, SystemMarker, i)
    {
      assert u[i..i + 6][0] == 'S' != SystemMarker[0];
    }
  }

  /** The Content-Type must be `application/json` exactly; a media type with parameters is refused. */
  lemma ContentTypeIsExact(r: HttpRequest, ord: Orders)
    requires ValidOrders(ord, DefaultConfig)
    requires r.contentType == "application/json; charset=utf-8"
    ensures MutateObject(r, ord) == Status(400)
  {
    assert r.contentType[16] == ';';
  }

  /**
   * The patch in a patching response, applied to the admitted object under
   * section 4.1 of RFC 6902, injects every configured label and annotation;
   * it fails exactly when the object has pod-template labels but no
   * `spec.selector.matchLabels`, which the patch writes into without
   * creating.
   */
  lemma ResponsePatchApplies(r: HttpRequest, ord: Orders, matchLabels: Option<map<string, string>>)
    requires ValidOrders(ord, DefaultConfig)
    requires MutateObject(r, ord).Respond? && !IsSystemUser(Req(r).username)
    ensures
      var obj := Req(r).rawObject.value;
      var d := Doc(obj, matchLabels);
      var p := PatchOf(MutateObject(r, ord).review).value;
      && Apply(d, p) == PatcherProofs.Effect(obj, d, DefaultConfig)
      && (Apply(d, p).Some? <==> !(obj.spec.template.metadata.labels.Some? && matchLabels.None?))
  {
    var obj := Req(r).rawObject.value;
    var d := Doc(obj, matchLabels);
    PatcherProofs.DefaultConfigPlain();
    PatcherProofs.ApplyBuild(obj, d, DefaultConfig, ord);
    PatcherProofs.ApplySucceeds(d, DefaultConfig, ord);
    assert "sea" in DefaultConfig.labels;
  }

  /**
   * A review that decodes but carries no `request` (the body
   * `{"apiVersion":"admission.k8s.io/v1","kind":"AdmissionReview"}`): the
   * handler as written panics, the corrected one answers 400.
   */
  lemma MissingRequestPanics(gvk: GroupVersionKind, ord: Orders)
    requires ValidOrders(ord, DefaultConfig)
    ensures
      var r := HttpRequest(JsonContentType, Some(AdmissionReview(gvk, None, None)));
      && MutateObjectAsWritten(r, ord) == Panic
      && MutateObject(r, ord) == Status(400)
  {
  }
}

/**
 * What the patch built by patcher.go guarantees: its shape (only `add`,
 * absent maps created before their members are written, one operation per
 * configured key, template/selector pairs, its length) and its effect when
 * applied under section 4.1 of RFC 6902 (nothing pre-existing is lost,
 * applying twice is applying once, the iteration order does not matter).
 */
module PatcherProofs {
  import opened Wrappers
  import opened JsonPatch
  import opened Utils
  import opened Document
  import opened Patcher

  /** The path of the map at `loc`, as the source spells it. */
  function WholePath(loc: Loc): (r: string) {
    match loc
    case Labels => LabelsPath
    case Annotations => AnnotationsPath
    case TemplateLabels => "/spec/template/metadata/labels"
    case TemplateAnnotations => TemplateAnnotationsPath
    case MatchLabels => "/spec/selector/matchLabels"
  }

  /** The prefix the source puts before a key of the map at `loc`. */
  function KeyPrefix(loc: Loc): (r: string) {
    match loc
    case Labels => LabelPrefix
    case Annotations => AnnotationPrefix
    case TemplateLabels => TemplateLabelPrefix
    case TemplateAnnotations => TemplateAnnotationPrefix
    case MatchLabels => MatchLabelPrefix
  }

  /** Every configured key can be written into a pointer as it is. */
  predicate PlainKeys(cfg: Config) {
    && (forall k :: k in cfg.labels ==> PlainToken(k))
    && (forall k :: k in cfg.annotations ==> PlainToken(k))
  }

  lemma DefaultConfigPlain()
    ensures PlainKeys(DefaultConfig)
  {
    var c := DefaultConfig;
    assert c.labels.Keys == {"sea", "land", "air"};
    assert c.annotations.Keys == {"address"};
  }

  /** The op addresses the map at `loc` as a whole. */
  predicate CreatesMap(op: PatchOp, loc: Loc) {
    Resolve(op.path) == Some(Whole(loc))
  }

  /** The op addresses the member `key` of the map at `loc`. */
  predicate SetsKey(op: PatchOp, loc: Loc, key: string) {
    Resolve(op.path) == Some(Member(loc, key))
  }

  /** The op addresses some member of the map at `loc`. */
  predicate WritesInto(op: PatchOp, loc: Loc) {
    match Resolve(op.path)
    case Some(Member(l, _)) => l == loc
    case _ => false
  }

  lemma {:induction false} PointerSnoc(ts: seq<string>, k: string)
    ensures Pointer(ts + [k]) == Pointer(ts) + "/" + k
  {
    if ts == [] {
      assert [k][1..] == [];
    } else {
      assert (ts + [k])[1..] == ts[1..] + [k];
      PointerSnoc(ts[1..], k);
    }
  }

  lemma PointerCons(t: string, ts: seq<string>)
    ensures Pointer([t] + ts) == ("/" + t) + Pointer(ts)
  {
    assert ([t] + ts)[1..] == ts;
  }

  lemma PointerSingle(t: string)
    ensures Pointer([t]) == "/" + t
  {
    PointerCons(t, []);
    assert [t] + [] == [t];
  }

  lemma Pointer2(a: string, b: string)
    ensures Pointer([a, b]) == ("/" + a) + ("/" + b)
  {
    PointerCons(a, [b]);
    assert [a] + [b] == [a, b];
    PointerSingle(b);
  }

  lemma Pointer3(a: string, b: string, c: string)
    ensures Pointer([a, b, c]) == ("/" + a) + (("/" + b) + ("/" + c))
  {
    PointerCons(a, [b, c]);
    assert [a] + [b, c] == [a, b, c];
    Pointer2(b, c);
  }

  lemma Pointer4(a: string, b: string, c: string, d: string)
    ensures Pointer([a, b, c, d]) == ("/" + a) + (("/" + b) + (("/" + c) + ("/" + d)))
  {
    PointerCons(a, [b, c, d]);
    assert [a] + [b, c, d] == [a, b, c, d];
    Pointer3(b, c, d);
  }

  // The path literals, spelled out token by token.

  lemma LabelsLiteral()
    ensures LabelsPath == ("/" + "metadata") + ("/" + "labels")
    ensures LabelPrefix == LabelsPath + "/"
  {
  }

  lemma AnnotationsLiteral()
    ensures AnnotationsPath == ("/" + "metadata") + ("/" + "annotations")
    ensures AnnotationPrefix == AnnotationsPath + "/"
  {
  }

  lemma TemplateLabelsLiteral()
    ensures WholePath(TemplateLabels) == ("/" + "spec") + (("/" + "template") + (("/" + "metadata") + ("/" + "labels")))
  {
  }

  lemma TemplateLabelsPrefixLiteral()
    ensures TemplateLabelPrefix == WholePath(TemplateLabels) + "/"
  {
  }

  lemma TemplateAnnotationsLiteral()
    ensures TemplateAnnotationsPath == ("/" + "spec") + (("/" + "template") + (("/" + "metadata") + ("/" + "annotations")))
  {
  }

  lemma TemplateAnnotationsPrefixLiteral()
    ensures TemplateAnnotationPrefix == TemplateAnnotationsPath + "/"
  {
  }

  lemma MatchLabelsLiteral()
    ensures WholePath(MatchLabels) == ("/" + "spec") + (("/" + "selector") + ("/" + "matchLabels"))
  {
  }

  lemma MatchLabelsPrefixLiteral()
    ensures MatchLabelPrefix == WholePath(MatchLabels) + "/"
  {
  }

  /** The source's path literals are the pointers to the five maps. */
  lemma PathsArePointers(loc: Loc)
    ensures WholePath(loc) == Pointer(LocTokens(loc))
    ensures KeyPrefix(loc) == WholePath(loc) + "/"
  {
    match loc
    case Labels => LabelsLiteral(); Pointer2("metadata", "labels");
    case Annotations => AnnotationsLiteral(); Pointer2("metadata", "annotations");
    case TemplateLabels => TemplateLabelsLiteral(); TemplateLabelsPrefixLiteral(); Pointer4("spec", "template", "metadata", "labels");
    case TemplateAnnotations => TemplateAnnotationsLiteral(); TemplateAnnotationsPrefixLiteral(); Pointer4("spec", "template", "metadata", "annotations");
    case MatchLabels => MatchLabelsLiteral(); MatchLabelsPrefixLiteral(); Pointer3("spec", "selector", "matchLabels");
  }

  lemma ResolveWholePath(loc: Loc)
    ensures Resolve(WholePath(loc)) == Some(Whole(loc))
  {
    PathsArePointers(loc);
    ResolveWhole(loc);
  }

  lemma ResolveKeyPath(loc: Loc, key: string)
    requires PlainToken(key)
    ensures Resolve(KeyPrefix(loc) + key) == Some(Member(loc, key))
  {
    PathsArePointers(loc);
    PointerSnoc(LocTokens(loc), key);
    assert KeyPrefix(loc) + key == Pointer(LocTokens(loc) + [key]);
    ResolveMember(loc, key);
  }

  /** The configured map whose entries are written into the map at `loc`. */
  function Source(cfg: Config, loc: Loc): (r: map<string, string>) {
    match loc
    case Labels => cfg.labels
    case TemplateLabels => cfg.labels
    case MatchLabels => cfg.labels
    case Annotations => cfg.annotations
    case TemplateAnnotations => cfg.annotations
  }

  /** The path the source writes for a target. */
  function PathOf(t: Target): (r: string) {
    match t
    case Whole(loc) => WholePath(loc)
    case Member(loc, key) => KeyPrefix(loc) + key
  }

  /**
   * The value the source writes for a target: `{}` for a map, the configured
   * value for a key (a key that is not configured is never written).
   */
  function ValueOf(cfg: Config, t: Target): (r: Value) {
    match t
    case Whole(_) => EmptyObject
    case Member(loc, key) => if key in Source(cfg, loc) then Str(Source(cfg, loc)[key]) else Str("")
  }

  /** Reading back the path the source writes for a target gives that target. */
  lemma ResolvePathOf(t: Target)
    requires t.Member? ==> PlainToken(t.key)
    ensures Resolve(PathOf(t)) == Some(t)
  {
    match t
    case Whole(loc) => ResolveWholePath(loc);
    case Member(loc, key) => ResolveKeyPath(loc, key);
  }

  /** The operation the source emits for a target. */
  function OpFor(cfg: Config, t: Target): (r: PatchOp) {
    Add(PathOf(t), ValueOf(cfg, t))
  }

  /** The operations for a sequence of targets, one each, in order. */
  function Ops(cfg: Config, ts: seq<Target>): (r: seq<PatchOp>) {
    seq(|ts|, i requires 0 <= i < |ts| => OpFor(cfg, ts[i]))
  }

  lemma OpsAppend(cfg: Config, a: seq<Target>, b: seq<Target>)
    ensures Ops(cfg, a + b) == Ops(cfg, a) + Ops(cfg, b)
  {
  }

  /** `[Whole(loc)]` when the map is absent, nothing otherwise. */
  function Parent(m: Option<map<string, string>>, loc: Loc): (r: seq<Target>) {
    if m.None? then [Whole(loc)] else []
  }

  /** One member target per key of `order`. */
  function Members(loc: Loc, order: seq<string>): (r: seq<Target>) {
    seq(|order|, i requires 0 <= i < |order| => Member(loc, order[i]))
  }

  /** For each key of `order`, the pod-template label and then the selector label. */
  function Pairs(order: seq<string>): (r: seq<Target>) {
    seq(2 * |order|, i requires 0 <= i < 2 * |order| =>
      if i % 2 == 0 then Member(TemplateLabels, order[i / 2]) else Member(MatchLabels, order[i / 2]))
  }

  /** The targets of the metadata operations. */
  function MetaTargets(meta: ObjectMeta, ord: Orders): (r: seq<Target>) {
    Parent(meta.labels, Labels) + Parent(meta.annotations, Annotations)
    + Members(Labels, ord.labels) + Members(Annotations, ord.annotations)
  }

  /** The targets of the pod-template operations. */
  function TemplateTargets(tmpl: ObjectMeta, ord: Orders): (r: seq<Target>) {
    if tmpl.labels.None? then []
    else Pairs(ord.templateLabels) + Parent(tmpl.annotations, TemplateAnnotations) + Members(TemplateAnnotations, ord.templateAnnotations)
  }

  /** What each operation of the patch addresses, in order. */
  function Targets(obj: GenericK8sObject, ord: Orders): (r: seq<Target>) {
    MetaTargets(obj.metadata, ord) + TemplateTargets(obj.spec.template.metadata, ord)
  }

  lemma {:induction false} KeyOpsTargets(prefix: string, m: map<string, string>, cfg: Config, loc: Loc, order: seq<string>)
    requires prefix == KeyPrefix(loc) && m == Source(cfg, loc)
    requires forall k :: k in order ==> k in m
    ensures KeyOps(prefix, m, order) == Ops(cfg, Members(loc, order))
  {
    KeyOpsAt(prefix, m, order);
    var ts := Members(loc, order);
    var a := KeyOps(prefix, m, order);
    var b := Ops(cfg, ts);
    forall i | 0 <= i < |order|
      ensures a[i] == b[i]
    {
      assert b[i] == OpFor(cfg, Member(loc, order[i]));
    }
  }

  lemma {:induction false} PairOpsTargets(cfg: Config, order: seq<string>)
    requires forall k :: k in order ==> k in cfg.labels
    ensures PairOps(cfg.labels, order) == Ops(cfg, Pairs(order))
  {
    if order != [] {
      var init, k := order[..|order| - 1], order[|order| - 1];
      PairOpsTargets(cfg, init);
      PairsSnoc(order);
      OpsAppend(cfg, Pairs(init), [Member(TemplateLabels, k), Member(MatchLabels, k)]);
      assert KeyPrefix(TemplateLabels) == TemplateLabelPrefix;
      assert KeyPrefix(MatchLabels) == MatchLabelPrefix;
    }
  }

  lemma ParentTargets(m: Option<map<string, string>>, cfg: Config, loc: Loc, path: string)
    requires path == WholePath(loc)
    ensures CreateIfAbsent(m, path) == Ops(cfg, Parent(m, loc))
  {
  }

  /** The patch is the operations for `Targets`, one per target. */
  lemma BuildTargets(obj: GenericK8sObject, cfg: Config, ord: Orders)
    requires ValidOrders(ord, cfg)
    ensures Build(obj, cfg, ord) == Ops(cfg, Targets(obj, ord))
  {
    var meta := obj.metadata;
    var tmpl := obj.spec.template.metadata;
    var pl, pa := Parent(meta.labels, Labels), Parent(meta.annotations, Annotations);
    var ml, ma := Members(Labels, ord.labels), Members(Annotations, ord.annotations);
    ParentTargets(meta.labels, cfg, Labels, LabelsPath);
    ParentTargets(meta.annotations, cfg, Annotations, AnnotationsPath);
    KeyOpsTargets(LabelPrefix, cfg.labels, cfg, Labels, ord.labels);
    KeyOpsTargets(AnnotationPrefix, cfg.annotations, cfg, Annotations, ord.annotations);
    OpsAppend(cfg, pl, pa);
    OpsAppend(cfg, pl + pa, ml);
    OpsAppend(cfg, pl + pa + ml, ma);
    var mt := MetaTargets(meta, ord);
    assert MetadataOps(meta, cfg, ord.labels, ord.annotations) == Ops(cfg, mt);
    var tt := TemplateTargets(tmpl, ord);
    if tmpl.labels.Some? {
      var pairs := Pairs(ord.templateLabels);
      var pt := Parent(tmpl.annotations, TemplateAnnotations);
      var kt := Members(TemplateAnnotations, ord.templateAnnotations);
      PairOpsTargets(cfg, ord.templateLabels);
      ParentTargets(tmpl.annotations, cfg, TemplateAnnotations, TemplateAnnotationsPath);
      KeyOpsTargets(TemplateAnnotationPrefix, cfg.annotations, cfg, TemplateAnnotations, ord.templateAnnotations);
      OpsAppend(cfg, pairs, pt);
      OpsAppend(cfg, pairs + pt, kt);
      assert TemplateOps(tmpl, cfg, ord.templateLabels, ord.templateAnnotations) == Ops(cfg, tt);
    } else {
      assert tt == [];
    }
    OpsAppend(cfg, mt, tt);
  }

  /** The number of targets for the given loop orders, segment by segment. */
  function TargetCount(obj: GenericK8sObject, ord: Orders): (r: nat) {
    var meta := obj.metadata;
    var tmpl := obj.spec.template.metadata;
    Count(meta.labels) + Count(meta.annotations) + |ord.labels| + |ord.annotations|
    + (if tmpl.labels.Some? then 2 * |ord.templateLabels| + Count(tmpl.annotations) + |ord.templateAnnotations| else 0)
  }

  /**
   * Target `i`, by position: the absent metadata maps, the label keys, the
   * annotation keys and, for a pod template, the label/selector pairs, the
   * template annotation map when absent and its keys.
   */
  function Layout(obj: GenericK8sObject, ord: Orders, i: nat): (r: Target)
    requires i < TargetCount(obj, ord)
  {
    var meta := obj.metadata;
    var tmpl := obj.spec.template.metadata;
    var h := Count(meta.labels) + Count(meta.annotations);
    var a := h + |ord.labels|;
    var m := a + |ord.annotations|;
    if i < Count(meta.labels) then Whole(Labels)
    else if i < h then Whole(Annotations)
    else if i < a then Member(Labels, ord.labels[i - h])
    else if i < m then Member(Annotations, ord.annotations[i - a])
    else
      var r := i - m;
      var n := 2 * |ord.templateLabels|;
      if r < n then
        (if r % 2 == 0 then Member(TemplateLabels, ord.templateLabels[r / 2])
         else Member(MatchLabels, ord.templateLabels[r / 2]))
      else if r < n + Count(tmpl.annotations) then Whole(TemplateAnnotations)
      else Member(TemplateAnnotations, ord.templateAnnotations[r - n - Count(tmpl.annotations)])
  }

  lemma MetaTargetsAt(obj: GenericK8sObject, ord: Orders, i: nat)
    requires i < |MetaTargets(obj.metadata, ord)|
    ensures |MetaTargets(obj.metadata, ord)| == Count(obj.metadata.labels) + Count(obj.metadata.annotations) + |ord.labels| + |ord.annotations|
    ensures i < TargetCount(obj, ord)
    ensures MetaTargets(obj.metadata, ord)[i] == Layout(obj, ord, i)
  {
    var meta := obj.metadata;
    var mt := MetaTargets(meta, ord);
    var parents := Parent(meta.labels, Labels) + Parent(meta.annotations, Annotations);
    var ml, ma := Members(Labels, ord.labels), Members(Annotations, ord.annotations);
    assert mt == parents + ml + ma;
    var h := |parents|;
    if i < h {
      assert mt[i] == parents[i];
    } else if i < h + |ord.labels| {
      assert mt[i] == ml[i - h];
    } else {
      assert mt[i] == ma[i - h - |ord.labels|];
    }
  }

  lemma TemplateTargetsAt(obj: GenericK8sObject, ord: Orders, r: nat)
    requires r < |TemplateTargets(obj.spec.template.metadata, ord)|
    ensures obj.spec.template.metadata.labels.Some?
    ensures |TemplateTargets(obj.spec.template.metadata, ord)|
      == 2 * |ord.templateLabels| + Count(obj.spec.template.metadata.annotations) + |ord.templateAnnotations|
    ensures |MetaTargets(obj.metadata, ord)| + r < TargetCount(obj, ord)
    ensures TemplateTargets(obj.spec.template.metadata, ord)[r] == Layout(obj, ord, |MetaTargets(obj.metadata, ord)| + r)
  {
    var tmpl := obj.spec.template.metadata;
    var tt := TemplateTargets(tmpl, ord);
    var pairs := Pairs(ord.templateLabels);
    var pt := Parent(tmpl.annotations, TemplateAnnotations);
    var kt := Members(TemplateAnnotations, ord.templateAnnotations);
    assert tt == pairs + pt + kt;
    if |MetaTargets(obj.metadata, ord)| > 0 {
      MetaTargetsAt(obj, ord, 0);
    }
    if r < |pairs| {
      assert tt[r] == pairs[r];
    } else if r < |pairs| + |pt| {
      assert tt[r] == pt[r - |pairs|];
    } else {
      assert tt[r] == kt[r - |pairs| - |pt|];
    }
  }

  lemma TargetsAt(obj: GenericK8sObject, ord: Orders, i: nat)
    requires i < TargetCount(obj, ord)
    ensures |Targets(obj, ord)| == TargetCount(obj, ord)
    ensures Targets(obj, ord)[i] == Layout(obj, ord, i)
  {
    var mt := MetaTargets(obj.metadata, ord);
    var tt := TemplateTargets(obj.spec.template.metadata, ord);
    if |mt| > 0 {
      MetaTargetsAt(obj, ord, 0);
    }
    if |tt| > 0 {
      TemplateTargetsAt(obj, ord, 0);
    }
    if i < |mt| {
      MetaTargetsAt(obj, ord, i);
      assert Targets(obj, ord)[i] == mt[i];
    } else {
      TemplateTargetsAt(obj, ord, i - |mt|);
      assert Targets(obj, ord)[i] == tt[i - |mt|];
    }
  }

  /** The object's own label and annotation maps, as opposed to the pod template's and the selector's. */
  predicate IsMetadata(loc: Loc) {
    loc == Labels || loc == Annotations
  }

  /** Whether the source writes into the map at `loc` of `obj` at all. */
  predicate Patched(obj: GenericK8sObject, loc: Loc) {
    IsMetadata(loc) || obj.spec.template.metadata.labels.Some?
  }

  /** The key segments address members only. */
  lemma NoWholeAmongKeys(loc: Loc, order: seq<string>, whole: Loc)
    ensures Whole(whole) !in Members(loc, order)
    ensures Whole(whole) !in Pairs(order)
  {
    var ms, ps := Members(loc, order), Pairs(order);
    assert forall i :: 0 <= i < |ms| ==> ms[i].Member?;
    assert forall i :: 0 <= i < |ps| ==> ps[i].Member?;
  }

  /** The map at `loc` is created exactly when the source finds it absent. */
  lemma TargetParents(obj: GenericK8sObject, ord: Orders)
    ensures var ts := Targets(obj, ord);
      && ((exists i :: 0 <= i < |ts| && ts[i] == Whole(Labels)) <==> obj.metadata.labels.None?)
      && ((exists i :: 0 <= i < |ts| && ts[i] == Whole(Annotations)) <==> obj.metadata.annotations.None?)
      && ((exists i :: 0 <= i < |ts| && ts[i] == Whole(TemplateAnnotations))
          <==> obj.spec.template.metadata.labels.Some? && obj.spec.template.metadata.annotations.None?)
      && (forall i :: 0 <= i < |ts| && ts[i].Whole? ==> ts[i].loc != TemplateLabels && ts[i].loc != MatchLabels)
  {
    var ts := Targets(obj, ord);
    forall loc
      ensures Whole(loc) in ts <==> WholeExpected(obj, loc)
    {
      WholeInTargets(obj, ord, loc);
    }
    forall i | 0 <= i < |ts| && ts[i].Whole?
      ensures ts[i].loc != TemplateLabels && ts[i].loc != MatchLabels
    {
      assert ts[i] == Whole(ts[i].loc);
    }
  }

  /** The maps the source creates: those it patches and finds absent, apart from the two it never creates. */
  predicate WholeExpected(obj: GenericK8sObject, loc: Loc) {
    match loc
    case Labels => obj.metadata.labels.None?
    case Annotations => obj.metadata.annotations.None?
    case TemplateAnnotations => obj.spec.template.metadata.labels.Some? && obj.spec.template.metadata.annotations.None?
    case TemplateLabels => false
    case MatchLabels => false
  }

  lemma WholeInTargets(obj: GenericK8sObject, ord: Orders, loc: Loc)
    ensures Whole(loc) in Targets(obj, ord) <==> WholeExpected(obj, loc)
  {
    var meta, tmpl := obj.metadata, obj.spec.template.metadata;
    NoWholeAmongKeys(Labels, ord.labels, loc);
    NoWholeAmongKeys(Annotations, ord.annotations, loc);
    NoWholeAmongKeys(TemplateAnnotations, ord.templateAnnotations, loc);
    NoWholeAmongKeys(Labels, ord.templateLabels, loc);
    assert Whole(loc) in MetaTargets(meta, ord)
      <==> Whole(loc) in Parent(meta.labels, Labels) || Whole(loc) in Parent(meta.annotations, Annotations);
    if tmpl.labels.Some? {
      assert Whole(loc) in TemplateTargets(tmpl, ord) <==> Whole(loc) in Parent(tmpl.annotations, TemplateAnnotations);
    }
  }

  /**
   * A created map comes before every write into it, and the object's own
   * maps are created before any key is written anywhere.
   */
  lemma TargetParentsFirst(obj: GenericK8sObject, ord: Orders)
    ensures var ts := Targets(obj, ord);
      forall i, j ::
        (0 <= i < |ts| && 0 <= j < |ts| && ts[i].Whole? && ts[j].Member? && (IsMetadata(ts[i].loc) || ts[i].loc == ts[j].loc))
        ==> i < j
  {
    var ts := Targets(obj, ord);
    forall i, j | 0 <= i < |ts| && 0 <= j < |ts| && ts[i].Whole? && ts[j].Member?
      && (IsMetadata(ts[i].loc) || ts[i].loc == ts[j].loc)
      ensures i < j
    {
      TargetsAt(obj, ord, i);
      TargetsAt(obj, ord, j);
    }
  }

  /** Target `j` lies in the metadata part, in the label/selector pairs, or among the template annotation targets. */
  lemma Regions(obj: GenericK8sObject, ord: Orders, j: nat)
    requires j < |Targets(obj, ord)|
    ensures var m := |MetaTargets(obj.metadata, ord)|;
      var np := if obj.spec.template.metadata.labels.Some? then 2 * |ord.templateLabels| else 0;
      var ts := Targets(obj, ord);
      && (j < m ==> IsMetadata(ts[j].loc))
      && (m <= j < m + np ==> ts[j] == Pairs(ord.templateLabels)[j - m])
      && (m + np <= j ==> ts[j].loc == TemplateAnnotations)
  {
    var mt := MetaTargets(obj.metadata, ord);
    var tt := TemplateTargets(obj.spec.template.metadata, ord);
    var m := |mt|;
    if j < m {
      MetaTargetsAt(obj, ord, j);
      assert Targets(obj, ord)[j] == mt[j];
    } else {
      TemplateTargetsAt(obj, ord, j - m);
      assert Targets(obj, ord)[j] == tt[j - m];
      var pairs := Pairs(ord.templateLabels);
      var pt := Parent(obj.spec.template.metadata.annotations, TemplateAnnotations);
      var kt := Members(TemplateAnnotations, ord.templateAnnotations);
      assert tt == pairs + pt + kt;
      var r := j - m;
      if r < |pairs| {
        assert tt[r] == pairs[r];
      } else if r < |pairs| + |pt| {
        assert tt[r] == pt[r - |pairs|];
      } else {
        assert tt[r] == kt[r - |pairs| - |pt|];
      }
    }
  }

  lemma PairFollows(obj: GenericK8sObject, ord: Orders, i: nat)
    requires i < |Targets(obj, ord)|
    requires Targets(obj, ord)[i].Member? && Targets(obj, ord)[i].loc == TemplateLabels
    ensures i + 1 < |Targets(obj, ord)|
    ensures Targets(obj, ord)[i + 1] == Member(MatchLabels, Targets(obj, ord)[i].key)
  {
    Regions(obj, ord, i);
    var m := |MetaTargets(obj.metadata, ord)|;
    var o := ord.templateLabels;
    var r := i - m;
    var x := r / 2;
    assert Pairs(o)[r] == Member(TemplateLabels, o[x]);
    assert r % 2 == 0;
    assert r + 1 < 2 * |o| && (r + 1) / 2 == x && (r + 1) % 2 == 1;
    assert Pairs(o)[r + 1] == Member(MatchLabels, o[x]);
    Regions(obj, ord, i + 1);
  }

  lemma PairPrecedes(obj: GenericK8sObject, ord: Orders, j: nat)
    requires j < |Targets(obj, ord)|
    requires Targets(obj, ord)[j].Member? && Targets(obj, ord)[j].loc == MatchLabels
    ensures 0 < j
    ensures Targets(obj, ord)[j - 1] == Member(TemplateLabels, Targets(obj, ord)[j].key)
  {
    Regions(obj, ord, j);
    var m := |MetaTargets(obj.metadata, ord)|;
    var o := ord.templateLabels;
    var r := j - m;
    var x := r / 2;
    assert Pairs(o)[r] == Member(MatchLabels, o[x]);
    assert r % 2 == 1;
    assert 0 <= r - 1 && (r - 1) / 2 == x && (r - 1) % 2 == 0;
    assert Pairs(o)[r - 1] == Member(TemplateLabels, o[x]);
    Regions(obj, ord, j - 1);
  }

  /** Every pod-template label write is immediately followed by the selector write for the same key, and vice versa. */
  lemma TargetPairs(obj: GenericK8sObject, ord: Orders)
    ensures var ts := Targets(obj, ord);
      && (forall i :: 0 <= i < |ts| && ts[i].Member? && ts[i].loc == TemplateLabels ==>
            i + 1 < |ts| && ts[i + 1] == Member(MatchLabels, ts[i].key))
      && (forall j :: 0 <= j < |ts| && ts[j].Member? && ts[j].loc == MatchLabels ==>
            0 < j && ts[j - 1] == Member(TemplateLabels, ts[j].key))
  {
    var ts := Targets(obj, ord);
    forall i | 0 <= i < |ts| && ts[i].Member? && ts[i].loc == TemplateLabels
      ensures i + 1 < |ts| && ts[i + 1] == Member(MatchLabels, ts[i].key)
    {
      PairFollows(obj, ord, i);
    }
    forall j | 0 <= j < |ts| && ts[j].Member? && ts[j].loc == MatchLabels
      ensures 0 < j && ts[j - 1] == Member(TemplateLabels, ts[j].key)
    {
      PairPrecedes(obj, ord, j);
    }
  }

  /** Without pod-template labels only the object's own maps are touched. */
  lemma TargetsWithoutTemplate(obj: GenericK8sObject, ord: Orders)
    requires obj.spec.template.metadata.labels.None?
    ensures forall t :: t in Targets(obj, ord) ==> IsMetadata(t.loc)
  {
    var ts := Targets(obj, ord);
    forall t | t in ts
      ensures IsMetadata(t.loc)
    {
      var i :| 0 <= i < |ts| && ts[i] == t;
      TargetsAt(obj, ord, i);
    }
  }

  lemma InMembers(loc: Loc, order: seq<string>, t: Target)
    ensures t in Members(loc, order) <==> t.Member? && t.loc == loc && t.key in order
  {
    var ms := Members(loc, order);
    if t.Member? && t.loc == loc && t.key in order {
      var x :| 0 <= x < |order| && order[x] == t.key;
      assert ms[x] == t;
    }
  }

  lemma InPairs(order: seq<string>, t: Target)
    ensures t in Pairs(order) <==> t.Member? && (t.loc == TemplateLabels || t.loc == MatchLabels) && t.key in order
  {
    var ps := Pairs(order);
    if t in ps {
      var r :| 0 <= r < |ps| && ps[r] == t;
      assert order[r / 2] == t.key;
    }
    if t.Member? && (t.loc == TemplateLabels || t.loc == MatchLabels) && t.key in order {
      var x :| 0 <= x < |order| && order[x] == t.key;
      if t.loc == TemplateLabels {
        assert ps[2 * x] == t;
      } else {
        assert ps[2 * x + 1] == t;
      }
    }
  }

  /** A key is written into the map at `loc` exactly when it is configured for it and the source patches that map. */
  lemma TargetMembership(obj: GenericK8sObject, cfg: Config, ord: Orders, loc: Loc, key: string)
    requires ValidOrders(ord, cfg)
    ensures Member(loc, key) in Targets(obj, ord) <==> Patched(obj, loc) && key in Source(cfg, loc)
  {
    var t := Member(loc, key);
    var meta := obj.metadata;
    var tmpl := obj.spec.template.metadata;
    InMembers(Labels, ord.labels, t);
    InMembers(Annotations, ord.annotations, t);
    InMembers(TemplateAnnotations, ord.templateAnnotations, t);
    InPairs(ord.templateLabels, t);
    assert t !in Parent(meta.labels, Labels) && t !in Parent(meta.annotations, Annotations);
    assert t !in Parent(tmpl.annotations, TemplateAnnotations);
    assert t in Targets(obj, ord) <==> t in MetaTargets(meta, ord) || t in TemplateTargets(tmpl, ord);
  }

  /** No target names the same key of the same map twice. */
  predicate NoRepeatedMember(ts: seq<Target>) {
    forall i, j :: 0 <= i < j < |ts| && ts[i].Member? ==> ts[i] != ts[j]
  }

  lemma NoRepeatedMemberAppend(a: seq<Target>, b: seq<Target>)
    requires NoRepeatedMember(a) && NoRepeatedMember(b)
    requires forall t :: t in a && t.Member? ==> t !in b
    ensures NoRepeatedMember(a + b)
  {
    var ab := a + b;
    forall i, j | 0 <= i < j < |ab| && ab[i].Member?
      ensures ab[i] != ab[j]
    {
      if j < |a| {
        assert ab[i] == a[i] && ab[j] == a[j];
      } else if i < |a| {
        assert ab[i] == a[i] && ab[j] == b[j - |a|];
        assert ab[j] in b;
      } else {
        assert ab[i] == b[i - |a|] && ab[j] == b[j - |a|];
      }
    }
  }

  lemma PairsNoRepeat(order: seq<string>)
    requires Distinct(order)
    ensures NoRepeatedMember(Pairs(order))
  {
    var ps := Pairs(order);
    forall i, j | 0 <= i < j < |ps| && ps[i].Member?
      ensures ps[i] != ps[j]
    {
      if i / 2 == j / 2 {
        assert i % 2 != j % 2;
      } else {
        assert order[i / 2] != order[j / 2];
      }
    }
  }

  lemma TargetsNoRepeat(obj: GenericK8sObject, cfg: Config, ord: Orders)
    requires ValidOrders(ord, cfg)
    ensures NoRepeatedMember(Targets(obj, ord))
  {
    var meta := obj.metadata;
    var tmpl := obj.spec.template.metadata;
    var pl, pa := Parent(meta.labels, Labels), Parent(meta.annotations, Annotations);
    var ml, ma := Members(Labels, ord.labels), Members(Annotations, ord.annotations);
    forall t | t in ml ensures t.loc == Labels { InMembers(Labels, ord.labels, t); }
    forall t | t in ma ensures t.loc == Annotations { InMembers(Annotations, ord.annotations, t); }
    NoRepeatedMemberAppend(pl, pa);
    NoRepeatedMemberAppend(pl + pa, ml);
    NoRepeatedMemberAppend(pl + pa + ml, ma);
    var mt := MetaTargets(meta, ord);
    assert mt == pl + pa + ml + ma;
    var tt := TemplateTargets(tmpl, ord);
    if tmpl.labels.Some? {
      var pairs := Pairs(ord.templateLabels);
      var pt := Parent(tmpl.annotations, TemplateAnnotations);
      var kt := Members(TemplateAnnotations, ord.templateAnnotations);
      forall t | t in pairs ensures t.loc == TemplateLabels || t.loc == MatchLabels { InPairs(ord.templateLabels, t); }
      forall t | t in kt ensures t.loc == TemplateAnnotations { InMembers(TemplateAnnotations, ord.templateAnnotations, t); }
      PairsNoRepeat(ord.templateLabels);
      NoRepeatedMemberAppend(pairs, pt);
      NoRepeatedMemberAppend(pairs + pt, kt);
      assert tt == pairs + pt + kt;
      forall t | t in mt && t.Member? ensures t !in tt {
        assert IsMetadata(t.loc);
      }
    } else {
      assert tt == [];
    }
    NoRepeatedMemberAppend(mt, tt);
  }

  lemma TargetsLength(obj: GenericK8sObject, ord: Orders)
    ensures |Targets(obj, ord)| == TargetCount(obj, ord)
  {
    var meta := obj.metadata;
    var tmpl := obj.spec.template.metadata;
    assert |MetaTargets(meta, ord)| == Count(meta.labels) + Count(meta.annotations) + |ord.labels| + |ord.annotations|;
    if tmpl.labels.Some? {
      assert TemplateTargets(tmpl, ord) == Pairs(ord.templateLabels) + Parent(tmpl.annotations, TemplateAnnotations) + Members(TemplateAnnotations, ord.templateAnnotations);
    }
  }

  /**
   * `p` is the patch for targets `ts`: operation `i` is an `add` whose path
   * resolves to target `i` and whose value is the one configured for it.
   */
  predicate Realizes(p: seq<PatchOp>, cfg: Config, ts: seq<Target>) {
    && |p| == |ts|
    && (forall i :: 0 <= i < |p| ==>
          p[i].op == "add" && Resolve(p[i].path) == Some(ts[i]) && p[i].value == ValueOf(cfg, ts[i]))
  }

  lemma BuildOpAt(obj: GenericK8sObject, cfg: Config, ord: Orders, i: nat)
    requires ValidOrders(ord, cfg) && PlainKeys(cfg)
    requires i < |Build(obj, cfg, ord)|
    ensures |Build(obj, cfg, ord)| == |Targets(obj, ord)|
    ensures Build(obj, cfg, ord)[i].op == "add"
    ensures Resolve(Build(obj, cfg, ord)[i].path) == Some(Targets(obj, ord)[i])
    ensures Build(obj, cfg, ord)[i].value == ValueOf(cfg, Targets(obj, ord)[i])
  {
    BuildTargets(obj, cfg, ord);
    var t := Targets(obj, ord)[i];
    assert Build(obj, cfg, ord)[i] == OpFor(cfg, t);
    if t.Member? {
      TargetMembership(obj, cfg, ord, t.loc, t.key);
      assert t.key in Source(cfg, t.loc);
    }
    ResolvePathOf(t);
  }

  /** The patch is the one for `Targets`, operation by operation. */
  lemma BuildRealizes(obj: GenericK8sObject, cfg: Config, ord: Orders)
    requires ValidOrders(ord, cfg) && PlainKeys(cfg)
    ensures Realizes(Build(obj, cfg, ord), cfg, Targets(obj, ord))
  {
    BuildTargets(obj, cfg, ord);
    forall i | 0 <= i < |Build(obj, cfg, ord)|
      ensures Build(obj, cfg, ord)[i].op == "add"
      ensures Resolve(Build(obj, cfg, ord)[i].path) == Some(Targets(obj, ord)[i])
      ensures Build(obj, cfg, ord)[i].value == ValueOf(cfg, Targets(obj, ord)[i])
    {
      BuildOpAt(obj, cfg, ord, i);
    }
  }

  /** Every operation of the patch is an `add`: nothing is removed, moved or replaced. */
  lemma BuildOnlyAdds(obj: GenericK8sObject, cfg: Config, ord: Orders)
    requires ValidOrders(ord, cfg)
    ensures forall op :: op in Build(obj, cfg, ord) ==> op.op == "add"
  {
    BuildTargets(obj, cfg, ord);
  }

  /**
   * The number of operations: one per absent metadata map, one per
   * configured label and annotation, and for a pod template with labels two
   * per label, one if its annotations are absent and one per annotation.
   */
  lemma BuildLength(obj: GenericK8sObject, cfg: Config, ord: Orders)
    requires ValidOrders(ord, cfg)
    ensures var tmpl := obj.spec.template.metadata;
      |Build(obj, cfg, ord)|
      == Count(obj.metadata.labels) + Count(obj.metadata.annotations) + |cfg.labels| + |cfg.annotations|
         + (if tmpl.labels.Some? then 2 * |cfg.labels| + Count(tmpl.annotations) + |cfg.annotations| else 0)
  {
    BuildTargets(obj, cfg, ord);
    TargetsLength(obj, ord);
    EnumerationSize(ord.labels, cfg.labels);
    EnumerationSize(ord.annotations, cfg.annotations);
    EnumerationSize(ord.templateLabels, cfg.labels);
    EnumerationSize(ord.templateAnnotations, cfg.annotations);
  }

  lemma CreatesTransfer(p: seq<PatchOp>, cfg: Config, ts: seq<Target>, loc: Loc)
    requires Realizes(p, cfg, ts)
    ensures (exists i :: 0 <= i < |p| && CreatesMap(p[i], loc)) <==> (exists i :: 0 <= i < |ts| && ts[i] == Whole(loc))
  {
    if exists i :: 0 <= i < |ts| && ts[i] == Whole(loc) {
      var i :| 0 <= i < |ts| && ts[i] == Whole(loc);
      assert CreatesMap(p[i], loc);
    }
  }

  /**
   * A map is created (`add path = {}`) exactly when the source finds it
   * absent: the object's labels and annotations, and the pod template's
   * annotations when its labels are present. The pod-template labels and
   * the selector are never created, and every creation writes `{}`.
   */
  lemma BuildCreatesAbsentMaps(obj: GenericK8sObject, cfg: Config, ord: Orders)
    requires ValidOrders(ord, cfg) && PlainKeys(cfg)
    ensures var p := Build(obj, cfg, ord);
      && ((exists i :: 0 <= i < |p| && CreatesMap(p[i], Labels)) <==> obj.metadata.labels.None?)
      && ((exists i :: 0 <= i < |p| && CreatesMap(p[i], Annotations)) <==> obj.metadata.annotations.None?)
      && ((exists i :: 0 <= i < |p| && CreatesMap(p[i], TemplateAnnotations))
          <==> obj.spec.template.metadata.labels.Some? && obj.spec.template.metadata.annotations.None?)
      && (forall i :: 0 <= i < |p| ==> !CreatesMap(p[i], TemplateLabels) && !CreatesMap(p[i], MatchLabels))
      && (forall i, loc :: 0 <= i < |p| && CreatesMap(p[i], loc) ==> p[i].value == EmptyObject)
  {
    BuildRealizes(obj, cfg, ord);
    TargetParents(obj, ord);
    BuildCreates(obj, cfg, ord, Labels);
    BuildCreates(obj, cfg, ord, Annotations);
    BuildCreates(obj, cfg, ord, TemplateAnnotations);
    BuildCreates(obj, cfg, ord, TemplateLabels);
    BuildCreates(obj, cfg, ord, MatchLabels);
  }

  lemma BuildCreates(obj: GenericK8sObject, cfg: Config, ord: Orders, loc: Loc)
    requires ValidOrders(ord, cfg) && PlainKeys(cfg)
    ensures var p, ts := Build(obj, cfg, ord), Targets(obj, ord);
      (exists i :: 0 <= i < |p| && CreatesMap(p[i], loc)) <==> (exists i :: 0 <= i < |ts| && ts[i] == Whole(loc))
  {
    BuildRealizes(obj, cfg, ord);
    CreatesTransfer(Build(obj, cfg, ord), cfg, Targets(obj, ord), loc);
  }

  lemma OrderTransfer(p: seq<PatchOp>, cfg: Config, ts: seq<Target>)
    requires Realizes(p, cfg, ts)
    requires forall i, j ::
      (0 <= i < |ts| && 0 <= j < |ts| && ts[i].Whole? && ts[j].Member? && (IsMetadata(ts[i].loc) || ts[i].loc == ts[j].loc))
      ==> i < j
    ensures forall i, j, loc, loc' ::
      (0 <= i < |p| && 0 <= j < |p| && CreatesMap(p[i], loc) && WritesInto(p[j], loc') && (IsMetadata(loc) || loc == loc'))
      ==> i < j
  {
    forall i, j, loc, loc' |
      0 <= i < |p| && 0 <= j < |p| && CreatesMap(p[i], loc) && WritesInto(p[j], loc') && (IsMetadata(loc) || loc == loc')
      ensures i < j
    {
      assert ts[i] == Whole(loc);
      assert ts[j].Member? && ts[j].loc == loc';
    }
  }

  /**
   * A map is created before any key is written into it, and the object's
   * own maps are created before any key is written anywhere.
   */
  lemma BuildCreatesBeforeWrites(obj: GenericK8sObject, cfg: Config, ord: Orders)
    requires ValidOrders(ord, cfg) && PlainKeys(cfg)
    ensures var p := Build(obj, cfg, ord);
      forall i, j, loc, loc' ::
        (0 <= i < |p| && 0 <= j < |p| && CreatesMap(p[i], loc) && WritesInto(p[j], loc') && (IsMetadata(loc) || loc == loc'))
        ==> i < j
  {
    BuildRealizes(obj, cfg, ord);
    TargetParentsFirst(obj, ord);
    OrderTransfer(Build(obj, cfg, ord), cfg, Targets(obj, ord));
  }

  lemma KeyTransfer(p: seq<PatchOp>, cfg: Config, ts: seq<Target>, loc: Loc, key: string)
    requires Realizes(p, cfg, ts)
    requires NoRepeatedMember(ts)
    requires Member(loc, key) in ts ==> key in Source(cfg, loc)
    ensures (exists i :: 0 <= i < |p| && SetsKey(p[i], loc, key)) <==> Member(loc, key) in ts
    ensures forall i, j :: 0 <= i < |p| && 0 <= j < |p| && SetsKey(p[i], loc, key) && SetsKey(p[j], loc, key) ==> i == j
    ensures forall i :: 0 <= i < |p| && SetsKey(p[i], loc, key) ==>
      key in Source(cfg, loc) && p[i].value == Str(Source(cfg, loc)[key])
  {
    var t := Member(loc, key);
    if t in ts {
      var i :| 0 <= i < |ts| && ts[i] == t;
      assert SetsKey(p[i], loc, key);
    }
    forall i, j | 0 <= i < |p| && 0 <= j < |p| && SetsKey(p[i], loc, key) && SetsKey(p[j], loc, key)
      ensures i == j
    {
      assert ts[i] == t && ts[j] == t;
    }
    forall i | 0 <= i < |p| && SetsKey(p[i], loc, key)
      ensures key in Source(cfg, loc) && p[i].value == Str(Source(cfg, loc)[key])
    {
      assert ts[i] == t && t in ts;
    }
  }

  /**
   * Each configured key is written exactly once into each map the source
   * patches, with its configured value, and nothing else is written: a key
   * is set at `loc` if and only if it is configured for `loc` and the
   * source patches `loc`.
   */
  lemma BuildSetsEachKeyOnce(obj: GenericK8sObject, cfg: Config, ord: Orders, loc: Loc, key: string)
    requires ValidOrders(ord, cfg) && PlainKeys(cfg)
    ensures var p := Build(obj, cfg, ord);
      && ((exists i :: 0 <= i < |p| && SetsKey(p[i], loc, key)) <==> Patched(obj, loc) && key in Source(cfg, loc))
      && (forall i, j :: 0 <= i < |p| && 0 <= j < |p| && SetsKey(p[i], loc, key) && SetsKey(p[j], loc, key) ==> i == j)
      && (forall i :: 0 <= i < |p| && SetsKey(p[i], loc, key) ==>
            key in Source(cfg, loc) && p[i].value == Str(Source(cfg, loc)[key]))
  {
    BuildRealizes(obj, cfg, ord);
    TargetMembership(obj, cfg, ord, loc, key);
    TargetsNoRepeat(obj, cfg, ord);
    KeyTransfer(Build(obj, cfg, ord), cfg, Targets(obj, ord), loc, key);
  }

  lemma PairTransfer(p: seq<PatchOp>, cfg: Config, ts: seq<Target>)
    requires Realizes(p, cfg, ts)
    requires forall i :: 0 <= i < |ts| && ts[i].Member? && ts[i].loc == TemplateLabels ==>
      i + 1 < |ts| && ts[i + 1] == Member(MatchLabels, ts[i].key)
    requires forall j :: 0 <= j < |ts| && ts[j].Member? && ts[j].loc == MatchLabels ==>
      0 < j && ts[j - 1] == Member(TemplateLabels, ts[j].key)
    ensures forall i, key :: 0 <= i < |p| && SetsKey(p[i], TemplateLabels, key) ==>
      i + 1 < |p| && SetsKey(p[i + 1], MatchLabels, key) && p[i + 1].value == p[i].value
    ensures forall j, key :: 0 <= j < |p| && SetsKey(p[j], MatchLabels, key) ==>
      0 < j && SetsKey(p[j - 1], TemplateLabels, key) && p[j - 1].value == p[j].value
  {
    forall i, key | 0 <= i < |p| && SetsKey(p[i], TemplateLabels, key)
      ensures i + 1 < |p| && SetsKey(p[i + 1], MatchLabels, key) && p[i + 1].value == p[i].value
    {
      assert ts[i] == Member(TemplateLabels, key);
    }
    forall j, key | 0 <= j < |p| && SetsKey(p[j], MatchLabels, key)
      ensures 0 < j && SetsKey(p[j - 1], TemplateLabels, key) && p[j - 1].value == p[j].value
    {
      assert ts[j] == Member(MatchLabels, key);
    }
  }

  /**
   * Every pod-template label write is immediately followed by the selector
   * write of the same key and value, and every selector write immediately
   * follows the pod-template label write of the same key and value.
   */
  lemma BuildPairsAdjacent(obj: GenericK8sObject, cfg: Config, ord: Orders)
    requires ValidOrders(ord, cfg) && PlainKeys(cfg)
    ensures var p := Build(obj, cfg, ord);
      && (forall i, key :: 0 <= i < |p| && SetsKey(p[i], TemplateLabels, key) ==>
            i + 1 < |p| && SetsKey(p[i + 1], MatchLabels, key) && p[i + 1].value == p[i].value)
      && (forall j, key :: 0 <= j < |p| && SetsKey(p[j], MatchLabels, key) ==>
            0 < j && SetsKey(p[j - 1], TemplateLabels, key) && p[j - 1].value == p[j].value)
  {
    BuildRealizes(obj, cfg, ord);
    TargetPairs(obj, ord);
    PairTransfer(Build(obj, cfg, ord), cfg, Targets(obj, ord));
  }

  lemma SecondChar(s: string, prefix: string, c: char)
    requires |prefix| > 1 && prefix[1] == c
    ensures |prefix + s| > 1 && (prefix + s)[1] == c
  {
  }

  /** A path into the object's own metadata does not start with `/spec`. */
  lemma MetadataPathOutsideSpec(t: Target)
    requires IsMetadata(t.loc)
    ensures !HasPrefix(PathOf(t), "/spec")
  {
    var path := PathOf(t);
    match t {
      case Whole(Labels) =>
        assert LabelsPath[1] == 'm';
      case Whole(Annotations) =>
        assert AnnotationsPath[1] == 'm';
      case Member(Labels, key) =>
        SecondChar(key, LabelPrefix, 'm');
      case Member(Annotations, key) =>
        SecondChar(key, AnnotationPrefix, 'm');
    }
    assert path[1] == 'm';
    if |path| >= 5 {
      assert path[..5][1] == 'm';
    }
  }

  /**
   * When the object has no pod-template labels, the patch only touches its
   * own metadata: no path starts with `/spec`.
   */
  lemma BuildWithoutTemplateLabels(obj: GenericK8sObject, cfg: Config, ord: Orders)
    requires ValidOrders(ord, cfg)
    requires obj.spec.template.metadata.labels.None?
    ensures forall op :: op in Build(obj, cfg, ord) ==> !HasPrefix(op.path, "/spec")
  {
    var p := Build(obj, cfg, ord);
    var ts := Targets(obj, ord);
    BuildTargets(obj, cfg, ord);
    TargetsWithoutTemplate(obj, ord);
    forall op | op in p
      ensures !HasPrefix(op.path, "/spec")
    {
      var i :| 0 <= i < |p| && p[i] == op;
      assert op == OpFor(cfg, ts[i]);
      MetadataPathOutsideSpec(ts[i]);
    }
  }

  // ---------------------------------------------------------------------
  // The effect of the patch on the document, under section 4.1 of RFC 6902
  // ---------------------------------------------------------------------

  /** Applying the operation for one target. */
  function ApplyTarget(d: Doc, cfg: Config, t: Target): (r: Option<Doc>) {
    match t
    case Whole(loc) => Some(Put(d, loc, Some(map[])))
    case Member(loc, key) =>
      match (Get(d, loc), ValueOf(cfg, t))
      case (Some(m), Str(v)) => Some(Put(d, loc, Some(m[key := v])))
      case _ => None
  }

  /** Applying the operations for `ts` in order; the first failure fails the whole. */
  function ApplyTargets(d: Doc, cfg: Config, ts: seq<Target>): (r: Option<Doc>)
    decreases |ts|
  {
    if ts == [] then Some(d)
    else
      match ApplyTarget(d, cfg, ts[0])
      case None => None
      case Some(d') => ApplyTargets(d', cfg, ts[1..])
  }

  lemma {:induction false} ApplyRealized(d: Doc, p: seq<PatchOp>, cfg: Config, ts: seq<Target>)
    requires Realizes(p, cfg, ts)
    ensures Apply(d, p) == ApplyTargets(d, cfg, ts)
    decreases |p|
  {
    if p != [] {
      assert ApplyOp(d, p[0]) == ApplyTarget(d, cfg, ts[0]);
      assert Realizes(p[1..], cfg, ts[1..]) by {
        forall i | 0 <= i < |p[1..]|
          ensures p[1..][i] == p[i + 1] && ts[1..][i] == ts[i + 1]
        {
        }
      }
      match ApplyOp(d, p[0])
      case None =>
      case Some(d') => ApplyRealized(d', p[1..], cfg, ts[1..]);
    }
  }

  lemma {:induction false} ApplyTargetsAppend(d: Doc, cfg: Config, a: seq<Target>, b: seq<Target>)
    ensures ApplyTargets(d, cfg, a + b)
      == (match ApplyTargets(d, cfg, a) case None => None case Some(d') => ApplyTargets(d', cfg, b))
    decreases |a|
  {
    if a != [] {
      assert (a + b)[0] == a[0];
      assert (a + b)[1..] == a[1..] + b;
      match ApplyTarget(d, cfg, a[0])
      case None =>
      case Some(d') => ApplyTargetsAppend(d', cfg, a[1..], b);
    } else {
      assert a + b == b;
    }
  }

  /** The entries of `m` for the keys of `order`. */
  function Picked(m: map<string, string>, order: seq<string>): (r: map<string, string>)
    requires forall k :: k in order ==> k in m
  {
    map k | k in order :: m[k]
  }

  lemma PickedAll(m: map<string, string>, order: seq<string>)
    requires Enumerates(order, m)
    ensures Picked(m, order) == m
  {
  }

  lemma PutSame(d: Doc, loc: Loc)
    ensures Put(d, loc, Get(d, loc)) == d
  {
    DocEquality(Put(d, loc, Get(d, loc)), d);
  }

  lemma ApplyParent(d: Doc, cfg: Config, loc: Loc, m: Option<map<string, string>>)
    ensures ApplyTargets(d, cfg, Parent(m, loc)) == Some(if m.None? then Put(d, loc, Some(map[])) else d)
  {
    if m.None? {
      assert Parent(m, loc)[1..] == [];
    }
  }

  lemma MembersSnoc(loc: Loc, order: seq<string>)
    requires order != []
    ensures Members(loc, order) == Members(loc, order[..|order| - 1]) + [Member(loc, order[|order| - 1])]
  {
  }

  lemma PutPut(d: Doc, loc: Loc, v: Option<map<string, string>>, w: Option<map<string, string>>)
    ensures Put(Put(d, loc, v), loc, w) == Put(d, loc, w)
  {
    DocEquality(Put(Put(d, loc, v), loc, w), Put(d, loc, w));
  }

  lemma ApplyOneMember(d: Doc, cfg: Config, loc: Loc, key: string)
    requires key in Source(cfg, loc)
    requires Get(d, loc).Some?
    ensures ApplyTargets(d, cfg, [Member(loc, key)])
      == Some(Put(d, loc, Some(Get(d, loc).value[key := Source(cfg, loc)[key]])))
  {
    assert [Member(loc, key)][1..] == [];
  }

  lemma PickedSnoc(base: map<string, string>, src: map<string, string>, order: seq<string>)
    requires order != []
    requires forall k :: k in order ==> k in src
    ensures (base + Picked(src, order[..|order| - 1]))[order[|order| - 1] := src[order[|order| - 1]]]
      == base + Picked(src, order)
  {
    var init, last := order[..|order| - 1], order[|order| - 1];
    assert forall k :: k in order <==> k in init || k == last;
  }

  /** Writing the keys of `order` into an existing map merges their configured values into it. */
  lemma {:induction false} ApplyMembers(d: Doc, cfg: Config, loc: Loc, order: seq<string>)
    requires forall k :: k in order ==> k in Source(cfg, loc)
    requires Get(d, loc).Some?
    ensures ApplyTargets(d, cfg, Members(loc, order))
      == Some(Put(d, loc, Some(Get(d, loc).value + Picked(Source(cfg, loc), order))))
    decreases |order|
  {
    var src := Source(cfg, loc);
    var base := Get(d, loc).value;
    if order == [] {
      assert base + Picked(src, order) == base;
      PutSame(d, loc);
    } else {
      var init, last := order[..|order| - 1], order[|order| - 1];
      MembersSnoc(loc, order);
      ApplyMembers(d, cfg, loc, init);
      ApplyTargetsAppend(d, cfg, Members(loc, init), [Member(loc, last)]);
      var d1 := Put(d, loc, Some(base + Picked(src, init)));
      ApplyOneMember(d1, cfg, loc, last);
      PickedSnoc(base, src, order);
      PutPut(d, loc, Some(base + Picked(src, init)), Some(base + Picked(src, order)));
    }
  }

  lemma PairsSnoc(order: seq<string>)
    requires order != []
    ensures Pairs(order) == Pairs(order[..|order| - 1])
      + [Member(TemplateLabels, order[|order| - 1]), Member(MatchLabels, order[|order| - 1])]
  {
    var init := order[..|order| - 1];
    var n := 2 * |init|;
    assert n / 2 == |init| && (n + 1) / 2 == |init|;
  }

  lemma ApplyOnePair(d: Doc, cfg: Config, key: string)
    requires key in cfg.labels
    requires Get(d, TemplateLabels).Some? && Get(d, MatchLabels).Some?
    ensures ApplyTargets(d, cfg, [Member(TemplateLabels, key), Member(MatchLabels, key)])
      == Some(Put(Put(d, TemplateLabels, Some(Get(d, TemplateLabels).value[key := cfg.labels[key]])),
                  MatchLabels, Some(Get(d, MatchLabels).value[key := cfg.labels[key]])))
  {
    var two := [Member(TemplateLabels, key), Member(MatchLabels, key)];
    assert two == [two[0]] + [two[1]];
    ApplyTargetsAppend(d, cfg, [two[0]], [two[1]]);
    ApplyOneMember(d, cfg, TemplateLabels, key);
    ApplyOneMember(Put(d, TemplateLabels, Some(Get(d, TemplateLabels).value[key := cfg.labels[key]])), cfg, MatchLabels, key);
  }

  /** Writing the pairs for `order` merges the labels into both the pod-template labels and the selector. */
  lemma {:induction false} ApplyPairs(d: Doc, cfg: Config, order: seq<string>)
    requires forall k :: k in order ==> k in cfg.labels
    requires Get(d, TemplateLabels).Some? && Get(d, MatchLabels).Some?
    ensures ApplyTargets(d, cfg, Pairs(order))
      == Some(Put(Put(d, TemplateLabels, Some(Get(d, TemplateLabels).value + Picked(cfg.labels, order))),
                  MatchLabels, Some(Get(d, MatchLabels).value + Picked(cfg.labels, order))))
    decreases |order|
  {
    var tl, ml := Get(d, TemplateLabels).value, Get(d, MatchLabels).value;
    if order == [] {
      assert tl + Picked(cfg.labels, order) == tl && ml + Picked(cfg.labels, order) == ml;
      PutSame(d, TemplateLabels);
      PutSame(d, MatchLabels);
    } else {
      var init, last := order[..|order| - 1], order[|order| - 1];
      PairsSnoc(order);
      ApplyPairs(d, cfg, init);
      var two := [Member(TemplateLabels, last), Member(MatchLabels, last)];
      ApplyTargetsAppend(d, cfg, Pairs(init), two);
      var d1 := Put(Put(d, TemplateLabels, Some(tl + Picked(cfg.labels, init))), MatchLabels, Some(ml + Picked(cfg.labels, init)));
      ApplyOnePair(d1, cfg, last);
      PickedSnoc(tl, cfg.labels, order);
      PickedSnoc(ml, cfg.labels, order);
      var e := Put(Put(d, TemplateLabels, Some(tl + Picked(cfg.labels, order))), MatchLabels, Some(ml + Picked(cfg.labels, order)));
      var e' := Put(Put(d1, TemplateLabels, Some((tl + Picked(cfg.labels, init))[last := cfg.labels[last]])),
                    MatchLabels, Some((ml + Picked(cfg.labels, init))[last := cfg.labels[last]]));
      DocEquality(e', e);
    }
  }

  /** Without a pod-template label map or a selector map, the first pair fails the patch. */
  lemma {:induction false} ApplyPairsFail(d: Doc, cfg: Config, order: seq<string>)
    requires forall k :: k in order ==> k in cfg.labels
    requires order != [] && (Get(d, TemplateLabels).None? || Get(d, MatchLabels).None?)
    ensures ApplyTargets(d, cfg, Pairs(order)) == None
    decreases |order|
  {
    var init, last := order[..|order| - 1], order[|order| - 1];
    PairsSnoc(order);
    var two := [Member(TemplateLabels, last), Member(MatchLabels, last)];
    ApplyTargetsAppend(d, cfg, Pairs(init), two);
    if init != [] {
      ApplyPairsFail(d, cfg, init);
    } else {
      assert Pairs(init) == [];
      assert two == [two[0]] + [two[1]];
      ApplyTargetsAppend(d, cfg, [two[0]], [two[1]]);
      if Get(d, TemplateLabels).Some? {
        var d1 := Put(d, TemplateLabels, Some(Get(d, TemplateLabels).value[last := cfg.labels[last]]));
        assert ApplyTargets(d, cfg, [two[0]]) == Some(d1);
        assert ApplyTargets(d1, cfg, [two[1]]) == None;
      } else {
        assert ApplyTargets(d, cfg, [two[0]]) == None;
      }
    }
  }

  /** Writing all configured keys for `loc`, in any order, into the map at `loc`. */
  lemma ApplyMembersAll(d: Doc, cfg: Config, loc: Loc, order: seq<string>)
    requires Enumerates(order, Source(cfg, loc))
    ensures ApplyTargets(d, cfg, Members(loc, order))
      == if Get(d, loc).Some? then Some(Put(d, loc, Some(Get(d, loc).value + Source(cfg, loc))))
         else if Source(cfg, loc) == map[] then Some(d) else None
  {
    if Get(d, loc).Some? {
      ApplyMembers(d, cfg, loc, order);
      PickedAll(Source(cfg, loc), order);
    } else {
      EnumerationSize(order, Source(cfg, loc));
      if order != [] {
        assert Members(loc, order)[0] == Member(loc, order[0]);
      }
    }
  }

  /** Writing all configured labels, in any order, into the pod-template labels and the selector. */
  lemma ApplyPairsAll(d: Doc, cfg: Config, order: seq<string>)
    requires Enumerates(order, cfg.labels)
    ensures ApplyTargets(d, cfg, Pairs(order))
      == if Get(d, TemplateLabels).Some? && Get(d, MatchLabels).Some? then
           Some(Put(Put(d, TemplateLabels, Some(Get(d, TemplateLabels).value + cfg.labels)),
                    MatchLabels, Some(Get(d, MatchLabels).value + cfg.labels)))
         else if cfg.labels == map[] then Some(d) else None
  {
    EnumerationSize(order, cfg.labels);
    if Get(d, TemplateLabels).Some? && Get(d, MatchLabels).Some? {
      ApplyPairs(d, cfg, order);
      PickedAll(cfg.labels, order);
    } else if order != [] {
      ApplyPairsFail(d, cfg, order);
    }
  }

  /** The object's own map at `loc`, as the builder reads it (the object view has no selector). */
  function ObjMap(obj: GenericK8sObject, loc: Loc): (r: Option<map<string, string>>) {
    Get(Doc(obj, None), loc)
  }

  /** The patch built for `obj` starts by replacing the map at `loc` with `{}`. */
  predicate Resets(obj: GenericK8sObject, loc: Loc) {
    Patched(obj, loc) && loc != TemplateLabels && loc != MatchLabels && ObjMap(obj, loc).None?
  }

  /** The map at `loc` of `d` once the patch for `obj` has created what it creates. */
  function Start(obj: GenericK8sObject, d: Doc, loc: Loc): (r: Option<map<string, string>>) {
    if Resets(obj, loc) then Some(map[]) else Get(d, loc)
  }

  /** The patch for `obj` writes a key into a map that `d` does not have. */
  predicate Blocked(obj: GenericK8sObject, d: Doc, cfg: Config, loc: Loc) {
    Patched(obj, loc) && Start(obj, d, loc).None? && Source(cfg, loc) != map[]
  }

  predicate Fails(obj: GenericK8sObject, d: Doc, cfg: Config) {
    || Blocked(obj, d, cfg, Labels) || Blocked(obj, d, cfg, Annotations)
    || Blocked(obj, d, cfg, TemplateLabels) || Blocked(obj, d, cfg, MatchLabels)
    || Blocked(obj, d, cfg, TemplateAnnotations)
  }

  /**
   * The map at `loc` once the patch for `obj` has been applied to `d`: the
   * configured entries merged over the starting map wherever the patch
   * writes, the map of `d` elsewhere.
   */
  function Injected(obj: GenericK8sObject, d: Doc, cfg: Config, loc: Loc): (r: Option<map<string, string>>) {
    if Patched(obj, loc) && Start(obj, d, loc).Some? then Some(Start(obj, d, loc).value + Source(cfg, loc))
    else Get(d, loc)
  }

  /** The document with every map replaced by its `Injected` form. */
  function Inject(obj: GenericK8sObject, d: Doc, cfg: Config): (r: Doc)
    ensures forall loc :: Get(r, loc) == Injected(obj, d, cfg, loc)
  {
    var d1 := Put(d, Labels, Injected(obj, d, cfg, Labels));
    var d2 := Put(d1, Annotations, Injected(obj, d, cfg, Annotations));
    var d3 := Put(d2, TemplateLabels, Injected(obj, d, cfg, TemplateLabels));
    var d4 := Put(d3, MatchLabels, Injected(obj, d, cfg, MatchLabels));
    Put(d4, TemplateAnnotations, Injected(obj, d, cfg, TemplateAnnotations))
  }

  /** The result of applying the patch built for `obj` to the document `d`. */
  function Effect(obj: GenericK8sObject, d: Doc, cfg: Config): (r: Option<Doc>) {
    if Fails(obj, d, cfg) then None else Some(Inject(obj, d, cfg))
  }

  lemma ApplyMeta(obj: GenericK8sObject, d: Doc, cfg: Config, ord: Orders)
    requires Enumerates(ord.labels, cfg.labels) && Enumerates(ord.annotations, cfg.annotations)
    ensures ApplyTargets(d, cfg, MetaTargets(obj.metadata, ord))
      == if Blocked(obj, d, cfg, Labels) || Blocked(obj, d, cfg, Annotations) then None
         else Some(Put(Put(d, Labels, Injected(obj, d, cfg, Labels)), Annotations, Injected(obj, d, cfg, Annotations)))
  {
    var meta := obj.metadata;
    var pl, pa := Parent(meta.labels, Labels), Parent(meta.annotations, Annotations);
    var ml, ma := Members(Labels, ord.labels), Members(Annotations, ord.annotations);
    assert MetaTargets(meta, ord) == pl + pa + ml + ma;
    ApplyTargetsAppend(d, cfg, pl + pa + ml, ma);
    ApplyTargetsAppend(d, cfg, pl + pa, ml);
    ApplyTargetsAppend(d, cfg, pl, pa);
    ApplyParent(d, cfg, Labels, meta.labels);
    var d1 := if meta.labels.None? then Put(d, Labels, Some(map[])) else d;
    ApplyParent(d1, cfg, Annotations, meta.annotations);
    var d2 := if meta.annotations.None? then Put(d1, Annotations, Some(map[])) else d1;
    assert Get(d2, Labels) == Start(obj, d, Labels) && Get(d2, Annotations) == Start(obj, d, Annotations);
    ApplyMembersAll(d2, cfg, Labels, ord.labels);
    if !Blocked(obj, d, cfg, Labels) {
      var d3 := if Get(d2, Labels).Some? then Put(d2, Labels, Some(Get(d2, Labels).value + cfg.labels)) else d2;
      ApplyMembersAll(d3, cfg, Annotations, ord.annotations);
      if !Blocked(obj, d, cfg, Annotations) {
        var d4 := if Get(d3, Annotations).Some? then Put(d3, Annotations, Some(Get(d3, Annotations).value + cfg.annotations)) else d3;
        DocEquality(d4, Put(Put(d, Labels, Injected(obj, d, cfg, Labels)), Annotations, Injected(obj, d, cfg, Annotations)));
      }
    }
  }

  lemma PairsStage(obj: GenericK8sObject, d: Doc, cfg: Config, ord: Orders)
    requires Enumerates(ord.templateLabels, cfg.labels)
    requires obj.spec.template.metadata.labels.Some?
    ensures ApplyTargets(d, cfg, Pairs(ord.templateLabels))
      == if Blocked(obj, d, cfg, TemplateLabels) || Blocked(obj, d, cfg, MatchLabels) then None
         else Some(Put(Put(d, TemplateLabels, Injected(obj, d, cfg, TemplateLabels)), MatchLabels, Injected(obj, d, cfg, MatchLabels)))
  {
    ApplyPairsAll(d, cfg, ord.templateLabels);
    var tl, ml := Get(d, TemplateLabels), Get(d, MatchLabels);
    if !(tl.Some? && ml.Some?) && cfg.labels == map[] {
      PutSame(d, TemplateLabels);
      PutSame(d, MatchLabels);
      if tl.Some? {
        assert tl.value + cfg.labels == tl.value;
      }
      if ml.Some? {
        assert ml.value + cfg.labels == ml.value;
      }
    }
  }

  lemma TemplateAnnotationsStage(obj: GenericK8sObject, d: Doc, cfg: Config, ord: Orders)
    requires Enumerates(ord.templateAnnotations, cfg.annotations)
    requires obj.spec.template.metadata.labels.Some?
    ensures ApplyTargets(d, cfg, Parent(obj.spec.template.metadata.annotations, TemplateAnnotations)
                                 + Members(TemplateAnnotations, ord.templateAnnotations))
      == if Blocked(obj, d, cfg, TemplateAnnotations) then None
         else Some(Put(d, TemplateAnnotations, Injected(obj, d, cfg, TemplateAnnotations)))
  {
    var m := obj.spec.template.metadata.annotations;
    var pt := Parent(m, TemplateAnnotations);
    var kt := Members(TemplateAnnotations, ord.templateAnnotations);
    ApplyTargetsAppend(d, cfg, pt, kt);
    ApplyParent(d, cfg, TemplateAnnotations, m);
    var d1 := if m.None? then Put(d, TemplateAnnotations, Some(map[])) else d;
    assert Get(d1, TemplateAnnotations) == Start(obj, d, TemplateAnnotations);
    ApplyMembersAll(d1, cfg, TemplateAnnotations, ord.templateAnnotations);
    if !Blocked(obj, d, cfg, TemplateAnnotations) {
      if Get(d1, TemplateAnnotations).Some? {
        if m.None? {
          PutPut(d, TemplateAnnotations, Some(map[]), Injected(obj, d, cfg, TemplateAnnotations));
        }
      } else {
        PutSame(d, TemplateAnnotations);
      }
    }
  }

  lemma ApplyTemplate(obj: GenericK8sObject, d: Doc, cfg: Config, ord: Orders)
    requires Enumerates(ord.templateLabels, cfg.labels) && Enumerates(ord.templateAnnotations, cfg.annotations)
    requires obj.spec.template.metadata.labels.Some?
    ensures ApplyTargets(d, cfg, TemplateTargets(obj.spec.template.metadata, ord))
      == if Blocked(obj, d, cfg, TemplateLabels) || Blocked(obj, d, cfg, MatchLabels) || Blocked(obj, d, cfg, TemplateAnnotations) then None
         else Some(Put(Put(Put(d, TemplateLabels, Injected(obj, d, cfg, TemplateLabels)),
                           MatchLabels, Injected(obj, d, cfg, MatchLabels)),
                       TemplateAnnotations, Injected(obj, d, cfg, TemplateAnnotations)))
  {
    var tmpl := obj.spec.template.metadata;
    var pairs := Pairs(ord.templateLabels);
    var rest := Parent(tmpl.annotations, TemplateAnnotations) + Members(TemplateAnnotations, ord.templateAnnotations);
    assert TemplateTargets(tmpl, ord) == pairs + rest;
    ApplyTargetsAppend(d, cfg, pairs, rest);
    PairsStage(obj, d, cfg, ord);
    if !(Blocked(obj, d, cfg, TemplateLabels) || Blocked(obj, d, cfg, MatchLabels)) {
      var d2 := Put(Put(d, TemplateLabels, Injected(obj, d, cfg, TemplateLabels)), MatchLabels, Injected(obj, d, cfg, MatchLabels));
      TemplateAnnotationsStage(obj, d2, cfg, ord);
      assert Get(d2, TemplateAnnotations) == Get(d, TemplateAnnotations);
    }
  }

  /** The document after the metadata stage. */
  function AfterMeta(obj: GenericK8sObject, d: Doc, cfg: Config): (r: Doc) {
    Put(Put(d, Labels, Injected(obj, d, cfg, Labels)), Annotations, Injected(obj, d, cfg, Annotations))
  }

  lemma InjectWithTemplate(obj: GenericK8sObject, d: Doc, cfg: Config)
    requires obj.spec.template.metadata.labels.Some?
    ensures var dm := AfterMeta(obj, d, cfg);
      Put(Put(Put(dm, TemplateLabels, Injected(obj, dm, cfg, TemplateLabels)),
              MatchLabels, Injected(obj, dm, cfg, MatchLabels)),
          TemplateAnnotations, Injected(obj, dm, cfg, TemplateAnnotations))
      == Inject(obj, d, cfg)
  {
    var dm := AfterMeta(obj, d, cfg);
    var df := Put(Put(Put(dm, TemplateLabels, Injected(obj, dm, cfg, TemplateLabels)),
                      MatchLabels, Injected(obj, dm, cfg, MatchLabels)),
                  TemplateAnnotations, Injected(obj, dm, cfg, TemplateAnnotations));
    DocEquality(df, Inject(obj, d, cfg));
  }

  lemma InjectWithoutTemplate(obj: GenericK8sObject, d: Doc, cfg: Config)
    requires obj.spec.template.metadata.labels.None?
    ensures AfterMeta(obj, d, cfg) == Inject(obj, d, cfg)
  {
    DocEquality(AfterMeta(obj, d, cfg), Inject(obj, d, cfg));
  }

  lemma TemplateUntouchedByMeta(obj: GenericK8sObject, d: Doc, cfg: Config)
    ensures var dm := AfterMeta(obj, d, cfg);
      && (Blocked(obj, dm, cfg, TemplateLabels) <==> Blocked(obj, d, cfg, TemplateLabels))
      && (Blocked(obj, dm, cfg, MatchLabels) <==> Blocked(obj, d, cfg, MatchLabels))
      && (Blocked(obj, dm, cfg, TemplateAnnotations) <==> Blocked(obj, d, cfg, TemplateAnnotations))
  {
    var dm := AfterMeta(obj, d, cfg);
    assert Get(dm, TemplateLabels) == Get(d, TemplateLabels);
    assert Get(dm, MatchLabels) == Get(d, MatchLabels);
    assert Get(dm, TemplateAnnotations) == Get(d, TemplateAnnotations);
  }

  /** Applying the operations for all targets of `obj` to `d` gives `Effect(obj, d, cfg)`. */
  lemma ApplyAllTargets(obj: GenericK8sObject, d: Doc, cfg: Config, ord: Orders)
    requires ValidOrders(ord, cfg)
    ensures ApplyTargets(d, cfg, Targets(obj, ord)) == Effect(obj, d, cfg)
  {
    var mt := MetaTargets(obj.metadata, ord);
    var tt := TemplateTargets(obj.spec.template.metadata, ord);
    ApplyTargetsAppend(d, cfg, mt, tt);
    ApplyMeta(obj, d, cfg, ord);
    if !(Blocked(obj, d, cfg, Labels) || Blocked(obj, d, cfg, Annotations)) {
      var dm := AfterMeta(obj, d, cfg);
      if obj.spec.template.metadata.labels.Some? {
        ApplyTemplate(obj, dm, cfg, ord);
        TemplateUntouchedByMeta(obj, d, cfg);
        InjectWithTemplate(obj, d, cfg);
      } else {
        assert tt == [];
        InjectWithoutTemplate(obj, d, cfg);
      }
    }
  }

  /**
   * Applying the patch built for `obj` (in any loop order) to a document
   * `d` under section 4.1 of RFC 6902 gives `Effect(obj, d, cfg)`.
   */
  lemma ApplyBuild(obj: GenericK8sObject, d: Doc, cfg: Config, ord: Orders)
    requires ValidOrders(ord, cfg) && PlainKeys(cfg)
    ensures Apply(d, Build(obj, cfg, ord)) == Effect(obj, d, cfg)
  {
    BuildRealizes(obj, cfg, ord);
    ApplyRealized(d, Build(obj, cfg, ord), cfg, Targets(obj, ord));
    ApplyAllTargets(obj, d, cfg, ord);
  }

  /** The patch has the same effect whatever order Go's `range` loops took. */
  lemma ApplyOrderIndependent(obj: GenericK8sObject, d: Doc, cfg: Config, ord1: Orders, ord2: Orders)
    requires ValidOrders(ord1, cfg) && ValidOrders(ord2, cfg) && PlainKeys(cfg)
    ensures Apply(d, Build(obj, cfg, ord1)) == Apply(d, Build(obj, cfg, ord2))
  {
    ApplyBuild(obj, d, cfg, ord1);
    ApplyBuild(obj, d, cfg, ord2);
  }

  /**
   * On the admitted object the patch fails only when the pod template has
   * labels, the selector has no `matchLabels` map and there is a label to
   * write into it.
   */
  lemma ApplySucceeds(d: Doc, cfg: Config, ord: Orders)
    requires ValidOrders(ord, cfg) && PlainKeys(cfg)
    ensures Apply(d, Build(d.obj, cfg, ord)).Some?
      <==> !(d.obj.spec.template.metadata.labels.Some? && d.matchLabels.None? && cfg.labels != map[])
  {
    ApplyBuild(d.obj, d, cfg, ord);
    FailsOnAdmitted(d, cfg);
  }

  /** On the admitted object only the selector can lack a map the patch writes into. */
  lemma FailsOnAdmitted(d: Doc, cfg: Config)
    ensures Fails(d.obj, d, cfg)
      <==> d.obj.spec.template.metadata.labels.Some? && d.matchLabels.None? && cfg.labels != map[]
  {
    var obj := d.obj;
    assert !Blocked(obj, d, cfg, Labels) by {
      assert ObjMap(obj, Labels) == Get(d, Labels);
    }
    assert !Blocked(obj, d, cfg, Annotations) by {
      assert ObjMap(obj, Annotations) == Get(d, Annotations);
    }
    assert !Blocked(obj, d, cfg, TemplateAnnotations) by {
      assert ObjMap(obj, TemplateAnnotations) == Get(d, TemplateAnnotations);
    }
    assert !Blocked(obj, d, cfg, TemplateLabels);
    assert Blocked(obj, d, cfg, MatchLabels)
      <==> obj.spec.template.metadata.labels.Some? && d.matchLabels.None? && cfg.labels != map[];
  }

  /**
   * Applying the patch to the admitted object loses nothing: every map that
   * existed still exists, every key keeps its value unless it is a
   * configured key (which then holds the configured value), every
   * configured key is present wherever the source patches, and no other
   * key appears.
   */
  lemma ApplyNonDestructive(d: Doc, cfg: Config, ord: Orders, e: Doc, loc: Loc, key: string)
    requires ValidOrders(ord, cfg) && PlainKeys(cfg)
    requires Apply(d, Build(d.obj, cfg, ord)) == Some(e)
    ensures Get(d, loc).Some? ==> Get(e, loc).Some?
    ensures Get(d, loc).Some? && key in Get(d, loc).value ==>
      && key in Get(e, loc).value
      && Get(e, loc).value[key]
         == if Patched(d.obj, loc) && key in Source(cfg, loc) then Source(cfg, loc)[key] else Get(d, loc).value[key]
    ensures Patched(d.obj, loc) && key in Source(cfg, loc) ==>
      Get(e, loc).Some? && key in Get(e, loc).value && Get(e, loc).value[key] == Source(cfg, loc)[key]
    ensures Get(e, loc).Some? && key in Get(e, loc).value ==>
      (Get(d, loc).Some? && key in Get(d, loc).value) || (Patched(d.obj, loc) && key in Source(cfg, loc))
  {
    ApplyBuild(d.obj, d, cfg, ord);
    assert e == Inject(d.obj, d, cfg);
    assert Get(e, loc) == Injected(d.obj, d, cfg, loc);
    assert Start(d.obj, d, loc) == if Resets(d.obj, loc) then Some(map[]) else Get(d, loc);
    if Resets(d.obj, loc) {
      assert Get(d, loc).None?;
    }
  }

  lemma UnionTwice(a: map<string, string>, b: map<string, string>)
    ensures (a + b) + b == a + b
  {
  }

  lemma IdempotentAt(obj: GenericK8sObject, d: Doc, cfg: Config, loc: Loc)
    requires !Fails(obj, d, cfg)
    ensures !Blocked(obj, Inject(obj, d, cfg), cfg, loc)
    ensures Injected(obj, Inject(obj, d, cfg), cfg, loc) == Get(Inject(obj, d, cfg), loc)
  {
    var e := Inject(obj, d, cfg);
    assert !Blocked(obj, d, cfg, loc);
    if Patched(obj, loc) && Start(obj, d, loc).Some? {
      UnionTwice(Start(obj, d, loc).value, Source(cfg, loc));
    }
  }

  /** Applying the patch a second time changes nothing. */
  lemma ApplyIdempotent(obj: GenericK8sObject, d: Doc, cfg: Config, ord: Orders, e: Doc)
    requires ValidOrders(ord, cfg) && PlainKeys(cfg)
    requires Apply(d, Build(obj, cfg, ord)) == Some(e)
    ensures Apply(e, Build(obj, cfg, ord)) == Some(e)
  {
    ApplyBuild(obj, d, cfg, ord);
    ApplyBuild(obj, e, cfg, ord);
    assert e == Inject(obj, d, cfg);
    IdempotentAt(obj, d, cfg, Labels);
    IdempotentAt(obj, d, cfg, Annotations);
    IdempotentAt(obj, d, cfg, TemplateLabels);
    IdempotentAt(obj, d, cfg, MatchLabels);
    IdempotentAt(obj, d, cfg, TemplateAnnotations);
    DocEquality(Inject(obj, e, cfg), e);
  }

  lemma RebuildAt(d: Doc, cfg: Config, loc: Loc)
    requires !Fails(d.obj, d, cfg)
    ensures var e := Inject(d.obj, d, cfg);
      && (Patched(e.obj, loc) <==> Patched(d.obj, loc))
      && !Blocked(e.obj, e, cfg, loc)
      && Injected(e.obj, e, cfg, loc) == Get(e, loc)
  {
    var e := Inject(d.obj, d, cfg);
    assert !Blocked(d.obj, d, cfg, loc);
    assert Get(e, TemplateLabels).Some? <==> Get(d, TemplateLabels).Some?;
    assert e.obj.spec.template.metadata.labels == Get(e, TemplateLabels);
    if loc != MatchLabels {
      assert ObjMap(e.obj, loc) == Get(e, loc);
    }
    if Patched(d.obj, loc) && Start(d.obj, d, loc).Some? {
      UnionTwice(Start(d.obj, d, loc).value, Source(cfg, loc));
    }
  }

  /**
   * Once the admitted object is patched, building the patch again for the
   * patched object (in any loop order) and applying it changes nothing.
   */
  lemma RebuildIdempotent(d: Doc, cfg: Config, ord: Orders, ord2: Orders, e: Doc)
    requires ValidOrders(ord, cfg) && ValidOrders(ord2, cfg) && PlainKeys(cfg)
    requires Apply(d, Build(d.obj, cfg, ord)) == Some(e)
    ensures Apply(e, Build(e.obj, cfg, ord2)) == Some(e)
  {
    ApplyBuild(d.obj, d, cfg, ord);
    ApplyBuild(e.obj, e, cfg, ord2);
    assert e == Inject(d.obj, d, cfg);
    RebuildAt(d, cfg, Labels);
    RebuildAt(d, cfg, Annotations);
    RebuildAt(d, cfg, TemplateLabels);
    RebuildAt(d, cfg, MatchLabels);
    RebuildAt(d, cfg, TemplateAnnotations);
    DocEquality(Inject(e.obj, e, cfg), e);
  }
}

/**
 * The patch builder of patcher.go: from the view of an admitted object, the
 * ordered list of JSON Patch `add` operations that inject the configured
 * labels and annotations.
 */
module Patcher {
  import opened Wrappers
  import opened JsonPatch
  import opened Utils

  /** The labels and annotations to inject, keyed by name. */
  datatype Config = Config(labels: map<string, string>, annotations: map<string, string>)

  /** The set the source hard-codes. */
  const DefaultConfig: Config := Config(
    map["sea" := "turtle", "land" := "mongoose", "air" := "falcon"],
    map["address" := "P. Sherman 42 Wallaby Way, Sydney, Austrailia"])

  const LabelsPath: string := "/metadata/labels"
  const AnnotationsPath: string := "/metadata/annotations"
  const TemplateAnnotationsPath: string := "/spec/template/metadata/annotations"

  const LabelPrefix: string := "/metadata/labels/"
  const AnnotationPrefix: string := "/metadata/annotations/"
  const TemplateLabelPrefix: string := "/spec/template/metadata/labels/"
  const MatchLabelPrefix: string := "/spec/selector/matchLabels/"
  const TemplateAnnotationPrefix: string := "/spec/template/metadata/annotations/"

  /** No key occurs twice in `s`. */
  predicate Distinct(s: seq<string>) {
    forall i, j :: 0 <= i < j < |s| ==> s[i] != s[j]
  }

  /** `order` visits every key of `m` exactly once: one run of Go's `range` over `m`. */
  predicate Enumerates(order: seq<string>, m: map<string, string>) {
    && Distinct(order)
    && (forall k :: k in m ==> k in order)
    && (forall k :: k in order ==> k in m)
  }

  /**
   * The orders in which the four `range` loops visit the configured maps.
   * Go randomises map iteration, so each loop may pick its own order.
   */
  datatype Orders = Orders(
    labels: seq<string>,
    annotations: seq<string>,
    templateLabels: seq<string>,
    templateAnnotations: seq<string>)

  predicate ValidOrders(ord: Orders, cfg: Config) {
    && Enumerates(ord.labels, cfg.labels)
    && Enumerates(ord.annotations, cfg.annotations)
    && Enumerates(ord.templateLabels, cfg.labels)
    && Enumerates(ord.templateAnnotations, cfg.annotations)
  }

  /** One `add prefix+key = m[key]` per key of `order`, in that order. */
  function KeyOps(prefix: string, m: map<string, string>, order: seq<string>): (ops: seq<PatchOp>)
    requires forall k :: k in order ==> k in m
  {
    if order == [] then []
    else KeyOps(prefix, m, order[..|order| - 1]) + [Add(prefix + order[|order| - 1], Str(m[order[|order| - 1]]))]
  }

  /**
   * For each key of `order`, the pod-template label operation immediately
   * followed by the selector operation for the same key and value.
   */
  function PairOps(m: map<string, string>, order: seq<string>): (ops: seq<PatchOp>)
    requires forall k :: k in order ==> k in m
  {
    if order == [] then []
    else
      var key := order[|order| - 1];
      PairOps(m, order[..|order| - 1]) + [Add(TemplateLabelPrefix + key, Str(m[key])), Add(MatchLabelPrefix + key, Str(m[key]))]
  }

  /** `KeyOps` has one operation per key of `order`, at that key's index. */
  lemma {:induction false} KeyOpsAt(prefix: string, m: map<string, string>, order: seq<string>)
    requires forall k :: k in order ==> k in m
    ensures |KeyOps(prefix, m, order)| == |order|
    ensures forall i :: 0 <= i < |order| ==>
      KeyOps(prefix, m, order)[i] == Add(prefix + order[i], Str(m[order[i]]))
  {
    if order != [] {
      KeyOpsAt(prefix, m, order[..|order| - 1]);
    }
  }

  /** `PairOps` has two operations per key of `order`, at twice that key's index and the next. */
  lemma {:induction false} PairOpsAt(m: map<string, string>, order: seq<string>)
    requires forall k :: k in order ==> k in m
    ensures |PairOps(m, order)| == 2 * |order|
    ensures forall j :: 0 <= j < |order| ==>
      && PairOps(m, order)[2 * j] == Add(TemplateLabelPrefix + order[j], Str(m[order[j]]))
      && PairOps(m, order)[2 * j + 1] == Add(MatchLabelPrefix + order[j], Str(m[order[j]]))
  {
    if order != [] {
      PairOpsAt(m, order[..|order| - 1]);
    }
  }

  /** An enumeration of a map has exactly one entry per key. */
  lemma {:induction false} EnumerationSize(order: seq<string>, m: map<string, string>)
    requires Enumerates(order, m)
    ensures |order| == |m|
  {
    if order == [] {
      assert m == map[];
    } else {
      var k := order[0];
      var rest := m - {k};
      assert forall j :: 0 < j < |order| ==> order[j] != k;
      assert Enumerates(order[1..], rest);
      EnumerationSize(order[1..], rest);
      assert m.Keys == rest.Keys + {k};
    }
  }

  /** Every operation of `PairOps` is an `add`. */
  lemma {:induction false} PairOpsAdds(m: map<string, string>, order: seq<string>)
    requires forall k :: k in order ==> k in m
    ensures forall i :: 0 <= i < |PairOps(m, order)| ==> PairOps(m, order)[i].op == "add"
  {
    if order != [] {
      PairOpsAdds(m, order[..|order| - 1]);
    }
  }

  /** `add path = {}` when the map at `path` is absent, nothing otherwise. */
  function CreateIfAbsent(m: Option<map<string, string>>, path: string): (r: seq<PatchOp>) {
    if m.None? then [Add(path, EmptyObject)] else []
  }

  /** The operations for the object's own metadata: absent maps created first, then every key. */
  function MetadataOps(meta: ObjectMeta, cfg: Config, labelOrder: seq<string>, annotationOrder: seq<string>): (r: seq<PatchOp>)
    requires Enumerates(labelOrder, cfg.labels) && Enumerates(annotationOrder, cfg.annotations)
  {
    CreateIfAbsent(meta.labels, LabelsPath)
    + CreateIfAbsent(meta.annotations, AnnotationsPath)
    + KeyOps(LabelPrefix, cfg.labels, labelOrder)
    + KeyOps(AnnotationPrefix, cfg.annotations, annotationOrder)
  }

  /** The operations for the pod template, emitted only when its labels are present. */
  function TemplateOps(tmpl: ObjectMeta, cfg: Config, labelOrder: seq<string>, annotationOrder: seq<string>): (r: seq<PatchOp>)
    requires Enumerates(labelOrder, cfg.labels) && Enumerates(annotationOrder, cfg.annotations)
  {
    if tmpl.labels.None? then []
    else
      PairOps(cfg.labels, labelOrder)
      + CreateIfAbsent(tmpl.annotations, TemplateAnnotationsPath)
      + KeyOps(TemplateAnnotationPrefix, cfg.annotations, annotationOrder)
  }

  /**
   * The patch `patchBuilder` returns for `obj` when its loops visit the
   * configured maps in the orders `ord`.
   */
  function Build(obj: GenericK8sObject, cfg: Config, ord: Orders): (patch: seq<PatchOp>)
    requires ValidOrders(ord, cfg)
  {
    MetadataOps(obj.metadata, cfg, ord.labels, ord.annotations)
    + TemplateOps(obj.spec.template.metadata, cfg, ord.templateLabels, ord.templateAnnotations)
  }

  lemma Regroup(m: seq<PatchOp>, p: seq<PatchOp>, c: seq<PatchOp>, k: seq<PatchOp>)
    ensures m + p + c + k == m + (p + c + k)
  {
  }

  /** `op` is `add prefix+k = m[k]` for some key `k` of `m`. */
  predicate IsKeyOp(op: PatchOp, prefix: string, m: map<string, string>) {
    exists k :: k in m && op == Add(prefix + k, Str(m[k]))
  }

  /** Key `k`'s operation `add prefix+k = m[k]` occurs in `out` from index `from` on. */
  predicate HasKeyOp(out: seq<PatchOp>, from: nat, prefix: string, m: map<string, string>, k: string)
    requires k in m
  {
    exists i :: from <= i < |out| && out[i] == Add(prefix + k, Str(m[k]))
  }

  /**
   * From index `from` on, `out` holds the pod-template label operation for
   * `k` immediately followed by the selector operation for `k`.
   */
  predicate HasPairOp(out: seq<PatchOp>, from: nat, m: map<string, string>, k: string)
    requires k in m
  {
    exists i :: from <= i < |out| - 1
      && out[i] == Add(TemplateLabelPrefix + k, Str(m[k]))
      && out[i + 1] == Add(MatchLabelPrefix + k, Str(m[k]))
  }

  /**
   * Whatever order a run of `range` takes, appending `KeyOps` adds one
   * operation per key of `m`, each setting a key of `m` to its value, and
   * every key gets one.
   */
  lemma AppendedKeyOps(patches: seq<PatchOp>, prefix: string, m: map<string, string>, order: seq<string>)
    requires Enumerates(order, m)
    ensures var out := patches + KeyOps(prefix, m, order);
      && |out| == |patches| + |m| && out[..|patches|] == patches
      && (forall i :: |patches| <= i < |out| ==> IsKeyOp(out[i], prefix, m))
      && (forall k :: k in m ==> HasKeyOp(out, |patches|, prefix, m, k))
  {
    var ops := KeyOps(prefix, m, order);
    var out := patches + ops;
    KeyOpsAt(prefix, m, order);
    EnumerationSize(order, m);
    forall i | |patches| <= i < |out|
      ensures IsKeyOp(out[i], prefix, m)
    {
      var k := order[i - |patches|];
      assert out[i] == Add(prefix + k, Str(m[k]));
    }
    forall k | k in m
      ensures HasKeyOp(out, |patches|, prefix, m, k)
    {
      var j :| 0 <= j < |order| && order[j] == k;
      assert out[|patches| + j] == ops[j];
    }
  }

  /**
   * Whatever order a run of `range` takes, appending `PairOps` adds two
   * `add` operations per key of `m`, and every key gets its adjacent pair.
   */
  lemma AppendedPairOps(patches: seq<PatchOp>, m: map<string, string>, order: seq<string>)
    requires Enumerates(order, m)
    ensures var out := patches + PairOps(m, order);
      && |out| == |patches| + 2 * |m| && out[..|patches|] == patches
      && (forall i :: |patches| <= i < |out| ==> out[i].op == "add")
      && (forall k :: k in m ==> HasPairOp(out, |patches|, m, k))
  {
    var ops := PairOps(m, order);
    var out := patches + ops;
    PairOpsAt(m, order);
    PairOpsAdds(m, order);
    EnumerationSize(order, m);
    forall i | |patches| <= i < |out|
      ensures out[i].op == "add"
    {
      assert out[i] == ops[i - |patches|];
    }
    forall k | k in m
      ensures HasPairOp(out, |patches|, m, k)
    {
      var j :| 0 <= j < |order| && order[j] == k;
      assert out[|patches| + 2 * j] == ops[2 * j];
      assert out[|patches| + 2 * j + 1] == ops[2 * j + 1];
    }
  }

  /**
   * `for key, value := range m { patches = append(patches, add prefix+key = value) }`.
   * The loop visits the keys in an arbitrary order, which it reports as
   * `order`. Whatever the order, it appends one operation per key of `m`,
   * each setting a key of `m` to its value, and every key gets one.
   */
  method AppendKeyOps(patches: seq<PatchOp>, prefix: string, m: map<string, string>)
    returns (out: seq<PatchOp>, ghost order: seq<string>)
    ensures Enumerates(order, m)
    ensures out == patches + KeyOps(prefix, m, order)
    ensures |out| == |patches| + |m| && out[..|patches|] == patches
    ensures forall i :: |patches| <= i < |out| ==> IsKeyOp(out[i], prefix, m)
    ensures forall k :: k in m ==> HasKeyOp(out, |patches|, prefix, m, k)
  {
    out, order := patches, [];
    var remaining := m.Keys;
    while remaining != {}
      invariant Distinct(order)
      invariant forall k :: k in m <==> k in remaining || k in order
      invariant forall k :: k in remaining ==> k !in order
      invariant out == patches + KeyOps(prefix, m, order)
      decreases remaining
    {
      var key :| key in remaining;
      out := out + [Add(prefix + key, Str(m[key]))];
      order := order + [key];
      remaining := remaining - {key};
    }
    AppendedKeyOps(patches, prefix, m, order);
  }

  /**
   * The template loop: `for key, value := range labels` appending the
   * pod-template label and then the selector label for each key. Whatever
   * the order, it appends two `add` operations per key of `m`, and every
   * key gets its adjacent pair.
   */
  method AppendPairOps(patches: seq<PatchOp>, m: map<string, string>)
    returns (out: seq<PatchOp>, ghost order: seq<string>)
    ensures Enumerates(order, m)
    ensures out == patches + PairOps(m, order)
    ensures |out| == |patches| + 2 * |m| && out[..|patches|] == patches
    ensures forall i :: |patches| <= i < |out| ==> out[i].op == "add"
    ensures forall k :: k in m ==> HasPairOp(out, |patches|, m, k)
  {
    out, order := patches, [];
    var remaining := m.Keys;
    while remaining != {}
      invariant Distinct(order)
      invariant forall k :: k in m <==> k in remaining || k in order
      invariant forall k :: k in remaining ==> k !in order
      invariant out == patches + PairOps(m, order)
      decreases remaining
    {
      var key :| key in remaining;
      var value := m[key];
      out := out + [Add(TemplateLabelPrefix + key, Str(value))];
      out := out + [Add(MatchLabelPrefix + key, Str(value))];
      order := order + [key];
      remaining := remaining - {key};
    }
    AppendedPairOps(patches, m, order);
  }

  /** One operation when the map is absent (the `add path = {}` that creates it), none otherwise. */
  function Count(m: Option<map<string, string>>): (r: nat) {
    if m.None? then 1 else 0
  }

  /** Every operation of `s` is an `add`. */
  predicate AllAdds(s: seq<PatchOp>) {
    forall i :: 0 <= i < |s| ==> s[i].op == "add"
  }

  /**
   * The metadata half of `patchBuilder`: the absent maps created, then the
   * labels loop and the annotations loop. Whatever orders the loops take,
   * it emits only `add` operations: one per absent map and one per
   * configured key.
   */
  method AppendMetadataOps(meta: ObjectMeta, cfg: Config)
    returns (patches: seq<PatchOp>, ghost labelOrder: seq<string>, ghost annotationOrder: seq<string>)
    ensures Enumerates(labelOrder, cfg.labels) && Enumerates(annotationOrder, cfg.annotations)
    ensures patches == MetadataOps(meta, cfg, labelOrder, annotationOrder)
    ensures |patches| == Count(meta.labels) + Count(meta.annotations) + |cfg.labels| + |cfg.annotations|
    ensures AllAdds(patches)
  {
    patches := [];
    if meta.labels.None? {
      patches := patches + [Add(LabelsPath, EmptyObject)];
    }
    if meta.annotations.None? {
      patches := patches + [Add(AnnotationsPath, EmptyObject)];
    }
    ghost var parents := patches;
    assert parents == CreateIfAbsent(meta.labels, LabelsPath) + CreateIfAbsent(meta.annotations, AnnotationsPath);
    assert AllAdds(parents);
    patches, labelOrder := AppendKeyOps(patches, LabelPrefix, cfg.labels);
    KeyOpsKeepAdds(parents, patches, LabelPrefix, cfg.labels);
    ghost var withLabels := patches;
    patches, annotationOrder := AppendKeyOps(patches, AnnotationPrefix, cfg.annotations);
    KeyOpsKeepAdds(withLabels, patches, AnnotationPrefix, cfg.annotations);
  }

  /** Appending key operations to a patch of `add`s leaves a patch of `add`s. */
  lemma KeyOpsKeepAdds(patches: seq<PatchOp>, out: seq<PatchOp>, prefix: string, m: map<string, string>)
    requires AllAdds(patches)
    requires |patches| <= |out| && out[..|patches|] == patches
    requires forall i :: |patches| <= i < |out| ==> IsKeyOp(out[i], prefix, m)
    ensures AllAdds(out)
  {
    forall i | 0 <= i < |out|
      ensures out[i].op == "add"
    {
      if i < |patches| {
        assert out[i] == patches[i];
      } else {
        assert IsKeyOp(out[i], prefix, m);
      }
    }
  }

  /**
   * The first part of the pod-template half: the label/selector pairs, then
   * the template annotations created when `annotations` is absent. It
   * appends only `add` operations: two per configured label and one if the
   * annotations are absent.
   */
  method AppendTemplateLabelOps(patches: seq<PatchOp>, annotations: Option<map<string, string>>, cfg: Config)
    returns (out: seq<PatchOp>, ghost order: seq<string>)
    ensures Enumerates(order, cfg.labels)
    ensures out == patches + PairOps(cfg.labels, order) + CreateIfAbsent(annotations, TemplateAnnotationsPath)
    ensures |out| == |patches| + 2 * |cfg.labels| + Count(annotations)
    ensures forall i :: |patches| <= i < |out| ==> out[i].op == "add"
  {
    out, order := AppendPairOps(patches, cfg.labels);
    ghost var withPairs := out;
    if annotations.None? {
      out := out + [Add(TemplateAnnotationsPath, EmptyObject)];
      assert out[|withPairs|].op == "add";
    }
  }

  /**
   * The pod-template half of `patchBuilder`, run only when the template's
   * labels are present: the label/selector pairs, the template annotations
   * created when absent, then the annotations loop. It appends only `add`
   * operations: two per configured label, one if the template annotations
   * are absent, and one per configured annotation. When it does not run,
   * the loop orders are the given `labelOrder` and `annotationOrder`.
   */
  method AppendTemplateOps(patches: seq<PatchOp>, tmpl: ObjectMeta, cfg: Config,
                           ghost labelOrder: seq<string>, ghost annotationOrder: seq<string>)
    returns (out: seq<PatchOp>, ghost templateLabelOrder: seq<string>, ghost templateAnnotationOrder: seq<string>)
    requires Enumerates(labelOrder, cfg.labels) && Enumerates(annotationOrder, cfg.annotations)
    ensures Enumerates(templateLabelOrder, cfg.labels) && Enumerates(templateAnnotationOrder, cfg.annotations)
    ensures out == patches + TemplateOps(tmpl, cfg, templateLabelOrder, templateAnnotationOrder)
    ensures |out| == |patches| + (if tmpl.labels.Some? then 2 * |cfg.labels| + Count(tmpl.annotations) + |cfg.annotations| else 0)
    ensures forall i :: |patches| <= i < |out| ==> out[i].op == "add"
  {
    out, templateLabelOrder, templateAnnotationOrder := patches, labelOrder, annotationOrder;
    if tmpl.labels.None? {
      assert out == patches + [];
      return;
    }
    out, templateLabelOrder := AppendTemplateLabelOps(out, tmpl.annotations, cfg);
    ghost var withParent := out;
    out, templateAnnotationOrder := AppendKeyOps(out, TemplateAnnotationPrefix, cfg.annotations);
    forall i | |withParent| <= i < |out|
      ensures out[i].op == "add"
    {
      assert IsKeyOp(out[i], TemplateAnnotationPrefix, cfg.annotations);
    }
    Regroup(patches, PairOps(cfg.labels, templateLabelOrder), CreateIfAbsent(tmpl.annotations, TemplateAnnotationsPath),
      KeyOps(TemplateAnnotationPrefix, cfg.annotations, templateAnnotationOrder));
  }

  /**
   * `patchBuilder`: the patches slice grown step by step. The metadata maps
   * are created first when absent; the pod template is patched only when
   * its labels are present. The returned `ord` records the orders its four
   * loops happened to take. Whatever those orders, every operation is an
   * `add`, and the patch has one operation per absent metadata map, one per
   * configured label and annotation, and, for a template with labels, two
   * per label, one if its annotations are absent and one per annotation.
   */
  method PatchBuilder(obj: GenericK8sObject, cfg: Config)
    returns (patches: seq<PatchOp>, ghost ord: Orders)
    ensures ValidOrders(ord, cfg)
    ensures patches == Build(obj, cfg, ord)
    ensures AllAdds(patches)
    ensures var tmpl := obj.spec.template.metadata;
      |patches|
      == Count(obj.metadata.labels) + Count(obj.metadata.annotations) + |cfg.labels| + |cfg.annotations|
         + (if tmpl.labels.Some? then 2 * |cfg.labels| + Count(tmpl.annotations) + |cfg.annotations| else 0)
  {
    ghost var labelOrder, annotationOrder, templateLabelOrder, templateAnnotationOrder;
    patches, labelOrder, annotationOrder := AppendMetadataOps(obj.metadata, cfg);
    ghost var metadataPart := patches;
    patches, templateLabelOrder, templateAnnotationOrder :=
      AppendTemplateOps(patches, obj.spec.template.metadata, cfg, labelOrder, annotationOrder);
    assert AllAdds(patches) by {
      forall i | 0 <= i < |patches|
        ensures patches[i].op == "add"
      {
        if i < |metadataPart| {
          assert patches[i] == metadataPart[i];
        }
      }
    }
    ord := Orders(labelOrder, annotationOrder, templateLabelOrder, templateAnnotationOrder);
  }
}

/**
 * The admitted object as a JSON document that a JSON Patch is applied to,
 * restricted to the five string maps the webhook's patches address, and the
 * `add` operation of section 4.1 of RFC 6902 on it.
 */
module Document {
  import opened Wrappers
  import opened JsonPatch
  import opened Utils

  /** The five maps a patch can address. */
  datatype Loc = Labels | Annotations | TemplateLabels | TemplateAnnotations | MatchLabels

  /** The reference tokens of the pointer to each map. */
  function LocTokens(loc: Loc): (r: seq<string>) {
    match loc
    case Labels => ["metadata", "labels"]
    case Annotations => ["metadata", "annotations"]
    case TemplateLabels => ["spec", "template", "metadata", "labels"]
    case TemplateAnnotations => ["spec", "template", "metadata", "annotations"]
    case MatchLabels => ["spec", "selector", "matchLabels"]
  }

  /** The map, if any, that the token list `ts` points to. */
  function LocOf(ts: seq<string>): (r: Option<Loc>)
    ensures r.Some? ==> LocTokens(r.value) == ts
  {
    if ts == LocTokens(Labels) then Some(Labels)
    else if ts == LocTokens(Annotations) then Some(Annotations)
    else if ts == LocTokens(TemplateLabels) then Some(TemplateLabels)
    else if ts == LocTokens(TemplateAnnotations) then Some(TemplateAnnotations)
    else if ts == LocTokens(MatchLabels) then Some(MatchLabels)
    else None
  }

  lemma LocOfLocTokens(loc: Loc)
    ensures LocOf(LocTokens(loc)) == Some(loc)
  {
    assert "selector" != "template";
  }

  lemma LocTokensPlain(loc: Loc)
    ensures forall i :: 0 <= i < |LocTokens(loc)| ==> PlainToken(LocTokens(loc)[i])
  {
  }

  /** What a patch path addresses: one of the maps as a whole, or one member of it. */
  datatype Target = Whole(loc: Loc) | Member(loc: Loc, key: string)

  /** The target a path addresses, or `None` for a path outside the five maps. */
  function Resolve(path: string): (r: Option<Target>) {
    match Tokens(path)
    case None => None
    case Some(ts) =>
      match LocOf(ts)
      case Some(loc) => Some(Whole(loc))
      case None =>
        if ts == [] then None
        else
          match LocOf(ts[..|ts| - 1])
          case Some(loc) => Some(Member(loc, ts[|ts| - 1]))
          case None => None
  }

  /** The pointer to a map resolves to that map. */
  lemma ResolveWhole(loc: Loc)
    ensures Resolve(Pointer(LocTokens(loc))) == Some(Whole(loc))
  {
    LocTokensPlain(loc);
    TokensOfPointer(LocTokens(loc));
    LocOfLocTokens(loc);
  }

  /** The pointer to a plain key under a map resolves to that member. */
  lemma ResolveMember(loc: Loc, key: string)
    requires PlainToken(key)
    ensures Resolve(Pointer(LocTokens(loc) + [key])) == Some(Member(loc, key))
  {
    var ts := LocTokens(loc) + [key];
    LocTokensPlain(loc);
    TokensOfPointer(ts);
    assert ts[..|ts| - 1] == LocTokens(loc);
    LocOfLocTokens(loc);
    assert "selector" != "template";
    assert LocOf(ts) == None;
  }

  /**
   * The document: the admitted object's view plus the selector's
   * `matchLabels`, which the object view does not read but the patch writes.
   * The containers of the five maps (`/metadata`, `/spec/template/metadata`,
   * `/spec/selector`) are taken to exist.
   */
  datatype Doc = Doc(obj: GenericK8sObject, matchLabels: Option<map<string, string>>)

  /** The map at `loc`; `None` when it is absent. */
  function Get(d: Doc, loc: Loc): (r: Option<map<string, string>>) {
    match loc
    case Labels => d.obj.metadata.labels
    case Annotations => d.obj.metadata.annotations
    case TemplateLabels => d.obj.spec.template.metadata.labels
    case TemplateAnnotations => d.obj.spec.template.metadata.annotations
    case MatchLabels => d.matchLabels
  }

  /** The document with the map at `loc` set to `v` and nothing else changed. */
  function Put(d: Doc, loc: Loc, v: Option<map<string, string>>): (r: Doc)
    ensures Get(r, loc) == v
    ensures forall l :: l != loc ==> Get(r, l) == Get(d, l)
  {
    match loc
    case Labels => d.(obj := d.obj.(metadata := d.obj.metadata.(labels := v)))
    case Annotations => d.(obj := d.obj.(metadata := d.obj.metadata.(annotations := v)))
    case TemplateLabels =>
      var t := d.obj.spec.template;
      d.(obj := d.obj.(spec := Spec(t.(metadata := t.metadata.(labels := v)))))
    case TemplateAnnotations =>
      var t := d.obj.spec.template;
      d.(obj := d.obj.(spec := Spec(t.(metadata := t.metadata.(annotations := v)))))
    case MatchLabels => d.(matchLabels := v)
  }

  /** A document is determined by its five maps. */
  lemma DocEquality(d: Doc, e: Doc)
    requires forall l :: Get(d, l) == Get(e, l)
    ensures d == e
  {
    assert Get(d, Labels) == Get(e, Labels) && Get(d, Annotations) == Get(e, Annotations);
    assert Get(d, TemplateLabels) == Get(e, TemplateLabels);
    assert Get(d, TemplateAnnotations) == Get(e, TemplateAnnotations);
    assert Get(d, MatchLabels) == Get(e, MatchLabels);
  }

  /**
   * One operation under section 4.1 of RFC 6902. `add` at a map replaces the
   * map whether or not it exists; `add` at a member requires the map to
   * exist and sets that member, replacing any value it had. Other operations,
   * other paths and values the maps cannot hold make the patch fail.
   */
  function ApplyOp(d: Doc, op: PatchOp): (r: Option<Doc>) {
    if op.op != "add" then None
    else
      match Resolve(op.path)
      case None => None
      case Some(Whole(loc)) =>
        if op.value == EmptyObject then Some(Put(d, loc, Some(map[]))) else None
      case Some(Member(loc, key)) =>
        match (Get(d, loc), op.value)
        case (Some(m), Str(v)) => Some(Put(d, loc, Some(m[key := v])))
        case _ => None
  }

  /** A whole patch: its operations in order; the first failure fails the patch. */
  function Apply(d: Doc, ops: seq<PatchOp>): (r: Option<Doc>)
    decreases |ops|
  {
    if ops == [] then Some(d)
    else
      match ApplyOp(d, ops[0])
      case None => None
      case Some(d') => Apply(d', ops[1..])
  }

  /** Applying `a + b` is applying `a`, then `b` to the result. */
  lemma {:induction false} ApplyAppend(d: Doc, a: seq<PatchOp>, b: seq<PatchOp>)
    ensures Apply(d, a + b) == (match Apply(d, a) case None => None case Some(d') => Apply(d', b))
    decreases |a|
  {
    if a != [] {
      assert (a + b)[0] == a[0];
      assert (a + b)[1..] == a[1..] + b;
      match ApplyOp(d, a[0])
      case None =>
      case Some(d') => ApplyAppend(d', a[1..], b);
    } else {
      assert a + b == b;
    }
  }
}

/**
 * JSON Patch operations (RFC 6902) and the JSON Pointers (RFC 6901) that
 * address their targets. Only what the webhook emits is modelled: an
 * operation record `{op, path, value}` whose value is a string or the empty
 * object, and pointers built from reference tokens that need no escaping.
 */
module JsonPatch {
  import opened Wrappers

  /** The `value` member of an emitted operation: a label/annotation value or `{}`. */
  datatype Value = Str(s: string) | EmptyObject

  /** One JSON Patch operation, as the untyped `{op, path, value}` record the source builds. */
  datatype PatchOp = PatchOp(op: string, path: string, value: Value)

  /** An `add` operation (section 4.1 of RFC 6902). */
  function Add(path: string, value: Value): (r: PatchOp)
    ensures r.op == "add" && r.path == path && r.value == value
  {
    PatchOp("add", path, value)
  }

  /** A reference token that RFC 6901 would not escape: it holds neither '/' nor '~'. */
  predicate PlainToken(t: string) {
    '/' !in t && '~' !in t
  }

  /** The JSON Pointer whose reference tokens are `tokens`: "/" before each token. */
  function Pointer(tokens: seq<string>): (p: string) {
    if tokens == [] then "" else "/" + tokens[0] + Pointer(tokens[1..])
  }

  /** Length of the longest prefix of `s` free of '/'. */
  function SlashFree(s: string): (i: nat)
    ensures i <= |s|
    ensures forall j :: 0 <= j < i ==> s[j] != '/'
    ensures i < |s| ==> s[i] == '/'
  {
    if s == [] || s[0] == '/' then 0 else 1 + SlashFree(s[1..])
  }

  /**
   * The reference tokens of a pointer (section 3 of RFC 6901, without the
   * `~0`/`~1` escapes): the empty pointer has none, every other pointer is a
   * sequence of "/"-prefixed tokens. `None` for a string that is not a pointer.
   */
  function Tokens(p: string): (r: Option<seq<string>>)
    decreases |p|
  {
    if p == [] then Some([])
    else if p[0] != '/' then None
    else
      var i := SlashFree(p[1..]);
      match Tokens(p[1 + i..])
      case None => None
      case Some(rest) => Some([p[1..1 + i]] + rest)
  }

  lemma {:induction false} SlashFreeOfToken(t: string, tail: string)
    requires PlainToken(t)
    requires tail == [] || tail[0] == '/'
    ensures SlashFree(t + tail) == |t|
  {
    if t != [] {
      assert (t + tail)[1..] == t[1..] + tail;
      SlashFreeOfToken(t[1..], tail);
    }
  }

  lemma TokenSlices(t: string, tail: string)
    ensures ("/" + t + tail)[1..] == t + tail
    ensures ("/" + t + tail)[1 + |t|..] == tail
    ensures ("/" + t + tail)[1..1 + |t|] == t
  {
  }

  /** Reading back the tokens of a pointer built from plain tokens gives those tokens. */
  lemma {:induction false} TokensOfPointer(ts: seq<string>)
    requires forall i :: 0 <= i < |ts| ==> PlainToken(ts[i])
    ensures Tokens(Pointer(ts)) == Some(ts)
  {
    if ts != [] {
      var tail := Pointer(ts[1..]);
      assert Pointer(ts) == "/" + ts[0] + tail;
      assert tail == [] || tail[0] == '/';
      TokenSlices(ts[0], tail);
      SlashFreeOfToken(ts[0], tail);
      TokensOfPointer(ts[1..]);
      assert [ts[0]] + ts[1..] == ts;
    }
  }

  /** `s` starts with `prefix`. */
  predicate HasPrefix(s: string, prefix: string) {
    |prefix| <= |s| && s[..|prefix|] == prefix
  }
}

/**
 * A backend adapter fills a record by a chain of setter calls starting
 * from `Metadata::new(mode)`, e.g.
 * `Metadata::new(mode).with_content_length(n).with_etag(e)`.
 * A `Setter` is one such call; `Apply` performs it through the matching
 * `with_*` function and `ApplyAll` performs a whole chain from left to
 * right. The lemmas say what any chain does to the presence set and to
 * the fields.
 */
module Builder {
  import opened Keys
  import opened Meta

  /** One setter call, carrying the value it stores. */
  datatype Setter<Range, Time> =
    | SetMode(mode: EntryMode)
    | SetCacheControl(cacheControl: string)
    | SetContentDisposition(contentDisposition: string)
    | SetContentLength(contentLength: U64)
    | SetContentMd5(contentMd5: string)
    | SetContentRange(contentRange: Range)
    | SetContentType(contentType: string)
    | SetEtag(etag: string)
    | SetLastModified(lastModified: Time)
    | SetVersion(version: string)
  {
    /** The presence key the setter adds. */
    function Key(): (k: Metakey)
      ensures k != Metakey.Complete
    {
      match this
      case SetMode(_) => Metakey.Mode
      case SetCacheControl(_) => Metakey.CacheControl
      case SetContentDisposition(_) => Metakey.ContentDisposition
      case SetContentLength(_) => Metakey.ContentLength
      case SetContentMd5(_) => Metakey.ContentMd5
      case SetContentRange(_) => Metakey.ContentRange
      case SetContentType(_) => Metakey.ContentType
      case SetEtag(_) => Metakey.Etag
      case SetLastModified(_) => Metakey.LastModified
      case SetVersion(_) => Metakey.Version
    }
  }

  /** The field named by `op.Key()` holds exactly the value `op` carries. */
  ghost predicate Holds<Range, Time>(m: Metadata<Range, Time>, op: Setter<Range, Time>) {
    match op
    case SetMode(v) => m.mode == v
    case SetCacheControl(v) => m.cacheControl == Some(v)
    case SetContentDisposition(v) => m.contentDisposition == Some(v)
    case SetContentLength(v) => m.contentLength == Some(v)
    case SetContentMd5(v) => m.contentMd5 == Some(v)
    case SetContentRange(v) => m.contentRange == Some(v)
    case SetContentType(v) => m.contentType == Some(v)
    case SetEtag(v) => m.etag == Some(v)
    case SetLastModified(v) => m.lastModified == Some(v)
    case SetVersion(v) => m.version == Some(v)
  }

  /** Holding the value of `op` depends only on the field `op` names. */
  lemma HoldsOnlyReadsItsField<Range, Time>(a: Metadata<Range, Time>, b: Metadata<Range, Time>, op: Setter<Range, Time>)
    requires AgreeOn(a, b, op.Key())
    ensures Holds(a, op) <==> Holds(b, op)
  {
  }

  /**
   * One setter call: its field takes the value, its key is added to the
   * presence set, and nothing else moves.
   */
  function Apply<Range, Time>(m: Metadata<Range, Time>, op: Setter<Range, Time>): (r: Metadata<Range, Time>)
    ensures r.bit == m.bit + {op.Key()}
    ensures Holds(r, op)
    ensures SameExcept(m, r, op.Key())
  {
    match op
    case SetMode(v) => m.WithMode(v)
    case SetCacheControl(v) => m.WithCacheControl(v)
    case SetContentDisposition(v) => m.WithContentDisposition(v)
    case SetContentLength(v) => m.WithContentLength(v)
    case SetContentMd5(v) => m.WithContentMd5(v)
    case SetContentRange(v) => m.WithContentRange(v)
    case SetContentType(v) => m.WithContentType(v)
    case SetEtag(v) => m.WithEtag(v)
    case SetLastModified(v) => m.WithLastModified(v)
    case SetVersion(v) => m.WithVersion(v)
  }

  /** A whole chain of setter calls, applied from left to right. */
  function ApplyAll<Range, Time>(m: Metadata<Range, Time>, ops: seq<Setter<Range, Time>>): Metadata<Range, Time>
    decreases |ops|
  {
    if ops == [] then m else ApplyAll(Apply(m, ops[0]), ops[1..])
  }

  /** The presence keys a chain of setter calls adds. */
  function KeysOf<Range, Time>(ops: seq<Setter<Range, Time>>): set<Metakey> {
    set i | 0 <= i < |ops| :: ops[i].Key()
  }

  lemma KeysOfCons<Range, Time>(ops: seq<Setter<Range, Time>>)
    requires ops != []
    ensures KeysOf(ops) == {ops[0].Key()} + KeysOf(ops[1..])
  {
  }

  /** Setting is never a toggle: a chain only ever adds its keys. */
  lemma {:induction false} ApplyAllPresence<Range, Time>(m: Metadata<Range, Time>, ops: seq<Setter<Range, Time>>)
    ensures ApplyAll(m, ops).bit == m.bit + KeysOf(ops)
    decreases |ops|
  {
    if ops != [] {
      KeysOfCons(ops);
      ApplyAllPresence(Apply(m, ops[0]), ops[1..]);
    }
  }

  /** Whatever a record could answer before a chain, it still answers after. */
  lemma ApplyAllKeepsContains<Range, Time>(m: Metadata<Range, Time>, ops: seq<Setter<Range, Time>>, q: set<Metakey>)
    requires m.ContainsBit(q)
    ensures ApplyAll(m, ops).ContainsBit(q)
  {
    ApplyAllPresence(m, ops);
  }

  /**
   * A record built by `new(mode)` and a chain answers a query exactly when
   * it is a directory, or the query asks only for the mode and the keys
   * the chain set.
   */
  lemma NewThenChainContains<Range, Time>(mode: EntryMode, ops: seq<Setter<Range, Time>>, q: set<Metakey>)
    ensures ApplyAll(New<Range, Time>(mode), ops).ContainsBit(q) <==>
            mode.IsDir() || q <= {Metakey.Mode} + KeysOf(ops)
  {
    ApplyAllPresence(New<Range, Time>(mode), ops);
  }

  /** A chain leaves the fields it does not name alone. */
  lemma {:induction false} ApplyAllUntouched<Range, Time>(m: Metadata<Range, Time>, ops: seq<Setter<Range, Time>>, k: Metakey)
    requires k !in KeysOf(ops)
    ensures AgreeOn(m, ApplyAll(m, ops), k)
    decreases |ops|
  {
    if ops != [] {
      KeysOfCons(ops);
      ApplyAllUntouched(Apply(m, ops[0]), ops[1..], k);
      AgreeOnTransitive(m, Apply(m, ops[0]), ApplyAll(Apply(m, ops[0]), ops[1..]), k);
    }
  }

  lemma AgreeOnTransitive<Range, Time>(a: Metadata<Range, Time>, b: Metadata<Range, Time>, c: Metadata<Range, Time>, k: Metakey)
    requires AgreeOn(a, b, k) && AgreeOn(b, c, k)
    ensures AgreeOn(a, c, k)
  {
  }

  /** Running two chains one after the other is running their concatenation. */
  lemma {:induction false} ApplyAllAppend<Range, Time>(m: Metadata<Range, Time>, xs: seq<Setter<Range, Time>>, ys: seq<Setter<Range, Time>>)
    ensures ApplyAll(m, xs + ys) == ApplyAll(ApplyAll(m, xs), ys)
    decreases |xs|
  {
    if xs != [] {
      assert (xs + ys)[1..] == xs[1..] + ys;
      ApplyAllAppend(Apply(m, xs[0]), xs[1..], ys);
    } else {
      assert xs + ys == ys;
    }
  }

  /**
   * The last write wins: after a chain in which `op` is the last setter of
   * its key, the field holds the value `op` wrote.
   */
  lemma LastWriteWins<Range, Time>(m: Metadata<Range, Time>, before: seq<Setter<Range, Time>>, op: Setter<Range, Time>, after: seq<Setter<Range, Time>>)
    requires op.Key() !in KeysOf(after)
    ensures Holds(ApplyAll(m, before + [op] + after), op)
  {
    var mid := ApplyAll(m, before);
    ApplyAllAppend(m, before + [op], after);
    ApplyAllAppend(m, before, [op]);
    assert ApplyAll(mid, [op]) == Apply(mid, op);
    ApplyAllUntouched(Apply(mid, op), after, op.Key());
    HoldsOnlyReadsItsField(Apply(mid, op), ApplyAll(Apply(mid, op), after), op);
  }

  /**
   * Every setter keeps the presence invariant: an attribute key is present
   * exactly when its field holds a value.
   */
  lemma ApplyTracked<Range, Time>(m: Metadata<Range, Time>, op: Setter<Range, Time>)
    requires Tracked(m)
    ensures Tracked(Apply(m, op))
  {
  }

  lemma {:induction false} ApplyAllTracked<Range, Time>(m: Metadata<Range, Time>, ops: seq<Setter<Range, Time>>)
    requires Tracked(m)
    ensures Tracked(ApplyAll(m, ops))
    decreases |ops|
  {
    if ops != [] {
      ApplyTracked(m, ops[0]);
      ApplyAllTracked(Apply(m, ops[0]), ops[1..]);
    }
  }

  /**
   * On any record that `new` and a chain of setters produced, a getter
   * whose own key is present (not merely licensed by `Complete`) returns a
   * value, never the empty one.
   */
  lemma NewThenChainPresentIsStored<Range, Time>(mode: EntryMode, ops: seq<Setter<Range, Time>>, k: Metakey)
    requires k in ApplyAll(New<Range, Time>(mode), ops).bit
    ensures Stored(ApplyAll(New<Range, Time>(mode), ops), k)
  {
    NewTracked<Range, Time>(mode);
    ApplyAllTracked(New<Range, Time>(mode), ops);
  }

  /** A second write to the same key overrides the first completely. */
  lemma ApplyShadows<Range, Time>(m: Metadata<Range, Time>, a: Setter<Range, Time>, b: Setter<Range, Time>)
    requires a.Key() == b.Key()
    ensures Apply(Apply(m, a), b) == Apply(m, b)
  {
  }

  /** Writes to different keys do not interfere: their order is irrelevant. */
  lemma ApplyCommutes<Range, Time>(m: Metadata<Range, Time>, a: Setter<Range, Time>, b: Setter<Range, Time>)
    requires a.Key() != b.Key()
    ensures Apply(Apply(m, a), b) == Apply(Apply(m, b), a)
  {
  }
}

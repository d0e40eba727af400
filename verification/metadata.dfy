/**
 * The metadata record of an entry, as a value: its mode, nine optional
 * attributes and the presence set `bit` that says which of them the
 * producing backend filled in. The getters, `contains_bit` and the
 * consuming `with_*` builders are functions on this value; the in-place
 * `set_*` methods live on the class in module InPlace.
 *
 * `DateTime<Utc>` and `BytesContentRange` are foreign types used only as
 * stored values; they are the type parameters `Time` and `Range`.
 */
module Meta {
  import opened Keys

  datatype Option<T> = None | Some(value: T)

  /** Rust `u64`. */
  type U64 = n: int | 0 <= n < 0x1_0000_0000_0000_0000

  /** The kind of an entry (`EntryMode::FILE`, `EntryMode::DIR`, `EntryMode::Unknown`). */
  datatype EntryMode = File | Dir | Unknown {
    predicate IsDir() {
      this == Dir
    }
  }

  datatype Metadata<Range, Time> = Metadata(
    bit: set<Metakey>,
    mode: EntryMode,
    cacheControl: Option<string>,
    contentDisposition: Option<string>,
    contentLength: Option<U64>,
    contentMd5: Option<string>,
    contentRange: Option<Range>,
    contentType: Option<string>,
    etag: Option<string>,
    lastModified: Option<Time>,
    version: Option<string>)
  {
    /**
     * The guard every getter asserts in debug builds: its own key or
     * `Complete` is in the presence set.
     */
    predicate Has(k: Metakey)
      ensures Has(k) <==> k in bit || Metakey.Complete in bit
    {
      Contains(bit, {k}) || Contains(bit, {Metakey.Complete})
    }

    /** `bit()`: the presence set itself. */
    function Bit(): (r: set<Metakey>)
      ensures ContainsBit(r)
      ensures forall k :: k in r ==> Has(k)
    {
      bit
    }

    /** `with_bit`: replace the presence set wholesale, keep every field. */
    function WithBit(b: set<Metakey>): (r: Metadata<Range, Time>)
      ensures r.Bit() == b
      ensures SameFields(this, r)
    {
      this.(bit := b)
    }

    /**
     * `contains_bit`: a record holding `Complete` answers every query;
     * otherwise the query must be contained in the presence set.
     */
    predicate ContainsBit(query: set<Metakey>)
      ensures ContainsBit(query) <==> forall k :: k in query ==> Has(k)
    {
      if Metakey.Complete in bit then true else Contains(bit, query)
    }

    function Mode(): (r: EntryMode)
      requires Has(Metakey.Mode)
      ensures r == File <==> IsFile()
      ensures r == Dir <==> IsDir()
    {
      mode
    }

    function IsFile(): (r: bool)
      ensures r ==> !mode.IsDir()
      ensures r <==> mode != Dir && mode != Unknown
    {
      mode == File
    }

    function IsDir(): (r: bool)
      ensures r ==> !IsFile()
      ensures r <==> mode.IsDir()
    {
      mode == Dir
    }

    function WithMode(v: EntryMode): (r: Metadata<Range, Time>)
      ensures r.bit == bit + {Metakey.Mode}
      ensures r.Has(Metakey.Mode) && r.Mode() == v
      ensures SameExcept(this, r, Metakey.Mode)
    {
      this.(mode := v, bit := bit + {Metakey.Mode})
    }

    function CacheControl(): (r: Option<string>)
      requires Has(Metakey.CacheControl)
      ensures Tracked(this) ==> (r.Some? <==> Metakey.CacheControl in bit)
    {
      cacheControl
    }

    function WithCacheControl(v: string): (r: Metadata<Range, Time>)
      ensures r.bit == bit + {Metakey.CacheControl}
      ensures r.Has(Metakey.CacheControl) && r.CacheControl() == Some(v)
      ensures SameExcept(this, r, Metakey.CacheControl)
    {
      this.(cacheControl := Some(v), bit := bit + {Metakey.CacheControl})
    }

    /**
     * `content_length`: an unset length reads as 0 (`unwrap_or_default`);
     * otherwise the stored length is returned.
     */
    function ContentLength(): (r: U64)
      requires Has(Metakey.ContentLength)
      ensures ContentLengthRaw() == Some(r) || (ContentLengthRaw() == None && r == 0)
    {
      match contentLength
      case Some(n) => n
      case None => 0
    }

    /** `content_length_raw`: the stored field, unguarded. */
    function ContentLengthRaw(): (r: Option<U64>)
      ensures Tracked(this) ==> (r.Some? <==> Metakey.ContentLength in bit)
    {
      contentLength
    }

    function WithContentLength(v: U64): (r: Metadata<Range, Time>)
      ensures r.bit == bit + {Metakey.ContentLength}
      ensures r.Has(Metakey.ContentLength) && r.ContentLength() == v
      ensures r.ContentLengthRaw() == Some(v)
      ensures SameExcept(this, r, Metakey.ContentLength)
    {
      this.(contentLength := Some(v), bit := bit + {Metakey.ContentLength})
    }

    function ContentMd5(): (r: Option<string>)
      requires Has(Metakey.ContentMd5)
      ensures Tracked(this) ==> (r.Some? <==> Metakey.ContentMd5 in bit)
    {
      contentMd5
    }

    function WithContentMd5(v: string): (r: Metadata<Range, Time>)
      ensures r.bit == bit + {Metakey.ContentMd5}
      ensures r.Has(Metakey.ContentMd5) && r.ContentMd5() == Some(v)
      ensures SameExcept(this, r, Metakey.ContentMd5)
    {
      this.(contentMd5 := Some(v), bit := bit + {Metakey.ContentMd5})
    }

    function ContentType(): (r: Option<string>)
      requires Has(Metakey.ContentType)
      ensures Tracked(this) ==> (r.Some? <==> Metakey.ContentType in bit)
    {
      contentType
    }

    function WithContentType(v: string): (r: Metadata<Range, Time>)
      ensures r.bit == bit + {Metakey.ContentType}
      ensures r.Has(Metakey.ContentType) && r.ContentType() == Some(v)
      ensures SameExcept(this, r, Metakey.ContentType)
    {
      this.(contentType := Some(v), bit := bit + {Metakey.ContentType})
    }

    function ContentRange(): (r: Option<Range>)
      requires Has(Metakey.ContentRange)
      ensures Tracked(this) ==> (r.Some? <==> Metakey.ContentRange in bit)
    {
      contentRange
    }

    function WithContentRange(v: Range): (r: Metadata<Range, Time>)
      ensures r.bit == bit + {Metakey.ContentRange}
      ensures r.Has(Metakey.ContentRange) && r.ContentRange() == Some(v)
      ensures SameExcept(this, r, Metakey.ContentRange)
    {
      this.(contentRange := Some(v), bit := bit + {Metakey.ContentRange})
    }

    function LastModified(): (r: Option<Time>)
      requires Has(Metakey.LastModified)
      ensures Tracked(this) ==> (r.Some? <==> Metakey.LastModified in bit)
    {
      lastModified
    }

    function WithLastModified(v: Time): (r: Metadata<Range, Time>)
      ensures r.bit == bit + {Metakey.LastModified}
      ensures r.Has(Metakey.LastModified) && r.LastModified() == Some(v)
      ensures SameExcept(this, r, Metakey.LastModified)
    {
      this.(lastModified := Some(v), bit := bit + {Metakey.LastModified})
    }

    /** The ETag is kept verbatim: quotes and a `W/` prefix are part of it. */
    function Etag(): (r: Option<string>)
      requires Has(Metakey.Etag)
      ensures Tracked(this) ==> (r.Some? <==> Metakey.Etag in bit)
    {
      etag
    }

    function WithEtag(v: string): (r: Metadata<Range, Time>)
      ensures r.bit == bit + {Metakey.Etag}
      ensures r.Has(Metakey.Etag) && r.Etag() == Some(v)
      ensures SameExcept(this, r, Metakey.Etag)
    {
      this.(etag := Some(v), bit := bit + {Metakey.Etag})
    }

    function ContentDisposition(): (r: Option<string>)
      requires Has(Metakey.ContentDisposition)
      ensures Tracked(this) ==> (r.Some? <==> Metakey.ContentDisposition in bit)
    {
      contentDisposition
    }

    function WithContentDisposition(v: string): (r: Metadata<Range, Time>)
      ensures r.bit == bit + {Metakey.ContentDisposition}
      ensures r.Has(Metakey.ContentDisposition) && r.ContentDisposition() == Some(v)
      ensures SameExcept(this, r, Metakey.ContentDisposition)
    {
      this.(contentDisposition := Some(v), bit := bit + {Metakey.ContentDisposition})
    }

    function Version(): (r: Option<string>)
      requires Has(Metakey.Version)
      ensures Tracked(this) ==> (r.Some? <==> Metakey.Version in bit)
    {
      version
    }

    function WithVersion(v: string): (r: Metadata<Range, Time>)
      ensures r.bit == bit + {Metakey.Version}
      ensures r.Has(Metakey.Version) && r.Version() == Some(v)
      ensures SameExcept(this, r, Metakey.Version)
    {
      this.(version := Some(v), bit := bit + {Metakey.Version})
    }
  }

  /**
   * `Metadata::new`: the mode is always recorded, a directory is also
   * marked `Complete`, and no optional attribute is set.
   */
  function New<Range, Time>(mode: EntryMode): (r: Metadata<Range, Time>)
    ensures Metakey.Mode in r.bit
    ensures Metakey.Complete in r.bit <==> mode.IsDir()
    ensures r.bit <= {Metakey.Mode, Metakey.Complete}
    ensures r.Mode() == mode
    ensures forall k :: IsAttribute(k) ==> !Stored(r, k)
  {
    var bit := if mode.IsDir() then {Metakey.Mode, Metakey.Complete} else {Metakey.Mode};
    Metadata(bit, mode, None, None, None, None, None, None, None, None, None)
  }

  /** `a` and `b` hold the same value in the field named by `k` (`bit` aside). */
  ghost predicate AgreeOn<Range, Time>(a: Metadata<Range, Time>, b: Metadata<Range, Time>, k: Metakey) {
    match k
    case Complete => true
    case Mode => a.mode == b.mode
    case CacheControl => a.cacheControl == b.cacheControl
    case ContentDisposition => a.contentDisposition == b.contentDisposition
    case ContentLength => a.contentLength == b.contentLength
    case ContentMd5 => a.contentMd5 == b.contentMd5
    case ContentRange => a.contentRange == b.contentRange
    case ContentType => a.contentType == b.contentType
    case Etag => a.etag == b.etag
    case LastModified => a.lastModified == b.lastModified
    case Version => a.version == b.version
  }

  /** Every field other than the one named by `k` (and `bit`) is unchanged. */
  ghost predicate SameExcept<Range, Time>(a: Metadata<Range, Time>, b: Metadata<Range, Time>, k: Metakey) {
    forall j :: j != k ==> AgreeOn(a, b, j)
  }

  /** Every field (`bit` aside) is unchanged. */
  ghost predicate SameFields<Range, Time>(a: Metadata<Range, Time>, b: Metadata<Range, Time>) {
    forall j :: AgreeOn(a, b, j)
  }

  /** The optional field named by `k` holds a value; the mode is always held. */
  ghost predicate Stored<Range, Time>(m: Metadata<Range, Time>, k: Metakey) {
    match k
    case Complete => true
    case Mode => true
    case CacheControl => m.cacheControl.Some?
    case ContentDisposition => m.contentDisposition.Some?
    case ContentLength => m.contentLength.Some?
    case ContentMd5 => m.contentMd5.Some?
    case ContentRange => m.contentRange.Some?
    case ContentType => m.contentType.Some?
    case Etag => m.etag.Some?
    case LastModified => m.lastModified.Some?
    case Version => m.version.Some?
  }

  /**
   * The presence set tracks exactly the attributes that were filled in:
   * `Mode` is present, and an attribute key is present precisely when its
   * field holds a value. `new` and every setter keep this; `with_bit` can
   * break it.
   */
  ghost predicate Tracked<Range, Time>(m: Metadata<Range, Time>) {
    Metakey.Mode in m.bit &&
    forall k :: IsAttribute(k) ==> (k in m.bit <==> Stored(m, k))
  }

  /**
   * A write that stores a value in the field named by `k`, adds `k` to the
   * presence set and leaves every other field alone keeps the presence
   * invariant.
   */
  lemma SetterKeepsTracked<Range, Time>(m: Metadata<Range, Time>, r: Metadata<Range, Time>, k: Metakey)
    requires k != Metakey.Complete
    requires r.bit == m.bit + {k} && Stored(r, k) && SameExcept(m, r, k)
    ensures Tracked(m) ==> Tracked(r)
  {
    if Tracked(m) {
      forall j | IsAttribute(j) ensures j in r.bit <==> Stored(r, j) {
        if j != k {
          assert AgreeOn(m, r, j);
        }
      }
    }
  }

  /**
   * `Complete` in the presence set, or a record answering the query for
   * `Complete` alone, makes every `contains_bit` query succeed.
   */
  lemma CompleteAnswersEveryQuery<Range, Time>(m: Metadata<Range, Time>, q: set<Metakey>)
    ensures Metakey.Complete in m.bit ==> m.ContainsBit(q)
    ensures m.ContainsBit({Metakey.Complete}) ==> m.ContainsBit(q)
  {
  }

  /** A record built by `new` satisfies the presence invariant. */
  lemma NewTracked<Range, Time>(mode: EntryMode)
    ensures Tracked(New<Range, Time>(mode))
  {
  }

  /**
   * A directory record answers every query and every getter may be called;
   * the optional getters all return their empty value.
   */
  lemma NewDirIsComplete<Range, Time>(q: set<Metakey>)
    ensures New<Range, Time>(Dir).ContainsBit(q)
    ensures New<Range, Time>(Dir).ContainsBit(AllKeys)
    ensures forall k :: New<Range, Time>(Dir).Has(k)
    ensures var m := New<Range, Time>(Dir);
      m.Mode() == Dir && m.IsDir() && m.ContentLength() == 0 &&
      m.CacheControl() == None && m.ContentDisposition() == None &&
      m.ContentMd5() == None && m.ContentRange() == None &&
      m.ContentType() == None && m.Etag() == None &&
      m.LastModified() == None && m.Version() == None
  {
  }

  /**
   * A file (or unknown) record answers a query exactly when the query asks
   * for nothing beyond the mode; in particular the content length getter
   * is not yet licensed.
   */
  lemma NewFileContainsOnlyMode<Range, Time>(mode: EntryMode, q: set<Metakey>)
    requires !mode.IsDir()
    ensures New<Range, Time>(mode).ContainsBit(q) <==> q <= {Metakey.Mode}
    ensures !New<Range, Time>(mode).Has(Metakey.ContentLength)
    ensures !New<Range, Time>(mode).ContainsBit(AllKeys)
  {
  }

  /** `is_dir` of a fresh record agrees with its `Complete` mark. */
  lemma NewIsDirIffComplete<Range, Time>(mode: EntryMode)
    ensures New<Range, Time>(mode).IsDir() <==> Metakey.Complete in New<Range, Time>(mode).bit
    ensures New<Range, Time>(mode).IsFile() <==> mode == File
  {
  }

  /**
   * On a tracked record the default 0 of `content_length` is only ever
   * returned when the read is licensed by `Complete`, never when the
   * `ContentLength` key itself is present.
   */
  lemma ContentLengthDefaultOnlyUnderComplete<Range, Time>(m: Metadata<Range, Time>)
    requires Tracked(m) && m.Has(Metakey.ContentLength)
    requires m.ContentLengthRaw() == None
    ensures Metakey.Complete in m.bit
    ensures m.ContentLength() == 0
  {
  }

  /**
   * `set_mode` twice: the presence set is the same as after one call and
   * the mode is the last one written.
   */
  lemma WithModeTwice<Range, Time>(m: Metadata<Range, Time>, v1: EntryMode, v2: EntryMode)
    ensures m.WithMode(v1).WithMode(v2).bit == m.WithMode(v1).bit
    ensures m.WithMode(v1).WithMode(v2).Mode() == v2
    ensures m.WithMode(v1).WithMode(v2) == m.WithMode(v2)
  {
  }

  /** `with_bit` changes the answers to queries and nothing else. */
  lemma WithBitOnlyPresence<Range, Time>(m: Metadata<Range, Time>, b: set<Metakey>, q: set<Metakey>)
    ensures m.WithBit(b).ContainsBit(q) <==> Metakey.Complete in b || q <= b
    ensures m.WithBit(m.Bit()) == m
  {
  }
}

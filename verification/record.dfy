/**
 * The record as a mutable object: `Metadata::new` and the in-place
 * `set_*` methods that update one field and `bit |= key`. Each method is
 * specified by the consuming `with_*` function of module Meta applied to
 * the value the object held before the call, so the two setter forms end
 * in the same state.
 */
module InPlace {
  import opened Keys
  import opened Meta

  class Record<Range, Time> {
    var bit: set<Metakey>
    var mode: EntryMode
    var cacheControl: Option<string>
    var contentDisposition: Option<string>
    var contentLength: Option<U64>
    var contentMd5: Option<string>
    var contentRange: Option<Range>
    var contentType: Option<string>
    var etag: Option<string>
    var lastModified: Option<Time>
    var version: Option<string>

    /** The value the object currently holds; getters read it through this. */
    function Value(): Metadata<Range, Time>
      reads this
    {
      Metadata(bit, mode, cacheControl, contentDisposition, contentLength,
               contentMd5, contentRange, contentType, etag, lastModified, version)
    }

    /** The presence invariant of Meta.Tracked, on the object's fields. */
    ghost predicate Valid()
      reads this
    {
      Tracked(Value())
    }

    /** `Metadata::new`: records the mode, and `Complete` for a directory. */
    constructor (mode: EntryMode)
      ensures Value() == New(mode)
      ensures Valid()
      ensures Metakey.Complete in bit <==> mode.IsDir()
    {
      var b := {Metakey.Mode};
      if mode.IsDir() {
        b := b + {Metakey.Complete};
      }
      this.bit := b;
      this.mode := mode;
      cacheControl := None;
      contentDisposition := None;
      contentLength := None;
      contentMd5 := None;
      contentRange := None;
      contentType := None;
      etag := None;
      lastModified := None;
      version := None;
      new;
      NewTracked<Range, Time>(mode);
    }

    method SetMode(v: EntryMode)
      modifies this
      ensures Value() == old(Value()).WithMode(v)
      ensures mode == v && bit == old(bit) + {Metakey.Mode}
      ensures old(Valid()) ==> Valid()
    {
      mode := v;
      bit := bit + {Metakey.Mode};
      SetterKeepsTracked(old(Value()), Value(), Metakey.Mode);
    }

    method SetCacheControl(v: string)
      modifies this
      ensures Value() == old(Value()).WithCacheControl(v)
      ensures cacheControl == Some(v) && bit == old(bit) + {Metakey.CacheControl}
      ensures old(Valid()) ==> Valid()
    {
      cacheControl := Some(v);
      bit := bit + {Metakey.CacheControl};
      SetterKeepsTracked(old(Value()), Value(), Metakey.CacheControl);
    }

    method SetContentLength(v: U64)
      modifies this
      ensures Value() == old(Value()).WithContentLength(v)
      ensures contentLength == Some(v) && bit == old(bit) + {Metakey.ContentLength}
      ensures old(Valid()) ==> Valid()
    {
      contentLength := Some(v);
      bit := bit + {Metakey.ContentLength};
      SetterKeepsTracked(old(Value()), Value(), Metakey.ContentLength);
    }

    method SetContentMd5(v: string)
      modifies this
      ensures Value() == old(Value()).WithContentMd5(v)
      ensures contentMd5 == Some(v) && bit == old(bit) + {Metakey.ContentMd5}
      ensures old(Valid()) ==> Valid()
    {
      contentMd5 := Some(v);
      bit := bit + {Metakey.ContentMd5};
      SetterKeepsTracked(old(Value()), Value(), Metakey.ContentMd5);
    }

    method SetContentType(v: string)
      modifies this
      ensures Value() == old(Value()).WithContentType(v)
      ensures contentType == Some(v) && bit == old(bit) + {Metakey.ContentType}
      ensures old(Valid()) ==> Valid()
    {
      contentType := Some(v);
      bit := bit + {Metakey.ContentType};
      SetterKeepsTracked(old(Value()), Value(), Metakey.ContentType);
    }

    method SetContentRange(v: Range)
      modifies this
      ensures Value() == old(Value()).WithContentRange(v)
      ensures contentRange == Some(v) && bit == old(bit) + {Metakey.ContentRange}
      ensures old(Valid()) ==> Valid()
    {
      contentRange := Some(v);
      bit := bit + {Metakey.ContentRange};
      SetterKeepsTracked(old(Value()), Value(), Metakey.ContentRange);
    }

    method SetLastModified(v: Time)
      modifies this
      ensures Value() == old(Value()).WithLastModified(v)
      ensures lastModified == Some(v) && bit == old(bit) + {Metakey.LastModified}
      ensures old(Valid()) ==> Valid()
    {
      lastModified := Some(v);
      bit := bit + {Metakey.LastModified};
      SetterKeepsTracked(old(Value()), Value(), Metakey.LastModified);
    }

    /** The ETag is stored as given, quotes and `W/` prefix included. */
    method SetEtag(v: string)
      modifies this
      ensures Value() == old(Value()).WithEtag(v)
      ensures etag == Some(v) && bit == old(bit) + {Metakey.Etag}
      ensures old(Valid()) ==> Valid()
    {
      etag := Some(v);
      bit := bit + {Metakey.Etag};
      SetterKeepsTracked(old(Value()), Value(), Metakey.Etag);
    }

    method SetContentDisposition(v: string)
      modifies this
      ensures Value() == old(Value()).WithContentDisposition(v)
      ensures contentDisposition == Some(v) && bit == old(bit) + {Metakey.ContentDisposition}
      ensures old(Valid()) ==> Valid()
    {
      contentDisposition := Some(v);
      bit := bit + {Metakey.ContentDisposition};
      SetterKeepsTracked(old(Value()), Value(), Metakey.ContentDisposition);
    }

    method SetVersion(v: string)
      modifies this
      ensures Value() == old(Value()).WithVersion(v)
      ensures version == Some(v) && bit == old(bit) + {Metakey.Version}
      ensures old(Valid()) ==> Valid()
    {
      version := Some(v);
      bit := bit + {Metakey.Version};
      SetterKeepsTracked(old(Value()), Value(), Metakey.Version);
    }
  }
}

/**
 * The presence set of a metadata record: the `Metakey` enumeration and the
 * `FlagSet<Metakey>` that records which attributes a backend has filled in.
 * The bit-level encoding of the flag set is not modelled; a flag set is a
 * finite set of keys, `|=` is union and `contains` is inclusion.
 */
module Keys {

  /** The keys that can be stored in, or queried from, a metadata record. */
  datatype Metakey =
    | Complete            // special key: the record holds every attribute
    | Mode
    | CacheControl
    | ContentDisposition
    | ContentLength
    | ContentMd5
    | ContentRange
    | ContentType
    | Etag
    | LastModified
    | Version

  /** Every key of the enumeration. */
  const AllKeys: set<Metakey> := {
    Complete, Mode, CacheControl, ContentDisposition, ContentLength,
    ContentMd5, ContentRange, ContentType, Etag, LastModified, Version
  }

  /** The keys that name an optional attribute field of the record. */
  predicate IsAttribute(k: Metakey) {
    k != Complete && k != Mode
  }

  /** `FlagSet::contains`: every flag of `query` is also set in `flags`. */
  predicate Contains(flags: set<Metakey>, query: set<Metakey>)
    ensures Contains(flags, query) <==> flags * query == query
    ensures Contains(flags, query) <==> flags + query == flags
  {
    query <= flags
  }

  /** The enumeration has exactly eleven keys, and `AllKeys` lists each of them. */
  lemma AllKeysIsEverything(k: Metakey)
    ensures k in AllKeys
    ensures |AllKeys| == 11
  {
  }

  /**
   * A query made of one key is contained in a union exactly when it is
   * contained in one of the two sides; a larger query may be split between
   * them, so for it only one direction holds.
   */
  lemma ContainsUnion(a: set<Metakey>, b: set<Metakey>, q: set<Metakey>)
    ensures Contains(a, q) || Contains(b, q) ==> Contains(a + b, q)
    ensures |q| == 1 ==> (Contains(a + b, q) <==> Contains(a, q) || Contains(b, q))
  {
    if |q| == 1 {
      var k :| k in q;
      var rest := q - {k};
      assert q == rest + {k};
      assert rest == {};
      assert q == {k};
    }
  }
}

# Metadata records with presence tracking

This project models the `Metadata` record of a storage-access layer that fronts many backends
(core/src/types/metadata.rs). A backend fills in a `Metadata` record for each entry it
stats or lists. The record holds:

- the entry's mode: file, directory or unknown;
- nine optional attributes: cache control, content disposition, content length, content MD5,
  content range, content type, ETag, last modified and version;
- a presence set `bit` over the `Metakey` enumeration, which says which attributes the
  backend actually filled in.

`Metakey::Complete` is a super-flag. When it is present, every query and every getter is
allowed.

The model has four modules:

- `Keys` (keys.dfy): the `Metakey` enumeration. `FlagSet<Metakey>` becomes `set<Metakey>`,
  `|=` becomes union and `FlagSet::contains` becomes inclusion.
- `Meta` (metadata.dfy): the record as a value (`datatype Metadata`) and `Metadata::new`
  (`New`). It also holds `bit` / `with_bit` / `contains_bit`, the mode getters, and every
  attribute getter with its consuming `with_*` builder. Each getter's `debug_assert!` guard
  (its key or `Complete` is in `bit`) is the getter's `requires` clause (`Has`). This module
  also defines the presence invariant `Tracked`: `Mode` is present, and an attribute's key is
  present exactly when its field holds a value.
- `Builder` (builder.dfy): a chain of setter calls as data (`Setter`, `Apply`, `ApplyAll`),
  such as `Metadata::new(m).with_content_length(n).with_etag(e)`. The lemmas here say what any
  chain does to the presence set and to the fields.
- `InPlace` (record.dfy): the record as a mutable object (`class Record`). The constructor
  runs `new`'s conditional update of a local presence set. Each in-place `set_*` method is
  specified by the matching `with_*` function applied to the object's previous value, so the
  two setter forms provably end in the same state.

`DateTime<Utc>` and `BytesContentRange` are foreign types that the record only stores. They
are the type parameters `Time` and `Range`. `u64` is the subset type `U64`.

Three points where the model follows the code closely:

- The `Complete` short-circuit is not part of the flag set's own `contains`. It lives in
  `Metadata::contains_bit` and in each getter's guard, and the model puts it in the same two
  places.
- The union law for one-key queries holds for every key, `Complete` included. For a query of
  several keys only one direction holds (`Keys.ContainsUnion`).
- The getters guard with `debug_assert!` and do not fail in release builds. The model makes
  every guard a precondition. `content_length` falls back to 0 when its field is unset.

## Model

| member | source | states |
|---|---|---|
| `Keys.ContainsUnion` | core/src/types/metadata.rs:89-98 | A query contained in either side is contained in their union; for a one-key query this is an if-and-only-if |
| `Meta.Metadata.WithBit` | core/src/types/metadata.rs:77-86 | `with_bit(b)`: `bit()` of the result is `b` and every field is unchanged |
| `Meta.WithBitOnlyPresence` | core/src/types/metadata.rs:82-98 | After `with_bit(b)`, `contains_bit(q)` holds iff `Complete` is in `b` or `q` is a subset of `b`; `with_bit(bit())` is the identity |
| `Keys.AllKeysIsEverything` | core/src/types/metadata.rs:527-552 | The `Metakey` enumeration has exactly eleven keys, and `AllKeys` lists every one of them |
| `Keys.Contains` | core/src/types/metadata.rs:97 | `FlagSet::contains(q)` (inclusion) holds iff intersecting with `q` yields `q`, equivalently iff `|= q` leaves the set unchanged |
| `Meta.Metadata.Has` | core/src/types/metadata.rs:102-105 | The guard each getter asserts: the getter's key is in `bit` or `Complete` is in `bit`, written with two `FlagSet::contains` calls as in the source |
| `Meta.Metadata.Bit` | core/src/types/metadata.rs:77-80 | `bit()` returns the presence set; a record always answers `contains_bit` for its own presence set, and every key in it passes the getter guard |
| `Meta.Metadata.ContainsBit` | core/src/types/metadata.rs:88-98 | `contains_bit(q)` holds iff every key of `q` passes the getter guard, so `Complete` in `bit` answers every query |
| `Meta.CompleteAnswersEveryQuery` | core/src/types/metadata.rs:92-95 | `Complete` in `bit`, or a record answering the query for `Complete` alone, makes every `contains_bit` query succeed |
| `Meta.Metadata.Mode` | core/src/types/metadata.rs:100-108 | `mode()`: callable only when `Mode` or `Complete` is in `bit`; the returned mode is `FILE` iff `is_file()` and `DIR` iff `is_dir()` |
| `Meta.Metadata.IsFile` | core/src/types/metadata.rs:110-113 | `is_file()` excludes a directory and holds exactly for the `FILE` mode (neither `DIR` nor `Unknown`) |
| `Meta.Metadata.ContentLengthRaw` | core/src/types/metadata.rs:184-187 | `content_length_raw()` is unguarded; on a record satisfying the presence invariant it is `Some` iff `ContentLength` is in `bit` |
| `Meta.Metadata.CacheControl` | core/src/types/metadata.rs:134-144 | `cache_control()`: callable only when `CacheControl` or `Complete` is in `bit`; under the presence invariant it returns a value iff `CacheControl` itself is in `bit` |
| `Meta.Metadata.ContentMd5` | core/src/types/metadata.rs:203-221 | `content_md5()`: callable only when `ContentMd5` or `Complete` is in `bit`; under the presence invariant it returns a value iff `ContentMd5` itself is in `bit` |
| `Meta.Metadata.ContentType` | core/src/types/metadata.rs:243-258 | `content_type()`: callable only when `ContentType` or `Complete` is in `bit`; under the presence invariant it returns a value iff `ContentType` itself is in `bit` |
| `Meta.Metadata.ContentRange` | core/src/types/metadata.rs:278-293 | `content_range()`: callable only when `ContentRange` or `Complete` is in `bit`; under the presence invariant it returns a value iff `ContentRange` itself is in `bit` |
| `Meta.Metadata.LastModified` | core/src/types/metadata.rs:313-331 | `last_modified()`: callable only when `LastModified` or `Complete` is in `bit`; under the presence invariant it returns a value iff `LastModified` itself is in `bit` |
| `Meta.Metadata.Etag` | core/src/types/metadata.rs:353-376 | `etag()`: callable only when `Etag` or `Complete` is in `bit`; under the presence invariant it returns a value iff `Etag` itself is in `bit` |
| `Meta.Metadata.ContentDisposition` | core/src/types/metadata.rs:412-435 | `content_disposition()`: callable only when `ContentDisposition` or `Complete` is in `bit`; under the presence invariant it returns a value iff `ContentDisposition` itself is in `bit` |
| `Meta.Metadata.Version` | core/src/types/metadata.rs:471-488 | `version()`: callable only when `Version` or `Complete` is in `bit`; under the presence invariant it returns a value iff `Version` itself is in `bit` |
| `Meta.Metadata.IsDir` | core/src/types/metadata.rs:110-118 | `is_dir` excludes `is_file` and agrees with `EntryMode::is_dir` of the stored mode |
| `Meta.Metadata.WithMode` | core/src/types/metadata.rs:100-132 | `with_mode(v)`: `bit` gains exactly `Mode`, `mode()` is then callable and returns `v`, and every other field is unchanged |
| `Meta.Metadata.WithCacheControl` | core/src/types/metadata.rs:134-164 | `with_cache_control(v)`: `bit` gains exactly `CacheControl`, the guarded getter returns `Some(v)`, and every other field is unchanged |
| `Meta.Metadata.ContentLength` | core/src/types/metadata.rs:166-187 | The guarded `content_length` returns the raw stored length, or 0 when `content_length_raw` is `None` |
| `Meta.Metadata.WithContentLength` | core/src/types/metadata.rs:189-201 | `with_content_length(v)`: `bit` gains exactly `ContentLength`, `content_length()` returns `v` and `content_length_raw()` returns `Some(v)`; every other field is unchanged |
| `Meta.Metadata.WithContentMd5` | core/src/types/metadata.rs:203-241 | `with_content_md5(v)`: `bit` gains exactly `ContentMd5`, the getter returns `Some(v)`, and every other field is unchanged |
| `Meta.Metadata.WithContentType` | core/src/types/metadata.rs:243-276 | `with_content_type(v)`: `bit` gains exactly `ContentType`, the getter returns `Some(v)`, and every other field is unchanged |
| `Meta.Metadata.WithContentRange` | core/src/types/metadata.rs:278-311 | `with_content_range(v)`: `bit` gains exactly `ContentRange`, the getter returns `Some(v)`, and every other field is unchanged |
| `Meta.Metadata.WithLastModified` | core/src/types/metadata.rs:313-351 | `with_last_modified(v)`: `bit` gains exactly `LastModified`, the getter returns `Some(v)`, and every other field is unchanged |
| `Meta.Metadata.WithEtag` | core/src/types/metadata.rs:353-410 | `with_etag(v)`: `bit` gains exactly `Etag`, and `etag()` returns `Some(v)` verbatim for every string, quotes and `W/` prefix included; every other field is unchanged |
| `Meta.Metadata.WithContentDisposition` | core/src/types/metadata.rs:412-452 | `with_content_disposition(v)`: `bit` gains exactly `ContentDisposition`, the getter returns `Some(v)` verbatim, and every other field is unchanged |
| `Meta.Metadata.WithVersion` | core/src/types/metadata.rs:471-499 | `with_version(v)`: `bit` gains exactly `Version`, the getter returns `Some(v)`, and every other field is unchanged |
| `Meta.New` | core/src/types/metadata.rs:50-75 | `new(mode)`: `Mode` is in `bit`, `Complete` is in `bit` iff the mode is a directory, nothing else is in `bit`, `mode()` returns `mode`, and all nine attributes are unset |
| `Meta.NewTracked` | core/src/types/metadata.rs:52-75 | A record built by `new` satisfies the presence invariant |
| `Meta.NewDirIsComplete` | core/src/types/metadata.rs:55-58 | For `new(DIR)`, every query succeeds (the query of all keys included), every getter's guard holds, and every optional getter returns its empty value (0 for the length) |
| `Meta.NewFileContainsOnlyMode` | core/src/types/metadata.rs:52-58 | For `new` of a non-directory, `contains_bit(q)` holds iff `q` asks for at most `Mode`; the content length guard and the query of all keys fail |
| `Meta.NewIsDirIffComplete` | core/src/types/metadata.rs:110-118 | On a fresh record `is_dir` holds iff `Complete` is present, and `is_file` iff the mode is `FILE` |
| `Meta.ContentLengthDefaultOnlyUnderComplete` | core/src/types/metadata.rs:175-182 | On a record that satisfies the presence invariant, `content_length` falls back to 0 only when the read is licensed by `Complete` |
| `Meta.WithModeTwice` | core/src/types/metadata.rs:120-132 | Setting the mode twice leaves the same presence set as setting it once; the mode is the last one written, and the record equals a single write |
| `Meta.SetterKeepsTracked` | core/src/types/metadata.rs:150-153 | A write that stores a value, adds its own key and changes no other field keeps the presence invariant |
| `Builder.Apply` | core/src/types/metadata.rs:121-510 | Any one setter call stores its value, adds exactly its own key to `bit`, and leaves every other field alone |
| `Builder.ApplyAllPresence` | core/src/types/metadata.rs:121-510 | After any chain of setter calls, `bit` is the old `bit` plus exactly the keys of the chain (setting never toggles or removes) |
| `Builder.ApplyAllKeepsContains` | core/src/types/metadata.rs:89-98 | A query that `contains_bit` answered before a setter chain is still answered after it |
| `Builder.NewThenChainContains` | core/src/types/metadata.rs:52-98 | A record from `new(mode)` followed by a chain answers `q` iff it is a directory, or `q` asks only for `Mode` and the chain's keys |
| `Builder.ApplyAllUntouched` | core/src/types/metadata.rs:121-510 | A setter chain leaves every field it does not name unchanged |
| `Builder.LastWriteWins` | core/src/types/metadata.rs:121-510 | After a chain in which a setter is the last to write its key, that field holds the setter's value |
| `Builder.ApplyTracked` | core/src/types/metadata.rs:121-510 | Every setter call keeps the presence invariant |
| `Builder.ApplyAllTracked` | core/src/types/metadata.rs:121-510 | Every setter chain keeps the presence invariant |
| `Builder.NewThenChainPresentIsStored` | core/src/types/metadata.rs:52-510 | On a record built by `new` and setters, every attribute whose own key is present holds a value |
| `Builder.ApplyShadows` | core/src/types/metadata.rs:121-510 | A second write to the same key overrides the first completely (idempotent presence, last value kept) |
| `Builder.ApplyCommutes` | core/src/types/metadata.rs:121-510 | Writes to different keys commute |
| `InPlace.Record.constructor` | core/src/types/metadata.rs:52-75 | The object built in place holds exactly `New(mode)`, satisfies the presence invariant, and carries `Complete` iff it is a directory |
| `InPlace.Record.SetMode` | core/src/types/metadata.rs:120-125 | `set_mode(v)` leaves the object holding `with_mode(v)` of its previous value and keeps the presence invariant |
| `InPlace.Record.SetCacheControl` | core/src/types/metadata.rs:146-154 | `set_cache_control(v)` leaves the object holding `with_cache_control(v)` of its previous value and keeps the presence invariant |
| `InPlace.Record.SetContentLength` | core/src/types/metadata.rs:189-194 | `set_content_length(v)` leaves the object holding `with_content_length(v)` of its previous value and keeps the presence invariant |
| `InPlace.Record.SetContentMd5` | core/src/types/metadata.rs:223-231 | `set_content_md5(v)` leaves the object holding `with_content_md5(v)` of its previous value and keeps the presence invariant |
| `InPlace.Record.SetContentType` | core/src/types/metadata.rs:260-267 | `set_content_type(v)` leaves the object holding `with_content_type(v)` of its previous value and keeps the presence invariant |
| `InPlace.Record.SetContentRange` | core/src/types/metadata.rs:295-302 | `set_content_range(v)` leaves the object holding `with_content_range(v)` of its previous value and keeps the presence invariant |
| `InPlace.Record.SetLastModified` | core/src/types/metadata.rs:333-341 | `set_last_modified(v)` leaves the object holding `with_last_modified(v)` of its previous value and keeps the presence invariant |
| `InPlace.Record.SetEtag` | core/src/types/metadata.rs:378-393 | `set_etag(v)` leaves the object holding `with_etag(v)` of its previous value (the string stored verbatim) and keeps the presence invariant |
| `InPlace.Record.SetContentDisposition` | core/src/types/metadata.rs:454-469 | `set_content_disposition(v)` leaves the object holding `with_content_disposition(v)` of its previous value and keeps the presence invariant |
| `InPlace.Record.SetVersion` | core/src/types/metadata.rs:501-510 | `set_version(v)` leaves the object holding `with_version(v)` of its previous value and keeps the presence invariant |

## Left out

- The `set_*` methods return `&mut Self`, and the `with_*` functions consume and return `self`, so that calls can be chained. The model's methods return nothing: the returned handle is the same object.
- The bit-level `u64` encoding of `FlagSet<Metakey>` is left out. The presence set is a set of keys.
- Whether a `debug_assert!` fires depends on the build. The model makes every getter guard a precondition; it does not model the unguarded read a release build allows.
- The internals of `DateTime<Utc>` (time zones, parsing) and of `BytesContentRange` are left out. Both are opaque stored values.
- The difference between the `&str` argument of `set_*` (copied with `to_string`) and the `String` argument of `with_*` (moved) is an allocation detail. Both store the same string.
- The derived `Debug`, `Clone` and `PartialEq` implementations are left out. Dafny's datatype equality plays the role of `PartialEq`.
- The backends and the stat/list operations that fill these records are not part of this model.

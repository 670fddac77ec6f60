/** The two-tier credential lookup (src/core/credentials.py): a JSON cache
    file first, the vault on a miss, and a read-merge-write of the cache
    after a vault fetch. The file is abstract state; writing it and
    removing it are inputs that may fail. */
module Credentials {
  import opened Base

  /** What reading the cache file finds: no file, a file that cannot be
      read or decoded, or a decoded JSON document (not necessarily an
      object). */
  datatype CacheFile = Absent | Unreadable | Parsed(data: Json)

  /** The cache file and whether its permissions are owner read/write only. */
  datatype Cache = Cache(file: CacheFile, ownerOnly: bool)

  /** How writing the merged cache went: the file could not be opened for
      writing; it was opened, and so emptied, but `json.dump` or closing it
      raised, leaving a truncated document; or it was written and the
      permission change did or did not succeed. */
  datatype WriteOutcome = WriteFailed | DumpFailed | Written(chmodOk: bool)

  /** `_load_from_cache(item)`: the stored value, or None when the file is
      missing, unreadable, not a JSON object, lacks the key, or stores null.
      Failures never escape. */
  function Load(f: CacheFile, item: string): (r: Option<Json>)
    ensures r.Some? ==> r.value != JNull
    ensures r.Some? <==> f.Parsed? && f.data.JObj? && item in f.data.fields && f.data.fields[item] != JNull
    ensures r.Some? ==> r.value == f.data.fields[item]
  {
    match f
    case Parsed(JObj(m)) => if item in m && m[item] != JNull then Some(m[item]) else None
    case _ => None
  }

  /** `is_cached(item)`: the lookup found something, however empty: the
      file decodes to an object holding the key with a non-null value. */
  function IsCached(c: Cache, item: string): (cached: bool)
    ensures cached <==> c.file.Parsed? && c.file.data.JObj? && item in c.file.data.fields
                        && c.file.data.fields[item] != JNull
  {
    Load(c.file, item).Some?
  }

  /** `_save_to_cache(item, creds)`. Returns the cache afterwards and whether
      the save was logged as successful. An unreadable file counts as an
      empty map; a decoded file that is not an object makes the merge raise,
      and that error, like a failed write or permission change, is logged and
      swallowed. A write that fails after the file was opened leaves a file
      no later load can decode. A file the save creates keeps the default
      permissions unless the permission change succeeds. */
  function Save(c: Cache, item: string, creds: Json, w: WriteOutcome): (r: (Cache, bool))
    ensures r.1 <==> w == Written(true) && !(c.file.Parsed? && !c.file.data.JObj?)
    ensures r.1 ==> r.0.ownerOnly
    ensures r.0.file == c.file || r.0.file.Parsed? || r.0.file.Unreadable?
    ensures w.WriteFailed? || (c.file.Parsed? && !c.file.data.JObj?) ==> r.0 == c
    ensures w.DumpFailed? && !(c.file.Parsed? && !c.file.data.JObj?) ==>
      r.0.file == Unreadable && (c.file.Absent? ==> !r.0.ownerOnly)
  {
    var base: Option<map<string, Json>> :=
      match c.file
      case Absent => Some(map[])
      case Unreadable => Some(map[])
      case Parsed(JObj(m)) => Some(m)
      case Parsed(_) => None;
    if base.None? then (c, false)
    else match w
      case WriteFailed => (c, false)
      case DumpFailed => (Cache(Unreadable, if c.file.Absent? then false else c.ownerOnly), false)
      case Written(chmodOk) =>
        var perms := if chmodOk then true else if c.file.Absent? then false else c.ownerOnly;
        (Cache(Parsed(JObj(base.value[item := creds])), perms), chmodOk)
  }

  /** After a save, the saved key reads back as the fetched record when the
      write went through, misses when the write broke off after opening the
      file, and is untouched otherwise. */
  lemma SaveThenLoad(c: Cache, item: string, creds: Json, w: WriteOutcome)
    requires creds != JNull
    ensures var after := Save(c, item, creds, w).0;
      Load(after.file, item) == (if c.file.Parsed? && !c.file.data.JObj? then Load(c.file, item)
                                 else if w.Written? then Some(creds)
                                 else if w.DumpFailed? then None
                                 else Load(c.file, item))
  {
  }

  /** A save never changes what any other key looks up to, unless the
      write breaks off after opening the file: then every key is lost. */
  lemma SavePreservesOthers(c: Cache, item: string, creds: Json, w: WriteOutcome, other: string)
    requires other != item
    ensures Load(Save(c, item, creds, w).0.file, other) ==
      (if w.DumpFailed? && !(c.file.Parsed? && !c.file.data.JObj?) then None else Load(c.file, other))
  {
  }

  /** A corrupt file is replaced by a file holding only the new entry. */
  lemma SaveOverUnreadable(c: Cache, item: string, creds: Json, chmodOk: bool)
    requires c.file.Unreadable?
    ensures Save(c, item, creds, Written(chmodOk)).0.file == Parsed(JObj(map[item := creds]))
  {
  }

  /** Which client the resolver built and what it asked of it. */
  datatype VaultCall = FactoryInvoked | DefaultClientBuilt | LoginItemFetched(item: string)

  /** The outcome of `get_credentials`: the credentials or the error raised,
      the cache afterwards, and the vault calls made. */
  datatype Resolution = Resolution(creds: Result<Json>, cache: Cache, calls: seq<VaultCall>)

  /** `get_credentials(item, factory)`. A truthy cached value is returned as
      is. Otherwise one client is built (by the factory when one is given)
      and asked once for the item; `fetched` is what that request returns. A
      fetched record is saved before being returned, and nothing about the
      save can change the result. */
  function GetCredentials(c: Cache, item: string, hasFactory: bool, fetched: Result<Json>, w: WriteOutcome): (r: Resolution)
    ensures Load(c.file, item).Some? && Truthy(Load(c.file, item).value) ==>
      r == Resolution(Ok(Load(c.file, item).value), c, [])
    ensures !(Load(c.file, item).Some? && Truthy(Load(c.file, item).value)) ==>
      && r.calls == [if hasFactory then FactoryInvoked else DefaultClientBuilt, LoginItemFetched(item)]
      && r.creds == fetched
      && r.cache == (if fetched.Ok? then Save(c, item, fetched.value, w).0 else c)
  {
    var cached := Load(c.file, item);
    if cached.Some? && Truthy(cached.value) then Resolution(Ok(cached.value), c, [])
    else
      var calls := [if hasFactory then FactoryInvoked else DefaultClientBuilt, LoginItemFetched(item)];
      match fetched
      case Err(e) => Resolution(Err(e), c, calls)
      case Ok(creds) => Resolution(Ok(creds), Save(c, item, creds, w).0, calls)
  }

  /** The vault is consulted at most once per resolution, and only on a miss. */
  lemma VaultOnlyOnMiss(c: Cache, item: string, hasFactory: bool, fetched: Result<Json>, w: WriteOutcome)
    ensures var r := GetCredentials(c, item, hasFactory, fetched, w);
      |r.calls| > 0 <==> !(IsCached(c, item) && Truthy(Load(c.file, item).value))
  {
  }

  /** An entry stored as an empty (or otherwise falsy) value is reported as
      cached, yet resolution treats it as a miss and goes to the vault. */
  lemma EmptyEntryCachedButMissed(c: Cache, item: string, hasFactory: bool, fetched: Result<Json>, w: WriteOutcome)
    requires c.file == Parsed(JObj(map[item := JObj(map[])]))
    ensures IsCached(c, item)
    ensures GetCredentials(c, item, hasFactory, fetched, w).calls != []
  {
  }

  /** A miss whose fetch succeeds and whose write succeeds makes the next
      resolution of the same item a hit returning the same record, with no
      vault call. */
  lemma MissThenHit(c: Cache, item: string, hasFactory: bool, creds: Json, chmodOk: bool,
                    again: Result<Json>, w2: WriteOutcome, hasFactory2: bool)
    requires !IsCached(c, item)
    requires Truthy(creds)
    requires !(c.file.Parsed? && !c.file.data.JObj?)
    ensures var first := GetCredentials(c, item, hasFactory, Ok(creds), Written(chmodOk));
      var second := GetCredentials(first.cache, item, hasFactory2, again, w2);
      && first.creds == Ok(creds)
      && second == Resolution(Ok(creds), first.cache, [])
  {
    var first := GetCredentials(c, item, hasFactory, Ok(creds), Written(chmodOk));
    SaveThenLoad(c, item, creds, Written(chmodOk));
    assert Load(first.cache.file, item) == Some(creds);
  }

  /** A miss whose write breaks off after opening the file leaves a cache no
      lookup can read: the next resolution of any item goes to the vault
      again. */
  lemma TruncatedSaveMissesNext(c: Cache, item: string, hasFactory: bool, creds: Json,
                                other: string, again: Result<Json>, w2: WriteOutcome, hasFactory2: bool)
    requires !IsCached(c, item)
    requires !(c.file.Parsed? && !c.file.data.JObj?)
    ensures var first := GetCredentials(c, item, hasFactory, Ok(creds), DumpFailed);
      && first.creds == Ok(creds)
      && first.cache.file == Unreadable
      && GetCredentials(first.cache, other, hasFactory2, again, w2).calls != []
  {
    var first := GetCredentials(c, item, hasFactory, Ok(creds), DumpFailed);
    assert first.cache == Save(c, item, creds, DumpFailed).0;
    assert Load(first.cache.file, other).None?;
  }

  /** `clear_cache()`: removes the file when there is one; a failed removal
      is logged and leaves it in place; no file means nothing to do. */
  function ClearCache(c: Cache, removeOk: bool): (r: Cache)
    ensures c.file.Absent? ==> r == c
    ensures !c.file.Absent? && removeOk ==> r.file.Absent?
    ensures !c.file.Absent? && !removeOk ==> r == c
  {
    if c.file.Absent? then c
    else if removeOk then Cache(Absent, false)
    else c
  }

  /** After a clear that went through, every lookup misses, and clearing
      again changes nothing. */
  lemma ClearedMissesEverything(c: Cache, item: string, removeOk: bool)
    requires c.file.Absent? || removeOk
    ensures !IsCached(ClearCache(c, removeOk), item)
    ensures ClearCache(ClearCache(c, removeOk), removeOk) == ClearCache(c, removeOk)
  {
  }
}

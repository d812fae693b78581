/**
 * The Redis cache of the mashup assets.  The serialized assets are cut into
 * chunks of at most 786 423 bytes; refreshing the cache writes the chunk
 * count under `total_chunks` and chunk i (1-based) under `chunk<i>`, and
 * retrieving reads `chunk1 .. chunk<total_chunks>` back and joins them.
 *
 * Redis is the map `entries` of the class `RedisCache`; every value is a
 * byte string, and a count is stored as its decimal digits, as the Redis
 * client does.  The JSON text is a byte sequence; serde is not modelled.
 */
module AssetCache {
  import opened Wrappers
  import opened Errors

  newtype byte = x: int | 0 <= x < 256

  type Bytes = seq<byte>

  const ChunkSize: nat := 786_423

  const TotalChunksKey: string := "total_chunks"

  const CacheMissMessage := "Unable to retrieve assets from cache"

  // ---------------------------------------------------------------------
  // Chunking
  // ---------------------------------------------------------------------

  function Min(a: nat, b: nat): nat {
    if a < b then a else b
  }

  /** The chunks of `s`, front to back, each `n` bytes long but the last. */
  function Chunks(s: Bytes, n: nat): seq<Bytes>
    requires n > 0
    decreases |s|
  {
    if s == [] then [] else var e := Min(n, |s|); [s[..e]] + Chunks(s[e..], n)
  }

  /** [String]::join(""). */
  function Concat(cs: seq<Bytes>): Bytes
    decreases |cs|
  {
    if cs == [] then [] else cs[0] + Concat(cs[1..])
  }

  /** chunk_string. */
  method ChunkString(s: Bytes, chunkSize: nat) returns (chunks: seq<Bytes>)
    requires chunkSize > 0
    ensures chunks == Chunks(s, chunkSize)
    ensures Concat(chunks) == s
    ensures (|chunks| - 1) * chunkSize < |s| <= |chunks| * chunkSize
    ensures forall k :: 0 <= k < |chunks| - 1 ==> |chunks[k]| == chunkSize
    ensures |chunks| > 0 ==> 1 <= |chunks[|chunks| - 1]| <= chunkSize
  {
    chunks := [];
    var start := 0;
    while start < |s|
      invariant 0 <= start <= |s|
      invariant chunks + Chunks(s[start..], chunkSize) == Chunks(s, chunkSize)
      decreases |s| - start
    {
      var end := Min(start + chunkSize, |s|);
      assert s[start..][..end - start] == s[start..end];
      assert s[start..][end - start..] == s[end..];
      chunks := chunks + [s[start..end]];
      start := end;
    }
    assert s[start..] == [];
    ChunksJoin(s, chunkSize);
    ChunksCount(s, chunkSize);
    ChunksSizes(s, chunkSize);
  }

  lemma {:induction false} ChunksJoin(s: Bytes, n: nat)
    requires n > 0
    ensures Concat(Chunks(s, n)) == s
    decreases |s|
  {
    if s != [] {
      var e := Min(n, |s|);
      ChunksJoin(s[e..], n);
      assert s == s[..e] + s[e..];
    }
  }

  /** There are ceil(|s| / n) chunks. */
  lemma {:induction false} ChunksCount(s: Bytes, n: nat)
    requires n > 0
    ensures (|Chunks(s, n)| - 1) * n < |s| <= |Chunks(s, n)| * n
    decreases |s|
  {
    if s != [] {
      var e := Min(n, |s|);
      var c := |Chunks(s[e..], n)|;
      ChunksCount(s[e..], n);
      assert |Chunks(s, n)| == c + 1;
      assert (c + 1) * n == c * n + n;
      assert c * n == (c - 1) * n + n;
    }
  }

  lemma {:induction false} ChunksSizes(s: Bytes, n: nat)
    requires n > 0
    ensures var cs := Chunks(s, n);
            && (forall k :: 0 <= k < |cs| - 1 ==> |cs[k]| == n)
            && (|cs| > 0 ==> 1 <= |cs[|cs| - 1]| <= n)
    decreases |s|
  {
    if s != [] {
      var e := Min(n, |s|);
      ChunksSizes(s[e..], n);
      var cs := Chunks(s, n);
      assert cs == [s[..e]] + Chunks(s[e..], n);
      if |s| > n {
        assert Chunks(s[e..], n) != [];
      }
    }
  }

  /** An empty text has no chunks. */
  lemma EmptyHasNoChunks(n: nat)
    requires n > 0
    ensures Chunks([], n) == []
  {
  }

  lemma {:induction false} ConcatAppend(cs: seq<Bytes>, c: Bytes)
    ensures Concat(cs + [c]) == Concat(cs) + c
    decreases |cs|
  {
    if cs != [] {
      assert (cs + [c])[1..] == cs[1..] + [c];
      ConcatAppend(cs[1..], c);
    } else {
      assert [c][1..] == [];
    }
  }

  // ---------------------------------------------------------------------
  // Decimal numbers in keys and values
  // ---------------------------------------------------------------------

  /** The decimal digits of `n`, most significant first. */
  function Digits(n: nat): seq<nat>
  {
    if n < 10 then [n] else Digits(n / 10) + [n % 10]
  }

  function DigitsValue(ds: seq<nat>): nat
  {
    if ds == [] then 0 else DigitsValue(ds[..|ds| - 1]) * 10 + ds[|ds| - 1]
  }

  lemma {:induction false} DigitsRoundTrip(n: nat)
    ensures Digits(n) != []
    ensures forall k :: 0 <= k < |Digits(n)| ==> Digits(n)[k] < 10
    ensures DigitsValue(Digits(n)) == n
  {
    if n >= 10 {
      DigitsRoundTrip(n / 10);
      var ds := Digits(n);
      assert ds[..|ds| - 1] == Digits(n / 10);
    }
  }

  lemma DigitsInjective(i: nat, j: nat)
    requires Digits(i) == Digits(j)
    ensures i == j
  {
    DigitsRoundTrip(i);
    DigitsRoundTrip(j);
  }

  function DecimalChars(n: nat): string {
    var ds := Digits(n);
    seq(|ds|, k requires 0 <= k < |ds| => if ds[k] < 10 then (48 + ds[k]) as char else '0')
  }

  /** How the Redis client writes a number: its decimal digits. */
  function DecimalBytes(n: nat): Bytes {
    var ds := Digits(n);
    seq(|ds|, k requires 0 <= k < |ds| => if ds[k] < 10 then (48 + ds[k]) as byte else 48)
  }

  predicate IsDigit(b: byte) {
    48 <= b <= 57
  }

  /** How the Redis client reads a reply as a u8: its decimal digits, which
    * must denote a value below 256. */
  function ParseU8(bs: Bytes): Option<nat> {
    if bs != [] && forall k :: 0 <= k < |bs| ==> IsDigit(bs[k]) then
      var v := DigitsValue(seq(|bs|, k requires 0 <= k < |bs| => (bs[k] - 48) as nat));
      if v < 256 then Some(v) else None
    else None
  }

  /** A count written by the Redis client is read back unchanged when it
    * fits in a u8. */
  lemma ParseDecimal(n: nat)
    requires n < 256
    ensures ParseU8(DecimalBytes(n)) == Some(n)
  {
    DigitsRoundTrip(n);
    var bs := DecimalBytes(n);
    assert seq(|bs|, k requires 0 <= k < |bs| => (bs[k] - 48) as nat) == Digits(n);
  }

  /** The key of chunk `i`. */
  function ChunkKey(i: nat): string {
    "chunk" + DecimalChars(i)
  }

  /** Distinct chunk numbers have distinct keys, and no chunk key is the
    * count's key. */
  lemma ChunkKeysDistinct(i: nat, j: nat)
    ensures ChunkKey(i) == ChunkKey(j) ==> i == j
    ensures ChunkKey(i) != TotalChunksKey
  {
    assert ChunkKey(i)[0] == 'c';
    if ChunkKey(i) == ChunkKey(j) {
      var a, b := DecimalChars(i), DecimalChars(j);
      assert a == ChunkKey(i)[5..] && b == ChunkKey(j)[5..];
      DigitsRoundTrip(i);
      DigitsRoundTrip(j);
      forall k | 0 <= k < |a|
        ensures Digits(i)[k] == Digits(j)[k]
      {
        assert a[k] == b[k];
        assert a[k] as int == 48 + Digits(i)[k];
      }
      DigitsInjective(i, j);
    }
  }

  // ---------------------------------------------------------------------
  // The cache layout
  // ---------------------------------------------------------------------

  /** `entries` after chunks 1..n of `chunks` have been written. */
  function StoreChunks(entries: map<string, Bytes>, chunks: seq<Bytes>, n: nat): map<string, Bytes>
    requires n <= |chunks|
  {
    if n == 0 then entries else StoreChunks(entries, chunks, n - 1)[ChunkKey(n) := chunks[n - 1]]
  }

  /** The cache after refresh_assets_cache of `json`: the chunk count, as a
    * u8, then every chunk. */
  function Written(entries: map<string, Bytes>, json: Bytes): map<string, Bytes> {
    var chunks := Chunks(json, ChunkSize);
    StoreChunks(entries[TotalChunksKey := DecimalBytes(|chunks| % 256)], chunks, |chunks|)
  }

  /** The values of chunk1..chunkN, if all of them are present. */
  function ReadChunks(entries: map<string, Bytes>, n: nat): Option<seq<Bytes>>
  {
    if n == 0 then Some([])
    else match ReadChunks(entries, n - 1)
      case None => None
      case Some(prefix) => if ChunkKey(n) in entries then Some(prefix + [entries[ChunkKey(n)]]) else None
  }

  /** What retrieve_assets reads from a cache that holds every key it asks for. */
  function Restore(entries: map<string, Bytes>): Option<Bytes> {
    if TotalChunksKey !in entries then None
    else match ParseU8(entries[TotalChunksKey])
      case None => None
      case Some(n) =>
        match ReadChunks(entries, n)
        case None => None
        case Some(cs) => Some(Concat(cs))
  }

  /** After chunks 1..n are written, chunk k holds the k-th chunk, and every
    * other key keeps its value. */
  lemma {:induction false} StoredChunks(entries: map<string, Bytes>, chunks: seq<Bytes>, n: nat)
    requires n <= |chunks|
    ensures forall k :: 1 <= k <= n ==>
              ChunkKey(k) in StoreChunks(entries, chunks, n) && StoreChunks(entries, chunks, n)[ChunkKey(k)] == chunks[k - 1]
    ensures forall key :: key in entries && (forall k :: 1 <= k <= n ==> key != ChunkKey(k)) ==>
              key in StoreChunks(entries, chunks, n) && StoreChunks(entries, chunks, n)[key] == entries[key]
  {
    if n > 0 {
      StoredChunks(entries, chunks, n - 1);
      forall k | 1 <= k < n
        ensures ChunkKey(k) != ChunkKey(n)
      {
        ChunkKeysDistinct(k, n);
      }
    }
  }

  /** The refreshed cache holds the count (mod 256) under total_chunks, chunk
    * k under chunk<k>, and every other key unchanged. */
  lemma WrittenLayout(entries: map<string, Bytes>, json: Bytes)
    ensures var chunks := Chunks(json, ChunkSize);
            && TotalChunksKey in Written(entries, json)
            && Written(entries, json)[TotalChunksKey] == DecimalBytes(|chunks| % 256)
            && (forall k :: 1 <= k <= |chunks| ==>
                  ChunkKey(k) in Written(entries, json) && Written(entries, json)[ChunkKey(k)] == chunks[k - 1])
            && (forall key :: key in entries && key != TotalChunksKey
                              && (forall k :: 1 <= k <= |chunks| ==> key != ChunkKey(k)) ==>
                  key in Written(entries, json) && Written(entries, json)[key] == entries[key])
  {
    var chunks := Chunks(json, ChunkSize);
    var base := entries[TotalChunksKey := DecimalBytes(|chunks| % 256)];
    StoredChunks(base, chunks, |chunks|);
    forall k | 1 <= k <= |chunks|
      ensures ChunkKey(k) != TotalChunksKey
    {
      ChunkKeysDistinct(k, k);
    }
  }

  lemma {:induction false} ReadStored(entries: map<string, Bytes>, chunks: seq<Bytes>, n: nat)
    requires n <= |chunks|
    requires forall k :: 1 <= k <= |chunks| ==> ChunkKey(k) in entries && entries[ChunkKey(k)] == chunks[k - 1]
    ensures ReadChunks(entries, n) == Some(chunks[..n])
  {
    if n > 0 {
      ReadStored(entries, chunks, n - 1);
      assert chunks[..n] == chunks[..n - 1] + [chunks[n - 1]];
    }
  }

  /** The round trip: whatever the cache held before, retrieving after a
    * refresh of `json` yields `json`, provided it has at most 255 chunks. */
  lemma RefreshThenRestore(entries: map<string, Bytes>, json: Bytes)
    requires |Chunks(json, ChunkSize)| <= 255
    ensures Restore(Written(entries, json)) == Some(json)
  {
    var chunks := Chunks(json, ChunkSize);
    RestoreWritten(entries, json);
    assert chunks[..|chunks| % 256] == chunks;
    ChunksJoin(json, ChunkSize);
  }

  /** The count is stored as a u8: with N chunks only the first N mod 256 are
    * read back, so from 256 chunks on the restored text is cut short. */
  lemma RestoreAfterWrap(entries: map<string, Bytes>, json: Bytes)
    ensures var chunks := Chunks(json, ChunkSize);
            Restore(Written(entries, json)) == Some(Concat(chunks[..|chunks| % 256]))
    ensures |Chunks(json, ChunkSize)| == 256 ==> Restore(Written(entries, json)) == Some([]) && json != []
  {
    RestoreWritten(entries, json);
  }

  lemma RestoreWritten(entries: map<string, Bytes>, json: Bytes)
    ensures var chunks := Chunks(json, ChunkSize);
            Restore(Written(entries, json)) == Some(Concat(chunks[..|chunks| % 256]))
  {
    var chunks := Chunks(json, ChunkSize);
    var n := |chunks| % 256;
    var w := Written(entries, json);
    WrittenLayout(entries, json);
    assert w[TotalChunksKey] == DecimalBytes(n);
    ParseDecimal(n);
    ReadStored(w, chunks, n);
  }

  // ---------------------------------------------------------------------
  // The cache itself
  // ---------------------------------------------------------------------

  /** The type a cached value is read as: get::<u8> or get::<String>. */
  datatype Kind = CountKind | TextKind

  datatype Cached = Count(n: nat) | Text(bytes: Bytes)

  /** The Redis client's conversion of a stored value to the requested type. */
  function Convert(kind: Kind, value: Bytes): Result<Cached, Error> {
    match kind
    case TextKind => Ok(Text(value))
    case CountKind =>
      match ParseU8(value)
      case Some(n) => Ok(Count(n))
      case None => Err(RedisError("not a u8"))
  }

  class RedisCache {
    var entries: map<string, Bytes>

    constructor (entries: map<string, Bytes>)
      ensures this.entries == entries
    {
      this.entries := entries;
    }

    /** refresh_assets_cache for the serialized assets `json`. */
    method RefreshAssetsCache(json: Bytes)
      modifies this
      ensures entries == Written(old(entries), json)
    {
      var chunks := ChunkString(json, ChunkSize);
      entries := entries[TotalChunksKey := DecimalBytes(|chunks| % 256)];
      ghost var base := entries;
      for i := 0 to |chunks|
        invariant entries == StoreChunks(base, chunks, i)
      {
        var key := ChunkKey(i + 1);
        entries := entries[key := chunks[i]];
      }
    }

    /** get_cached_value: a hit returns the stored value; on a miss the cache
      * is refreshed from the database's assets, `dbJson`, and read once more. */
    method GetCachedValue(key: string, kind: Kind, dbJson: Bytes) returns (r: Result<Cached, Error>)
      modifies this
      ensures key in old(entries) ==> entries == old(entries) && r == Convert(kind, old(entries)[key])
      ensures key !in old(entries) ==> entries == Written(old(entries), dbJson)
      ensures key !in old(entries) ==>
                r == if key in entries then Convert(kind, entries[key]) else Err(CriticalError(CacheMissMessage))
    {
      if key in entries {
        return Convert(kind, entries[key]);
      }
      RefreshAssetsCache(dbJson);
      if key in entries {
        return Convert(kind, entries[key]);
      }
      return Err(CriticalError(CacheMissMessage));
    }

    /** retrieve_assets, up to the JSON text.  A cache that holds every key
      * gives back what it holds and is left alone; a cache without a count
      * is first filled from `dbJson`, which is then returned. */
    method RetrieveAssets(dbJson: Bytes) returns (r: Result<Bytes, Error>)
      modifies this
      ensures old(Restore(entries)).Some? ==> r == Ok(old(Restore(entries)).value) && entries == old(entries)
      ensures TotalChunksKey !in old(entries) && |Chunks(dbJson, ChunkSize)| <= 255 ==>
                r == Ok(dbJson) && entries == Written(old(entries), dbJson)
    {
      ghost var cold := TotalChunksKey !in entries;
      if cold && |Chunks(dbJson, ChunkSize)| <= 255 {
        WrittenLayout(entries, dbJson);
        RefreshThenRestore(entries, dbJson);
      }
      var total := GetCachedValue(TotalChunksKey, CountKind, dbJson);
      if total.Err? {
        return Err(total.error);
      }
      assert total.value.Count?;
      var count := total.value.n;
      ghost var start := entries;
      ghost var allPresent := ReadChunks(start, count).Some?;
      var chunks: seq<Bytes> := [];
      for i := 1 to count + 1
        invariant allPresent ==> entries == start && ReadChunks(start, i - 1) == Some(chunks)
      {
        if allPresent {
          ReadPrefix(start, i, count);
        }
        var key := ChunkKey(i);
        var chunk := GetCachedValue(key, TextKind, dbJson);
        if chunk.Err? {
          return Err(chunk.error);
        }
        chunks := chunks + [chunk.value.bytes];
      }
      r := Ok(Concat(chunks));
    }
  }

  lemma {:induction false} ReadPrefix(entries: map<string, Bytes>, i: nat, n: nat)
    requires 1 <= i <= n
    requires ReadChunks(entries, n).Some?
    ensures ReadChunks(entries, i).Some? && ChunkKey(i) in entries
    decreases n
  {
    if i < n {
      ReadPrefix(entries, i, n - 1);
    }
  }
}

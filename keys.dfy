/**
  Cache keys and the on-disk layout: the key is the md5 digest of the
  request URI (32 lower-case hex digits), its first two digits name the
  shard directory, and the entry file is `<root>/cache/<shard>/<key>.html`.
 */
module Keys {
  import opened Wrappers

  predicate IsLowerHex(c: char)
  {
    '0' <= c <= '9' || 'a' <= c <= 'f'
  }

  /** The shape of an md5 digest as PHP's md5() renders it. */
  predicate IsMd5Digest(s: string)
  {
    |s| == 32 && forall i :: 0 <= i < |s| ==> IsLowerHex(s[i])
  }

  type Key = s: string | IsMd5Digest(s) witness "00000000000000000000000000000000"

  /** `mb_substr(md5(uri), 0, 2)`: the shard name. */
  function Shard(key: Key): (shard: string)
    ensures |shard| == 2 && shard <= key
    ensures forall i :: 0 <= i < 2 ==> IsLowerHex(shard[i])
  {
    key[..2]
  }

  /** The cache root, `__DIR__ . "/cache/"`. */
  function CacheDir(root: string): (dir: string)
    ensures root <= dir && |dir| == |root| + 7 && dir[|dir| - 1] == '/'
  {
    root + "/cache/"
  }

  /** The shard directory `<root>/cache/<shard>/`. */
  function ShardDir(root: string, key: Key): (dir: string)
    ensures CacheDir(root) <= dir && |dir| == |CacheDir(root)| + 3
  {
    CacheDir(root) + Shard(key) + "/"
  }

  /** The entry file `<root>/cache/<shard>/<key>.html`. */
  function EntryPath(root: string, key: Key): (path: string)
    ensures ShardDir(root, key) <= path && |path| == |CacheDir(root)| + 40
  {
    ShardDir(root, key) + key + ".html"
  }

  /**
    Reads the key back from an entry path: the path must be the cache
    directory followed by two hex digits, '/', 32 hex digits beginning
    with those two, and ".html".
   */
  function KeyOfEntryPath(root: string, path: string): (r: Option<Key>)
    ensures r.Some? ==> EntryPath(root, r.value) == path
  {
    var base := |CacheDir(root)|;
    if |path| != base + 40 || path[..base] != CacheDir(root) then None
    else
      var key := path[base + 3..base + 35];
      if IsMd5Digest(key) && path[base..base + 2] == key[..2] && path[base + 2] == '/'
         && path[base + 35..] == ".html"
      then
        assert path == CacheDir(root) + key[..2] + "/" + key + ".html";
        Some(key)
      else None
  }

  /** Every key's entry path reads back as that key. */
  lemma EntryPathRoundTrip(root: string, key: Key)
    ensures KeyOfEntryPath(root, EntryPath(root, key)) == Some(key)
  {
    var path := EntryPath(root, key);
    var base := |CacheDir(root)|;
    assert path == CacheDir(root) + key[..2] + "/" + key + ".html";
    assert path[..base] == CacheDir(root);
    assert path[base + 3..base + 35] == key;
    assert path[base..base + 2] == key[..2];
    assert path[base + 35..] == ".html";
  }

  /** Distinct keys are stored in distinct files. */
  lemma EntryPathInjective(root: string, k1: Key, k2: Key)
    ensures EntryPath(root, k1) == EntryPath(root, k2) ==> k1 == k2
  {
    EntryPathRoundTrip(root, k1);
    EntryPathRoundTrip(root, k2);
  }

  /**
    The entry path stays inside the cache directory: below it there is
    exactly one '/' (after the shard) and exactly one '.' (before "html"),
    so no "." or ".." segment can occur whatever the URI was.
   */
  lemma EntryPathConfined(root: string, key: Key)
    ensures CacheDir(root) <= EntryPath(root, key)
    ensures forall i :: |CacheDir(root)| <= i < |EntryPath(root, key)| ==>
              (EntryPath(root, key)[i] == '/' <==> i == |CacheDir(root)| + 2)
    ensures forall i :: |CacheDir(root)| <= i < |EntryPath(root, key)| ==>
              (EntryPath(root, key)[i] == '.' <==> i == |CacheDir(root)| + 35)
  {
    var path := EntryPath(root, key);
    var base := |CacheDir(root)|;
    assert path == CacheDir(root) + key[..2] + "/" + key + ".html";
    forall i | base <= i < |path|
      ensures path[i] == '/' <==> i == base + 2
      ensures path[i] == '.' <==> i == base + 35
    {
      if i < base + 2 {
        assert path[i] == key[i - base];
      } else if base + 2 < i < base + 35 {
        assert path[i] == key[i - base - 3];
      }
    }
  }
}

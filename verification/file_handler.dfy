/**
 * `FileHandler`: where artworks, audio and cache entries live under the
 * `data` directory, the base64 bridge for images, deletion of one
 * artwork's originals, storage accounting and human-readable sizes.
 *
 * The disk is a map from paths to contents; a path is its list of
 * components, rendered with `/` as `str(Path)` does. The timestamp that
 * `datetime.now().strftime("%Y%m%d_%H%M%S")` would produce is a parameter.
 */
module FileHandler {
  import opened Wrappers
  import opened LittleEndian
  import Text
  import Base64

  type Path = seq<string>
  type Disk = map<Path, seq<byte>>

  const ARTWORKS_DIR: Path := ["data", "artworks"]
  const CACHE_DIR: Path := ["data", "cache"]
  const DEFAULT_SUBFOLDER := "original"
  const AUDIO_SUBFOLDER := "audio"

  /** `str(path)`: the components joined by `/`. */
  function Render(p: Path): string {
    if |p| == 0 then "" else if |p| == 1 then p[0] else Render(p[..|p| - 1]) + "/" + p[|p| - 1]
  }

  lemma RenderFive(a: string, b: string, c: string, d: string, e: string)
    ensures Render([a, b, c, d, e]) == a + "/" + b + "/" + c + "/" + d + "/" + e
  {
    assert [a, b][..1] == [a];
    assert Render([a, b]) == a + "/" + b;
    assert [a, b, c][..2] == [a, b];
    assert Render([a, b, c]) == a + "/" + b + "/" + c;
    assert [a, b, c, d][..3] == [a, b, c];
    assert Render([a, b, c, d]) == a + "/" + b + "/" + c + "/" + d;
    assert [a, b, c, d, e][..4] == [a, b, c, d];
  }

  /** The contents at `p`, or None when there is no such file (`open` raises). */
  function Load(disk: Disk, p: Path): (r: Option<seq<byte>>)
    ensures r.Some? <==> p in disk
  {
    if p in disk then Some(disk[p]) else None
  }

  /** Writing `data` at `p` and nothing else. */
  function Write(disk: Disk, p: Path, data: seq<byte>): (d: Disk)
    ensures Load(d, p) == Some(data)
    ensures forall q :: q != p ==> Load(d, q) == Load(disk, q)
  {
    disk[p := data]
  }

  function ImageFileName(artworkId: string, timestamp: string): string {
    artworkId + "_" + timestamp + ".png"
  }

  function ImagePath(userId: string, artworkId: string, subfolder: string, timestamp: string): Path {
    ARTWORKS_DIR + [userId, subfolder, ImageFileName(artworkId, timestamp)]
  }

  /**
   * `save_image`: the bytes land at `artworks/{user}/{subfolder}/{id}_{timestamp}.png`
   * under the data directory, and that path is returned.
   */
  function SaveImage(disk: Disk, data: seq<byte>, userId: string, artworkId: string, subfolder: string,
                     timestamp: string): (r: (Disk, string))
    ensures r.1 == "data" + "/" + "artworks" + "/" + userId + "/" + subfolder + "/" + artworkId + "_" + timestamp + ".png"
    ensures Load(r.0, ImagePath(userId, artworkId, subfolder, timestamp)) == Some(data)
    ensures forall q :: q != ImagePath(userId, artworkId, subfolder, timestamp) ==> Load(r.0, q) == Load(disk, q)
  {
    var p := ImagePath(userId, artworkId, subfolder, timestamp);
    assert p == ["data", "artworks", userId, subfolder, ImageFileName(artworkId, timestamp)];
    RenderFive("data", "artworks", userId, subfolder, ImageFileName(artworkId, timestamp));
    (Write(disk, p, data), Render(p))
  }

  function AudioPath(userId: string, artworkId: string, audioType: string, timestamp: string): Path {
    ARTWORKS_DIR + [userId, AUDIO_SUBFOLDER, artworkId + "_" + audioType + "_" + timestamp + ".wav"]
  }

  /** `save_audio`: the bytes land at `artworks/{user}/audio/{id}_{type}_{timestamp}.wav`. */
  function SaveAudio(disk: Disk, data: seq<byte>, userId: string, artworkId: string, audioType: string,
                     timestamp: string): (r: (Disk, string))
    ensures r.1 == "data" + "/" + "artworks" + "/" + userId + "/" + "audio" + "/" + artworkId + "_" + audioType + "_" + timestamp + ".wav"
    ensures Load(r.0, AudioPath(userId, artworkId, audioType, timestamp)) == Some(data)
    ensures forall q :: q != AudioPath(userId, artworkId, audioType, timestamp) ==> Load(r.0, q) == Load(disk, q)
  {
    var p := AudioPath(userId, artworkId, audioType, timestamp);
    assert p == ["data", "artworks", userId, AUDIO_SUBFOLDER, artworkId + "_" + audioType + "_" + timestamp + ".wav"];
    RenderFive("data", "artworks", userId, AUDIO_SUBFOLDER, artworkId + "_" + audioType + "_" + timestamp + ".wav");
    (Write(disk, p, data), Render(p))
  }

  /** `image_to_base64`. */
  function ImageToBase64(data: seq<byte>): (s: string)
    ensures |s| % 4 == 0
  {
    Base64.Encode(data)
  }

  /** `base64_to_image`: None where the decoder raises. */
  function Base64ToImage(s: string): (r: Option<seq<byte>>)
    ensures r.Some? ==> |s| % 4 == 0 && |s| / 4 * 3 - 2 <= |r.value| <= |s| / 4 * 3
  {
    Base64.DecodedLength(s);
    Base64.Decode(s)
  }

  /** An image survives the trip through its base64 text. */
  lemma Base64RoundTrip(data: seq<byte>)
    ensures Base64ToImage(ImageToBase64(data)) == Some(data)
  {
    Base64.DecodeEncode(data);
  }

  /** A file `delete_artwork` removes: directly in the user's originals, named `{id}_` followed by anything. */
  predicate Doomed(p: Path, userId: string, artworkId: string) {
    |p| == 5 && p[..4] == ARTWORKS_DIR + [userId, DEFAULT_SUBFOLDER] && Text.StartsWith(p[4], artworkId + "_")
  }

  /**
   * `delete_artwork`: every file matching `{id}_*` in the user's originals is
   * unlinked and everything else is kept; it reports success.
   */
  function DeleteArtwork(disk: Disk, userId: string, artworkId: string): (r: (Disk, bool))
    ensures r.1
    ensures forall p :: p in r.0 <==> p in disk && !Doomed(p, userId, artworkId)
    ensures forall p :: p in r.0 ==> r.0[p] == disk[p]
  {
    (map p | p in disk && !Doomed(p, userId, artworkId) :: disk[p], true)
  }

  /** A saved original is gone after deleting its artwork. */
  lemma DeleteRemovesSaved(disk: Disk, data: seq<byte>, userId: string, artworkId: string, timestamp: string)
    ensures var saved := SaveImage(disk, data, userId, artworkId, DEFAULT_SUBFOLDER, timestamp).0;
      Load(DeleteArtwork(saved, userId, artworkId).0, ImagePath(userId, artworkId, DEFAULT_SUBFOLDER, timestamp)).None?
  {
    var p := ImagePath(userId, artworkId, DEFAULT_SUBFOLDER, timestamp);
    assert p[..4] == ARTWORKS_DIR + [userId, DEFAULT_SUBFOLDER];
    assert Text.StartsWith(p[4], artworkId + "_") by {
      assert p[4] == (artworkId + "_") + (timestamp + ".png");
    }
  }

  /**
   * Deleting one artwork keeps the originals of another whenever neither id
   * contains `_` (the eight-character uuid prefixes the pages use).
   */
  lemma DeleteSparesOtherArtwork(disk: Disk, data: seq<byte>, userId: string, a: string, b: string, timestamp: string)
    requires a != b && '_' !in a && '_' !in b
    ensures var saved := SaveImage(disk, data, userId, b, DEFAULT_SUBFOLDER, timestamp).0;
      Load(DeleteArtwork(saved, userId, a).0, ImagePath(userId, b, DEFAULT_SUBFOLDER, timestamp)) == Some(data)
  {
    var p := ImagePath(userId, b, DEFAULT_SUBFOLDER, timestamp);
    var name := p[4];
    assert name == b + "_" + timestamp + ".png";
    if |a| < |b| {
      assert name[|a|] == b[|a|];
      assert name[|a|] != '_';
    } else if |a| > |b| {
      assert name[|b|] == '_';
      assert a[|b|] != '_';
    } else {
      assert name[..|b|] == b;
    }
  }

  /** Files reachable below the user's directory. */
  predicate Under(p: Path, userId: string) {
    |p| > 3 && p[..3] == ARTWORKS_DIR + [userId]
  }

  /** The total size of the listed files. */
  function SizeOf(disk: Disk, listing: seq<Path>): nat
    requires forall k :: 0 <= k < |listing| ==> listing[k] in disk
  {
    if |listing| == 0 then 0 else |disk[listing[0]]| + SizeOf(disk, listing[1..])
  }

  /** `rglob('*')` lists every file below the user's directory exactly once. */
  predicate ListsUserFiles(disk: Disk, userId: string, listing: seq<Path>) {
    && (forall p :: p in listing ==> p in disk && Under(p, userId))
    && (forall p :: p in disk && Under(p, userId) ==> p in listing)
    && (forall i, j :: 0 <= i < j < |listing| ==> listing[i] != listing[j])
  }

  /**
   * `get_storage_size`: the sum of the file sizes below the user's
   * directory, so 0 when the directory is missing or empty, and at least
   * the size of any one file in it.
   */
  function GetStorageSize(disk: Disk, userId: string, listing: seq<Path>): (r: nat)
    requires ListsUserFiles(disk, userId, listing)
    ensures (forall p :: p in disk ==> !Under(p, userId)) ==> r == 0
    ensures forall k :: 0 <= k < |listing| ==> |disk[listing[k]]| <= r
    ensures r == SizeOf(disk, listing)
  {
    assert forall k :: 0 <= k < |listing| ==> listing[k] in listing;
    assert |listing| > 0 ==> listing[0] in disk && Under(listing[0], userId);
    SizeBound(disk, listing);
    SizeOf(disk, listing)
  }

  lemma {:induction false} SizeBound(disk: Disk, listing: seq<Path>)
    requires forall k :: 0 <= k < |listing| ==> listing[k] in disk
    ensures forall k :: 0 <= k < |listing| ==> |disk[listing[k]]| <= SizeOf(disk, listing)
  {
    if |listing| > 0 {
      SizeBound(disk, listing[1..]);
      assert forall k :: 1 <= k < |listing| ==> listing[k] == listing[1..][k - 1];
    }
  }

  /**
   * The order `rglob` lists files in is unspecified; any two complete
   * listings of the user's files give the same storage size.
   */
  lemma StorageSizeIgnoresOrder(disk: Disk, userId: string, l1: seq<Path>, l2: seq<Path>)
    requires ListsUserFiles(disk, userId, l1) && ListsUserFiles(disk, userId, l2)
    ensures GetStorageSize(disk, userId, l1) == GetStorageSize(disk, userId, l2)
  {
    assert forall k :: 0 <= k < |l1| ==> l1[k] in l1;
    assert forall k :: 0 <= k < |l2| ==> l2[k] in l2;
    SizePermutation(disk, l1, l2);
  }

  predicate Distinct(listing: seq<Path>) {
    forall i, j :: 0 <= i < j < |listing| ==> listing[i] != listing[j]
  }

  /** Two duplicate-free listings of the same files have the same total size. */
  lemma {:induction false} SizePermutation(disk: Disk, a: seq<Path>, b: seq<Path>)
    requires forall k :: 0 <= k < |a| ==> a[k] in disk
    requires forall k :: 0 <= k < |b| ==> b[k] in disk
    requires Distinct(a) && Distinct(b)
    requires forall p :: p in a <==> p in b
    ensures SizeOf(disk, a) == SizeOf(disk, b)
    decreases |a|
  {
    if |a| == 0 {
      EmptyWhenNoMembers(b);
    } else {
      var x := a[0];
      assert x in b;
      var i :| 0 <= i < |b| && b[i] == x;
      var rest := Without(b, i);
      SizeWithout(disk, b, i);
      WithoutMembers(b, i);
      WithoutDistinct(b, i);
      assert Distinct(a[1..]);
      forall p
        ensures p in a[1..] <==> p in rest
      {
        assert p in a <==> p == x || p in a[1..];
      }
      SizePermutation(disk, a[1..], rest);
    }
  }

  lemma EmptyWhenNoMembers(b: seq<Path>)
    ensures (forall p :: p !in b) ==> b == []
  {
    if b != [] {
      assert b[0] in b;
    }
  }

  /** The listing with its `i`-th entry removed. */
  function Without(b: seq<Path>, i: nat): seq<Path>
    requires i < |b|
  {
    b[..i] + b[i + 1..]
  }

  lemma SizeWithout(disk: Disk, b: seq<Path>, i: nat)
    requires i < |b|
    requires forall k :: 0 <= k < |b| ==> b[k] in disk
    ensures SizeOf(disk, b) == |disk[b[i]]| + SizeOf(disk, Without(b, i))
  {
    SizeAppend(disk, b[..i], b[i..]);
    assert b[..i] + b[i..] == b;
    assert b[i..][1..] == b[i + 1..];
    SizeAppend(disk, b[..i], b[i + 1..]);
  }

  /** Removing one entry of a duplicate-free listing removes exactly that path. */
  lemma WithoutMembers(b: seq<Path>, i: nat)
    requires i < |b| && Distinct(b)
    ensures forall p :: p in Without(b, i) <==> p in b && p != b[i]
  {
    var rest := Without(b, i);
    forall p
      ensures p in rest <==> p in b && p != b[i]
    {
      if p in rest {
        var m :| 0 <= m < |rest| && rest[m] == p;
        if m < i {
          assert b[m] == p;
        } else {
          assert b[m + 1] == p;
        }
      }
      if p in b && p != b[i] {
        var m :| 0 <= m < |b| && b[m] == p;
        if m < i {
          assert rest[m] == p;
        } else {
          assert rest[m - 1] == p;
        }
      }
    }
  }

  lemma WithoutDistinct(b: seq<Path>, i: nat)
    requires i < |b| && Distinct(b)
    ensures Distinct(Without(b, i))
  {
    var rest := Without(b, i);
    forall u, v | 0 <= u < v < |rest|
      ensures rest[u] != rest[v]
    {
      var u' := if u < i then u else u + 1;
      var v' := if v < i then v else v + 1;
      assert rest[u] == b[u'] && rest[v] == b[v'] && u' < v';
    }
  }

  lemma {:induction false} SizeAppend(disk: Disk, a: seq<Path>, b: seq<Path>)
    requires forall k :: 0 <= k < |a| ==> a[k] in disk
    requires forall k :: 0 <= k < |b| ==> b[k] in disk
    ensures SizeOf(disk, a + b) == SizeOf(disk, a) + SizeOf(disk, b)
  {
    if |a| > 0 {
      assert (a + b)[1..] == a[1..] + b;
      SizeAppend(disk, a[1..], b);
    } else {
      assert a + b == b;
    }
  }

  lemma {:induction false} SizeFrame(d1: Disk, d2: Disk, listing: seq<Path>)
    requires forall k :: 0 <= k < |listing| ==> listing[k] in d1 && listing[k] in d2 && d1[listing[k]] == d2[listing[k]]
    ensures SizeOf(d1, listing) == SizeOf(d2, listing)
  {
    if |listing| > 0 {
      SizeFrame(d1, d2, listing[1..]);
    }
  }

  /** Saving a new original grows the user's storage by exactly its size. */
  lemma SaveGrowsStorage(disk: Disk, data: seq<byte>, userId: string, artworkId: string, timestamp: string,
                         listing: seq<Path>)
    requires ListsUserFiles(disk, userId, listing)
    requires ImagePath(userId, artworkId, DEFAULT_SUBFOLDER, timestamp) !in disk
    ensures var p := ImagePath(userId, artworkId, DEFAULT_SUBFOLDER, timestamp);
      var saved := SaveImage(disk, data, userId, artworkId, DEFAULT_SUBFOLDER, timestamp).0;
      && ListsUserFiles(saved, userId, listing + [p])
      && GetStorageSize(saved, userId, listing + [p]) == GetStorageSize(disk, userId, listing) + |data|
  {
    var p := ImagePath(userId, artworkId, DEFAULT_SUBFOLDER, timestamp);
    var saved := SaveImage(disk, data, userId, artworkId, DEFAULT_SUBFOLDER, timestamp).0;
    assert saved == disk[p := data];
    assert p[..3] == ARTWORKS_DIR + [userId];
    assert forall k :: 0 <= k < |listing| ==> listing[k] in listing;
    assert forall k :: 0 <= k < |listing| ==> listing[k] in disk && listing[k] != p;
    SizeFrame(disk, saved, listing);
    SizeAppend(saved, listing, [p]);
    assert SizeOf(saved, [p]) == |data|;
  }

  /** The cache file for a key: `cache/{key}.cache` under the data directory. */
  function CachePath(key: string): (p: Path)
    ensures |p| == |CACHE_DIR| + 1 && p[..|CACHE_DIR|] == CACHE_DIR
    ensures |p[|CACHE_DIR|]| == |key| + 6 && p[|CACHE_DIR|][..|key|] == key && p[|CACHE_DIR|][|key|..] == ".cache"
  {
    CACHE_DIR + [key + ".cache"]
  }

  /** `get_cache_file`: the stored bytes, or None for a key never set. */
  function GetCacheFile(disk: Disk, key: string): (r: Option<seq<byte>>)
    ensures r.Some? <==> CachePath(key) in disk
    ensures r.Some? ==> r.value == disk[CachePath(key)]
  {
    Load(disk, CachePath(key))
  }

  /** `set_cache_file`. */
  function SetCacheFile(disk: Disk, key: string, data: seq<byte>): (r: (Disk, bool))
    ensures r.1
    ensures Load(r.0, CachePath(key)) == Some(data)
    ensures forall q :: q != CachePath(key) ==> Load(r.0, q) == Load(disk, q)
  {
    (Write(disk, CachePath(key), data), true)
  }

  /** Distinct keys never share a cache file. */
  lemma CachePathInjective(k1: string, k2: string)
    requires CachePath(k1) == CachePath(k2)
    ensures k1 == k2
  {
    assert CachePath(k1)[2] == k1 + ".cache" && CachePath(k2)[2] == k2 + ".cache";
    assert |k1| == |k2|;
    assert (k1 + ".cache")[..|k1|] == k1;
    assert (k2 + ".cache")[..|k2|] == k2;
  }

  /** A key reads back what was last set for it, and setting it leaves every other key alone. */
  lemma CacheGetAfterSet(disk: Disk, key: string, other: string, data: seq<byte>)
    ensures GetCacheFile(SetCacheFile(disk, key, data).0, key) == Some(data)
    ensures other != key ==> GetCacheFile(SetCacheFile(disk, key, data).0, other) == GetCacheFile(disk, other)
  {
    if other != key && CachePath(other) == CachePath(key) {
      CachePathInjective(other, key);
    }
  }

  const UNITS := ["B", "KB", "MB", "GB", "TB"]

  /** The size after `k` divisions by 1024. */
  function Scaled(size: int, k: nat): real {
    if k == 0 then size as real else Scaled(size, k - 1) / 1024.0
  }

  function Pow1024(k: nat): real {
    if k == 0 then 1.0 else 1024.0 * Pow1024(k - 1)
  }

  /** Each division is by 1024: after `k` of them the value times 1024^k is the original size. */
  lemma {:induction false} ScaledIsQuotient(size: int, k: nat)
    ensures Scaled(size, k) * Pow1024(k) == size as real
  {
    if k > 0 {
      ScaledIsQuotient(size, k - 1);
      assert Scaled(size, k) * 1024.0 == Scaled(size, k - 1);
    }
  }

  /**
   * `format_file_size` without the two-decimal rendering: the first of B,
   * KB, MB and GB at which the scaled size is below 1024, otherwise TB.
   * Dividing by 1024 is exact in binary floating point as long as the
   * quotient keeps its 53 significant bits, so within that range exact
   * reals agree with the source.
   */
  method FormatFileSize(size: int) returns (value: real, unit: string)
    ensures exists k ::
      && 0 <= k < |UNITS| && unit == UNITS[k] && value == Scaled(size, k)
      && (k < 4 ==> value < 1024.0)
      && (forall j :: 0 <= j < k ==> Scaled(size, j) >= 1024.0)
  {
    var k := 0;
    value := size as real;
    while k < 4 && value >= 1024.0
      invariant 0 <= k <= 4
      invariant value == Scaled(size, k)
      invariant forall j :: 0 <= j < k ==> Scaled(size, j) >= 1024.0
    {
      value := value / 1024.0;
      k := k + 1;
    }
    unit := UNITS[k];
  }
}

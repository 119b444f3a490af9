/**
 * The one-off migration that folds every old per-session folder under
 * data/artworks into the shared `default_user` folder. Directory listing,
 * file contents and JSON reading/writing are parameters; the target folder
 * is a map from relative path to contents.
 */
module MigrateArtworks {
  import opened Wrappers
  import opened JsonValue
  import Text
  import opened LittleEndian

  type RelPath = seq<string>
  type Folder = map<RelPath, seq<byte>>

  const TARGET_USER := "default_user"

  /** What a recursive listing of a user folder yields. */
  datatype Entry = File(rel: RelPath, content: seq<byte>) | Directory(rel: RelPath)

  datatype UserDir = UserDir(name: string, entries: seq<Entry>)

  datatype Tally = Tally(total: nat, migrated: nat, skipped: nat)

  /** `PurePath.suffix`: from the last dot, unless the dot opens or ends the name. */
  function Suffix(name: string): (r: string)
    ensures r != [] ==> r[0] == '.' && |r| >= 2 && |r| < |name| && name[|name| - |r|..] == r
  {
    var i := Text.RFind(name, '.');
    if 0 < i < |name| - 1 then name[i..] else ""
  }

  predicate IsJsonFile(rel: RelPath) {
    |rel| > 0 && Suffix(rel[|rel| - 1]) == ".json"
  }

  /** `{**target, **old}`: every key of both, the old file's value winning. */
  function MergeJson(target: Dict, previous: Dict): (r: Dict)
    ensures r.Keys == target.Keys + previous.Keys
    ensures forall k :: k in previous ==> r[k] == previous[k]
    ensures forall k :: k in target && k !in previous ==> r[k] == target[k]
  {
    target + previous
  }

  /**
   * One listed entry: directories are passed over uncounted; a file with
   * no counterpart is copied; a JSON file whose counterpart also reads as an
   * object is merged; anything else already present is skipped.
   */
  function Step(target: Folder, tally: Tally, e: Entry,
                parse: seq<byte> -> Option<Json>, dump: Dict -> seq<byte>): (r: (Folder, Tally))
    ensures e.Directory? ==> r == (target, tally)
    ensures e.File? ==> r.0.Keys == target.Keys + {e.rel}
    ensures e.File? ==> r.1.total == tally.total + 1
    ensures e.File? ==> r.1.migrated + r.1.skipped == tally.migrated + tally.skipped + 1
    ensures e.File? && e.rel !in target ==> r.0[e.rel] == e.content && r.1.migrated == tally.migrated + 1
    ensures e.File? && e.rel in target && !IsJsonFile(e.rel) ==> r.0 == target && r.1.skipped == tally.skipped + 1
    ensures forall p :: p in target && (e.Directory? || p != e.rel) ==> r.0[p] == target[p]
  {
    match e
    case Directory(_) => (target, tally)
    case File(rel, content) =>
      var counted := tally.(total := tally.total + 1);
      if rel !in target then
        (target[rel := content], counted.(migrated := counted.migrated + 1))
      else if IsJsonFile(rel) then
        match (parse(content), parse(target[rel]))
        case (Some(JObj(previous)), Some(JObj(existing))) =>
          (target[rel := dump(MergeJson(existing, previous))], counted.(migrated := counted.migrated + 1))
        case _ => (target, counted.(skipped := counted.skipped + 1))
      else (target, counted.(skipped := counted.skipped + 1))
  }

  /** The loop over every listed entry, in order. */
  function Process(target: Folder, tally: Tally, es: seq<Entry>,
                   parse: seq<byte> -> Option<Json>, dump: Dict -> seq<byte>): (r: (Folder, Tally))
    ensures r.1.total == tally.total + FileCount(es)
    ensures r.1.migrated + r.1.skipped == tally.migrated + tally.skipped + FileCount(es)
    ensures target.Keys <= r.0.Keys
    decreases |es|
  {
    if |es| == 0 then (target, tally)
    else
      var next := Step(target, tally, es[0], parse, dump);
      Process(next.0, next.1, es[1..], parse, dump)
  }

  function FileCount(es: seq<Entry>): nat {
    if |es| == 0 then 0 else (if es[0].File? then 1 else 0) + FileCount(es[1..])
  }

  /** The old user folders: every folder but the shared one. */
  function OldUsers(dirs: seq<UserDir>): (r: seq<UserDir>)
    ensures forall u :: u in r <==> u in dirs && u.name != TARGET_USER
  {
    if |dirs| == 0 then []
    else if dirs[0].name == TARGET_USER then OldUsers(dirs[1..])
    else [dirs[0]] + OldUsers(dirs[1..])
  }

  function AllEntries(users: seq<UserDir>): seq<Entry> {
    if |users| == 0 then [] else users[0].entries + AllEntries(users[1..])
  }

  datatype Outcome = NothingToMigrate | Migrated(target: Folder, tally: Tally, oldUsers: seq<UserDir>)

  /** `migrate_artworks`, from the listing of data/artworks and the shared folder's contents. */
  function Migrate(dirs: seq<UserDir>, target: Folder,
                   parse: seq<byte> -> Option<Json>, dump: Dict -> seq<byte>): (r: Outcome)
    ensures r.NothingToMigrate? <==> forall u :: u in dirs ==> u.name == TARGET_USER
    ensures r.Migrated? ==> r.oldUsers == OldUsers(dirs)
  {
    var olds := OldUsers(dirs);
    if |olds| == 0 then NothingToMigrate
    else
      var done := Process(target, Tally(0, 0, 0), AllEntries(olds), parse, dump);
      Migrated(done.0, done.1, olds)
  }

  /** Every file is counted once, as migrated or as skipped; directories are not counted. */
  lemma {:induction false} ProcessCounts(target: Folder, tally: Tally, es: seq<Entry>,
                                         parse: seq<byte> -> Option<Json>, dump: Dict -> seq<byte>)
    requires tally.total == tally.migrated + tally.skipped
    ensures Process(target, tally, es, parse, dump).1.total == tally.total + FileCount(es)
    ensures Process(target, tally, es, parse, dump).1.total
         == Process(target, tally, es, parse, dump).1.migrated + Process(target, tally, es, parse, dump).1.skipped
    decreases |es|
  {
    if |es| > 0 {
      var next := Step(target, tally, es[0], parse, dump);
      ProcessCounts(next.0, next.1, es[1..], parse, dump);
    }
  }

  /** Afterwards, every file that was listed has a counterpart in the shared folder, and nothing there is lost. */
  lemma {:induction false} ProcessLands(target: Folder, tally: Tally, es: seq<Entry>,
                                        parse: seq<byte> -> Option<Json>, dump: Dict -> seq<byte>)
    ensures Process(target, tally, es, parse, dump).0.Keys
         == target.Keys + (set i | 0 <= i < |es| && es[i].File? :: es[i].rel)
    decreases |es|
  {
    if |es| > 0 {
      var next := Step(target, tally, es[0], parse, dump);
      ProcessLands(next.0, next.1, es[1..], parse, dump);
      var rest := set i | 0 <= i < |es[1..]| && es[1..][i].File? :: es[1..][i].rel;
      var all := set i | 0 <= i < |es| && es[i].File? :: es[i].rel;
      assert all == (if es[0].File? then {es[0].rel} else {}) + rest by {
        forall p | p in all ensures p in (if es[0].File? then {es[0].rel} else {}) + rest {
          var i :| 0 <= i < |es| && es[i].File? && es[i].rel == p;
          if i > 0 { assert es[1..][i - 1] == es[i]; }
        }
        forall p | p in rest ensures p in all {
          var i :| 0 <= i < |es[1..]| && es[1..][i].File? && es[1..][i].rel == p;
          assert es[i + 1] == es[1..][i];
        }
      }
    }
  }

  /** The migration's report: total = migrated + skipped, and total is the number of old users' files. */
  lemma MigrationTallies(dirs: seq<UserDir>, target: Folder,
                         parse: seq<byte> -> Option<Json>, dump: Dict -> seq<byte>)
    ensures Migrate(dirs, target, parse, dump).Migrated? ==>
      var t := Migrate(dirs, target, parse, dump).tally;
      t.total == t.migrated + t.skipped && t.total == FileCount(AllEntries(OldUsers(dirs)))
  {
    ProcessCounts(target, Tally(0, 0, 0), AllEntries(OldUsers(dirs)), parse, dump);
  }

  /** A file only an old user has ends up in the shared folder with the same contents. */
  lemma NewFileIsCopied(target: Folder, rel: RelPath, content: seq<byte>, tally: Tally,
                        parse: seq<byte> -> Option<Json>, dump: Dict -> seq<byte>)
    requires rel !in target
    ensures Step(target, tally, File(rel, content), parse, dump).0 == target[rel := content]
    ensures Step(target, tally, File(rel, content), parse, dump).1.migrated == tally.migrated + 1
  {
  }

  /** Two JSON objects under the same path are merged, the old file's values winning; a non-object on either side is skipped. */
  lemma JsonConflictIsMerged(target: Folder, rel: RelPath, content: seq<byte>, tally: Tally,
                             parse: seq<byte> -> Option<Json>, dump: Dict -> seq<byte>)
    requires rel in target && IsJsonFile(rel)
    ensures var r := Step(target, tally, File(rel, content), parse, dump);
      match (parse(content), parse(target[rel]))
      case (Some(JObj(previous)), Some(JObj(existing))) =>
        r.0 == target[rel := dump(MergeJson(existing, previous))] && r.1.migrated == tally.migrated + 1
      case _ => r.0 == target && r.1.skipped == tally.skipped + 1
  {
  }

  /** A name ending in ".json" has that suffix exactly when something comes before it: ".json" alone is a hidden file with none. */
  lemma JsonSuffix(stem: string)
    ensures Suffix(stem + ".json") == ".json" <==> |stem| > 0
  {
    var name := stem + ".json";
    assert name[|name| - 5] == '.';
    assert forall k :: |name| - 5 < k < |name| ==> name[k] != '.';
    var i := Text.RFind(name, '.');
    assert i == |name| - 5;
  }
}

/**
 * The paging of the gallery page: the list of saved images is shown twelve
 * at a time, with previous/next buttons, and each card recovers its artwork
 * id from the image's file name.
 */
module Gallery {
  import opened Wrappers
  import Text
  import FileHandler

  const PER_PAGE: nat := 12

  /** `(n - 1) // 12 + 1` for a non-empty list: the fewest pages of twelve that hold n items. */
  function TotalPages(n: nat): (r: nat)
    requires n > 0
    ensures r >= 1
    ensures (r - 1) * PER_PAGE < n <= r * PER_PAGE
  {
    (n - 1) / PER_PAGE + 1
  }

  /** Python's reading of a slice bound: negative counts from the end, then clamped to the list. */
  function Bound(i: int, n: nat): (r: nat)
    ensures r <= n
    ensures 0 <= i <= n ==> r == i
  {
    if i < 0 then (if i + n < 0 then 0 else i + n)
    else if i > n then n
    else i
  }

  /** `xs[a:b]` with Python's semantics: never an error, empty when the bounds cross. */
  function Slice<T>(xs: seq<T>, a: int, b: int): (r: seq<T>)
    ensures |r| <= |xs|
  {
    var lo := Bound(a, |xs|);
    var hi := Bound(b, |xs|);
    if lo < hi then xs[lo..hi] else []
  }

  function Min(a: int, b: int): int {
    if a <= b then a else b
  }

  /** The batch shown on page `page`: `items[page*12 : page*12+12]`. */
  function Page<T>(items: seq<T>, page: int): (r: seq<T>)
    ensures |r| <= PER_PAGE
    ensures page >= 0 ==> r == items[Min(page * PER_PAGE, |items|)..Min(page * PER_PAGE + PER_PAGE, |items|)]
  {
    Slice(items, page * PER_PAGE, page * PER_PAGE + PER_PAGE)
  }

  /** Pages 0 .. k-1 laid end to end. */
  function Pages<T>(items: seq<T>, k: nat): seq<T> {
    if k == 0 then [] else Pages(items, k - 1) + Page(items, k - 1)
  }

  lemma {:induction false} PagesArePrefix<T>(items: seq<T>, k: nat)
    ensures Pages(items, k) == items[..Min(k * PER_PAGE, |items|)]
  {
    if k > 0 {
      PagesArePrefix(items, k - 1);
      var a := Min((k - 1) * PER_PAGE, |items|);
      var b := Min(k * PER_PAGE, |items|);
      assert Page(items, k - 1) == items[a..b];
      assert items[..a] + items[a..b] == items[..b];
    }
  }

  /** The pages, in order, hold every item exactly once: together they are the list. */
  lemma PagesPartition<T>(items: seq<T>)
    requires |items| > 0
    ensures Pages(items, TotalPages(|items|)) == items
  {
    PagesArePrefix(items, TotalPages(|items|));
  }

  /** Item i is card i % 12 of page i // 12. */
  lemma ItemOnPage<T>(items: seq<T>, i: nat)
    requires i < |items|
    ensures i / PER_PAGE < TotalPages(|items|)
    ensures i % PER_PAGE < |Page(items, i / PER_PAGE)|
    ensures Page(items, i / PER_PAGE)[i % PER_PAGE] == items[i]
  {
    var p := i / PER_PAGE;
    assert p * PER_PAGE <= i < p * PER_PAGE + PER_PAGE;
  }

  /** Every page in range is non-empty; a page left over from a longer list is empty. */
  lemma PageInRange<T>(items: seq<T>, page: int)
    requires |items| > 0
    ensures 0 <= page < TotalPages(|items|) ==> |Page(items, page)| > 0
    ensures page >= TotalPages(|items|) ==> Page(items, page) == []
  {
  }

  datatype View<T> =
    | EmptyGallery
    | Showing(totalPages: nat, controls: bool, prevDisabled: bool, nextDisabled: bool, batch: seq<T>)

  /**
   * One rendering of the gallery for the stored page number (0 when the
   * session has none): an empty list shows the empty-gallery message and
   * stops; otherwise the buttons appear when there is more than one page.
   */
  function ShowGallery<T>(items: seq<T>, storedPage: Option<int>): (v: View<T>)
    ensures v.EmptyGallery? <==> |items| == 0
    ensures v.Showing? ==> |items| > 0 && v.totalPages == TotalPages(|items|)
    ensures v.Showing? ==> (v.controls <==> |items| > PER_PAGE)
    ensures v.Showing? ==> v.batch == Page(items, storedPage.GetOr(0))
    ensures v.Showing? ==> (v.prevDisabled <==> storedPage.GetOr(0) == 0)
    ensures v.Showing? ==> (v.nextDisabled <==> storedPage.GetOr(0) == v.totalPages - 1)
  {
    if |items| == 0 then EmptyGallery
    else
      var total := TotalPages(|items|);
      var current := storedPage.GetOr(0);
      Showing(total, total > 1, current == 0, current == total - 1, Page(items, current))
  }

  datatype Button = Previous | Next

  /** The page number after pressing an enabled button, or unchanged when it is disabled. */
  function Press<T>(v: View<T>, current: int, b: Button): int {
    if !v.Showing? || !v.controls then current
    else match b
      case Previous => if v.prevDisabled then current else current - 1
      case Next => if v.nextDisabled then current else current + 1
  }

  /** Starting on a page that exists, the buttons never lead off the list. */
  lemma NavigationStaysInRange<T>(items: seq<T>, current: int, b: Button)
    requires |items| > 0 && 0 <= current < TotalPages(|items|)
    ensures 0 <= Press(ShowGallery(items, Some(current)), current, b) < TotalPages(|items|)
  {
  }

  /** `filename.split('_')[0]`: the artwork id a card shows. */
  function ArtworkIdOf(filename: string): (r: string)
    ensures '_' !in r && Text.StartsWith(filename, r)
  {
    Text.BeforeFirst(filename, '_')
  }

  lemma {:induction false} BeforeFirstOfJoin(a: string, sep: char, rest: string)
    requires sep !in a
    ensures Text.BeforeFirst(a + [sep] + rest, sep) == a
  {
    if |a| > 0 {
      assert (a + [sep] + rest)[1..] == a[1..] + [sep] + rest;
      BeforeFirstOfJoin(a[1..], sep, rest);
    }
  }

  /** The id read back from a saved image's name is the id it was saved under exactly when the id has no underscore. */
  lemma IdRecoveredIff(artworkId: string, timestamp: string)
    ensures ArtworkIdOf(FileHandler.ImageFileName(artworkId, timestamp)) == artworkId <==> '_' !in artworkId
  {
    if '_' !in artworkId {
      assert FileHandler.ImageFileName(artworkId, timestamp) == artworkId + ['_'] + (timestamp + ".png");
      BeforeFirstOfJoin(artworkId, '_', timestamp + ".png");
    }
  }
}

/** The "View More" window that both client lists (the stock tabs and the
    news feed) put in front of a fetched list: the first `visible` items are
    rendered, a button offers the rest five at a time, and the final rendered
    row loses its divider once nothing remains hidden. */
module Paging {

  /** The initial window, and how far one "View More" press widens it. */
  const PageSize: int := 5

  function Min(a: int, b: int): int {
    if a <= b then a else b
  }

  /** `s.slice(0, end)`: a negative end counts back from the length, and an
      end past the length stops at it. */
  function SliceTo<T>(s: seq<T>, end: int): (r: seq<T>)
    ensures r <= s
    ensures end >= 0 ==> |r| == Min(end, |s|)
    ensures end < 0 ==> |r| == if |s| + end > 0 then |s| + end else 0
  {
    var stop := if end >= 0 then Min(end, |s|) else if |s| + end > 0 then |s| + end else 0;
    s[..stop]
  }

  /** The rows rendered for `items`: none while loading or showing an error,
      otherwise the slice up to `visible`. */
  function Window<T>(items: seq<T>, visible: int, blocked: bool): (r: seq<T>)
    requires visible > 0
    ensures blocked ==> r == []
    ensures !blocked ==> |r| == Min(visible, |items|) && r == items[..|r|]
  {
    if blocked then [] else SliceTo(items, visible)
  }

  /** Whether the "View More" button is rendered. */
  predicate ViewMoreShown(count: int, visible: int, blocked: bool) {
    !blocked && visible < count
  }

  /** The "(n remaining)" count on the button. */
  function Remaining(count: int, visible: int, blocked: bool): (n: int)
    requires ViewMoreShown(count, visible, blocked)
    ensures n > 0 && visible + n == count
  {
    count - visible
  }

  /** `isLast` of the row at `idx` among `shown` rendered rows. */
  predicate IsLastRow(idx: int, shown: int, visible: int, count: int) {
    idx == shown - 1 && visible >= count
  }

  /** The `isLast` flag of every rendered row, in order: at most one row is
      flagged, none while more rows remain hidden, and the final row once the
      whole list is rendered. */
  function LastFlags(shown: nat, visible: int, count: int): (flags: seq<bool>)
    ensures |flags| == shown
    ensures forall i, j :: 0 <= i < j < shown ==> !(flags[i] && flags[j])
    ensures visible < count ==> forall i :: 0 <= i < shown ==> !flags[i]
    ensures visible >= count && shown > 0 ==> flags[shown - 1]
  {
    seq(shown, i => IsLastRow(i, shown, visible, count))
  }

  /** Widening the window by one page keeps the rows already shown, in order,
      and reveals the next ones: a whole page, or the rest of the list. */
  lemma ViewMoreExtendsWindow<T>(items: seq<T>, visible: int)
    requires visible > 0
    ensures Window(items, visible, false) <= Window(items, visible + PageSize, false)
    ensures |Window(items, visible + PageSize, false)| ==
            |Window(items, visible, false)| + Min(PageSize, if visible < |items| then |items| - visible else 0)
  {
  }

  /** Starting from one page, `presses` presses of "View More" widen the
      window to `PageSize * (presses + 1)`; the button stays available until
      the whole list is rendered, which takes this many presses. */
  function PressesToShowAll(count: nat): (presses: nat)
    ensures PageSize * (presses + 1) >= count
    ensures presses > 0 ==> PageSize * presses < count
  {
    if count <= PageSize then 0 else 1 + PressesToShowAll(count - PageSize)
  }

  /** What can happen to a window: a "View More" press (`setVisible(v => v + 5)`)
      or a tab press (`setVisible(5)`). */
  datatype WindowEvent = ViewMorePress | TabPress

  function Step(visible: int, event: WindowEvent): int {
    match event
    case ViewMorePress => visible + PageSize
    case TabPress => PageSize
  }

  /** Presses of "View More" since the last tab press. */
  function PressesSinceReset(events: seq<WindowEvent>): nat {
    if events == [] then 0
    else if events[|events| - 1] == TabPress then 0
    else PressesSinceReset(events[..|events| - 1]) + 1
  }

  /** The window after `events`, starting from `useState(5)`. */
  function VisibleAfter(events: seq<WindowEvent>): int {
    if events == [] then PageSize
    else Step(VisibleAfter(events[..|events| - 1]), events[|events| - 1])
  }

  /** Whatever the presses, the window is one page plus one page per "View
      More" press since the last tab press, so always a positive multiple of
      the page size. */
  lemma {:induction false} VisibleIsWholePages(events: seq<WindowEvent>)
    ensures VisibleAfter(events) == PageSize * (PressesSinceReset(events) + 1)
    ensures VisibleAfter(events) > 0 && VisibleAfter(events) % PageSize == 0
  {
    if events != [] {
      VisibleIsWholePages(events[..|events| - 1]);
    }
  }

  /** `k` presses of "View More" and nothing else. */
  function ViewMorePresses(k: nat): (events: seq<WindowEvent>)
    ensures |events| == k
  {
    seq(k, _ => ViewMorePress)
  }

  lemma {:induction false} WindowAfterPresses(k: nat)
    ensures VisibleAfter(ViewMorePresses(k)) == PageSize * (k + 1)
  {
    if k > 0 {
      assert ViewMorePresses(k)[..k - 1] == ViewMorePresses(k - 1);
      WindowAfterPresses(k - 1);
    }
  }

  /** `PressesToShowAll(count)` presses of "View More" from the initial
      window render the whole list and hide the button; after any fewer
      presses the button is still shown. */
  lemma PressesToShowAllIsExact(count: nat)
    ensures !ViewMoreShown(count, VisibleAfter(ViewMorePresses(PressesToShowAll(count))), false)
    ensures forall k: nat :: k < PressesToShowAll(count) ==>
              ViewMoreShown(count, VisibleAfter(ViewMorePresses(k)), false)
  {
    var p := PressesToShowAll(count);
    WindowAfterPresses(p);
    forall k: nat | k < p
      ensures ViewMoreShown(count, VisibleAfter(ViewMorePresses(k)), false)
    {
      WindowAfterPresses(k);
    }
  }
}

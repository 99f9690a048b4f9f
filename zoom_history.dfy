/**
 * The zoom history of the peak-analysis plot (FTIR_Processor.py): a list
 * of (xlim, ylim) views with a cursor, so the user can step back and
 * forward through earlier zooms. Adding a view discards everything after
 * the cursor, and the list never holds more than 50 views.
 *
 * Setting the axis limits and redrawing are left to the caller: `Back`
 * and `Forward` return the view to show, or None when the cursor did
 * not move.
 */
module ZoomHistory {
  import opened Common

  /** The most views the history keeps. */
  const MaxViews := 50

  /** One zoom state: the x and y axis limits. */
  datatype View = View(xlim: (real, real), ylim: (real, real))

  /** The history as a value: the views and the cursor (-1 when empty). */
  datatype History = History(views: seq<View>, cursor: int)

  /** The cursor sits on a view exactly when there is one, and the list stays bounded. */
  predicate WellFormed(h: History)
  {
    && |h.views| <= MaxViews
    && -1 <= h.cursor < |h.views|
    && (h.cursor == -1 <==> h.views == [])
  }

  /** The view shown at the cursor. */
  function Current(h: History): (v: Option<View>)
    requires WellFormed(h)
    ensures v.None? <==> h.views == []
  {
    if h.cursor >= 0 then Some(h.views[h.cursor]) else None
  }

  /** The last `n` elements of `s`, or all of them when there are fewer. */
  function LastN<T>(s: seq<T>, n: nat): (r: seq<T>)
    ensures |r| == if |s| <= n then |s| else n
    ensures forall i :: 0 <= i < |r| ==> r[i] == s[|s| - |r| + i]
  {
    if |s| <= n then s else s[|s| - n..]
  }

  /**
   * `add_zoom_history`: keep the views up to the cursor, append the new
   * one, move the cursor onto it, and drop the oldest view past 50.
   */
  function Push(h: History, v: View): (r: History)
    requires WellFormed(h)
    ensures WellFormed(r)
    ensures r.views == LastN(h.views[..h.cursor + 1] + [v], MaxViews)
    ensures r.cursor == |r.views| - 1 && Current(r) == Some(v)
  {
    var grown := h.views[..h.cursor + 1] + [v];
    if |grown| > MaxViews then History(grown[1..], |grown| - 2)
    else History(grown, |grown| - 1)
  }

  /** The back button is enabled. */
  predicate CanGoBack(h: History)
  {
    h.cursor > 0
  }

  /** The forward button is enabled. */
  predicate CanGoForward(h: History)
  {
    h.cursor < |h.views| - 1
  }

  /** `zoom_history_back`: one step towards older views, never past the first. */
  function StepBack(h: History): (r: History)
    requires WellFormed(h)
    ensures WellFormed(r) && r.views == h.views
    ensures CanGoBack(h) ==> r.cursor == h.cursor - 1
    ensures !CanGoBack(h) ==> r == h
  {
    if CanGoBack(h) then History(h.views, h.cursor - 1) else h
  }

  /** `zoom_history_forward`: one step towards newer views, never past the last. */
  function StepForward(h: History): (r: History)
    requires WellFormed(h)
    ensures WellFormed(r) && r.views == h.views
    ensures CanGoForward(h) ==> r.cursor == h.cursor + 1
    ensures !CanGoForward(h) ==> r == h
  {
    if CanGoForward(h) then History(h.views, h.cursor + 1) else h
  }

  /** After adding a view there is nothing to go forward to. */
  lemma PushClearsForward(h: History, v: View)
    requires WellFormed(h)
    ensures !CanGoForward(Push(h, v))
    ensures CanGoBack(Push(h, v)) <==> h.views != []
  {
  }

  /** Adding a view and stepping back shows again the view that was current before. */
  lemma PushThenBack(h: History, v: View)
    requires WellFormed(h) && h.views != []
    ensures Current(StepBack(Push(h, v))) == Current(h)
  {
    var grown := h.views[..h.cursor + 1] + [v];
    assert grown[h.cursor] == h.views[h.cursor];
  }

  /** Stepping back and then forward returns to the same state, and the other way round. */
  lemma BackForwardInverse(h: History)
    requires WellFormed(h)
    ensures CanGoBack(h) ==> StepForward(StepBack(h)) == h
    ensures CanGoForward(h) ==> StepBack(StepForward(h)) == h
  {
  }

  /** The views older than the cursor survive an addition, except the oldest once the list is full. */
  lemma PushKeepsHistory(h: History, v: View, i: int)
    requires WellFormed(h)
    requires 0 <= i <= h.cursor
    requires h.cursor + 1 < MaxViews || i > 0
    ensures var r := Push(h, v);
      var shift := if h.cursor + 1 < MaxViews then 0 else 1;
      r.views[i - shift] == h.views[i]
  {
  }

  /** The history held by the plot page. */
  class PeakZoomHistory {
    var views: seq<View>
    var cursor: int

    function State(): History
      reads this
    {
      History(views, cursor)
    }

    ghost predicate Valid()
      reads this
    {
      WellFormed(State())
    }

    /** An empty history with the cursor at -1. */
    constructor ()
      ensures Valid() && views == [] && cursor == -1
    {
      views, cursor := [], -1;
    }

    /** The first drawing of the plot records the original view, once. */
    method Seed(original: View)
      requires Valid()
      modifies this
      ensures Valid()
      ensures old(views) == [] ==> views == [original] && cursor == 0
      ensures old(views) != [] ==> unchanged(this)
    {
      if |views| == 0 {
        views := views + [original];
        cursor := 0;
      }
    }

    /** `add_zoom_history` */
    method Add(v: View)
      requires Valid()
      modifies this
      ensures Valid()
      ensures State() == Push(old(State()), v)
    {
      views := views[..cursor + 1];
      views := views + [v];
      cursor := |views| - 1;
      if |views| > MaxViews {
        views := views[1..];
        cursor := cursor - 1;
      }
    }

    /** `zoom_history_back`: the view to show, when the cursor moved. */
    method Back() returns (shown: Option<View>)
      requires Valid()
      modifies this
      ensures Valid()
      ensures State() == StepBack(old(State()))
      ensures shown.Some? <==> CanGoBack(old(State()))
      ensures shown.Some? ==> shown == Current(State())
    {
      shown := None;
      if cursor > 0 {
        cursor := cursor - 1;
        shown := Some(views[cursor]);
      }
    }

    /** `zoom_history_forward`: the view to show, when the cursor moved. */
    method Forward() returns (shown: Option<View>)
      requires Valid()
      modifies this
      ensures Valid()
      ensures State() == StepForward(old(State()))
      ensures shown.Some? <==> CanGoForward(old(State()))
      ensures shown.Some? ==> shown == Current(State())
    {
      shown := None;
      if cursor < |views| - 1 {
        cursor := cursor + 1;
        shown := Some(views[cursor]);
      }
    }

    /** `update_zoom_history_buttons`: whether back and forward are enabled. */
    function Buttons(): (enabled: (bool, bool))
      reads this
      requires Valid()
      ensures enabled.0 <==> StepBack(State()) != State()
      ensures enabled.1 <==> StepForward(State()) != State()
    {
      (CanGoBack(State()), CanGoForward(State()))
    }
  }
}

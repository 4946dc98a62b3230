/**
 * The window as a drop target. Drag-enter and drag-leave events also fire
 * for every child element the pointer crosses, so the drop overlay is kept
 * by a nesting depth: it shows on enter and hides only when the depth is
 * back at zero. A drop resets everything and routes an image file to the
 * artwork pane under the pointer's half of the window.
 */
module DropTarget {
  import opened Wrappers
  import opened Materials

  datatype DragEvent = DragEnter | DragLeave | Drop

  /** The counter and whether the overlay shows. */
  datatype DragState = DragState(depth: int, overlayVisible: bool)

  const Idle := DragState(0, false)

  /** The depth is never negative and the overlay shows exactly while it is positive. */
  predicate Consistent(s: DragState)
  {
    s.depth >= 0 && (s.overlayVisible <==> s.depth > 0)
  }

  /** One event. */
  function Next(s: DragState, e: DragEvent): (r: DragState)
    ensures s.depth >= 0 ==> r.depth >= 0
    ensures Consistent(s) ==> Consistent(r)
    ensures e == DragEnter ==> r.overlayVisible && r.depth == s.depth + 1
    ensures e == DragLeave && r.depth == 0 ==> !r.overlayVisible
    ensures e == DragLeave && r.depth != 0 ==> r.overlayVisible == s.overlayVisible
    ensures e == Drop ==> r == Idle
  {
    match e
    case DragEnter => DragState(s.depth + 1, true)
    case DragLeave =>
      var d := if s.depth - 1 < 0 then 0 else s.depth - 1;
      if d == 0 then DragState(d, false) else DragState(d, s.overlayVisible)
    case Drop => Idle
  }

  /** A sequence of events, in order. */
  function Run(s: DragState, events: seq<DragEvent>): DragState
    decreases |events|
  {
    if events == [] then s else Run(Next(s, events[0]), events[1..])
  }

  function Repeat(e: DragEvent, n: nat): (r: seq<DragEvent>)
    ensures |r| == n && forall i :: 0 <= i < n ==> r[i] == e
  {
    if n == 0 then [] else [e] + Repeat(e, n - 1)
  }

  lemma {:induction false} RunAppend(s: DragState, a: seq<DragEvent>, b: seq<DragEvent>)
    ensures Run(s, a + b) == Run(Run(s, a), b)
    decreases |a|
  {
    if a == [] {
      assert a + b == b;
    } else {
      assert (a + b)[0] == a[0] && (a + b)[1..] == a[1..] + b;
      RunAppend(Next(s, a[0]), a[1..], b);
    }
  }

  /** No sequence of events breaks the invariant, so the depth never goes negative. */
  lemma {:induction false} RunKeepsConsistent(s: DragState, events: seq<DragEvent>)
    requires Consistent(s)
    ensures Consistent(Run(s, events))
    decreases |events|
  {
    if events != [] {
      RunKeepsConsistent(Next(s, events[0]), events[1..]);
    }
  }

  /** Whatever came before, a drop leaves the target idle. */
  lemma DropResets(s: DragState, events: seq<DragEvent>)
    ensures Run(s, events + [Drop]) == Idle
  {
    RunAppend(s, events, [Drop]);
  }

  /** n nested enters raise the depth by n and show the overlay. */
  lemma {:induction false} Enters(s: DragState, n: nat)
    ensures Run(s, Repeat(DragEnter, n)) == if n == 0 then s else DragState(s.depth + n, true)
    decreases n
  {
    if n > 0 {
      assert Repeat(DragEnter, n)[1..] == Repeat(DragEnter, n - 1);
      Enters(Next(s, DragEnter), n - 1);
    }
  }

  /** k leaves lower the depth by k, never below zero; the overlay hides only at zero. */
  lemma {:induction false} Leaves(s: DragState, k: nat)
    requires Consistent(s)
    ensures var d := if s.depth - k < 0 then 0 else s.depth - k;
      Run(s, Repeat(DragLeave, k)) == DragState(d, d > 0)
    decreases k
  {
    if k > 0 {
      assert Repeat(DragLeave, k)[1..] == Repeat(DragLeave, k - 1);
      Leaves(Next(s, DragLeave), k - 1);
    }
  }

  /**
   * From idle, n enters followed by k leaves (the pointer crossing nested
   * elements) keep the overlay shown exactly while fewer leaves than enters
   * have arrived.
   */
  lemma NestedDrag(n: nat, k: nat)
    ensures Run(Idle, Repeat(DragEnter, n) + Repeat(DragLeave, k)).overlayVisible <==> k < n
  {
    RunAppend(Idle, Repeat(DragEnter, n), Repeat(DragLeave, k));
    Enters(Idle, n);
    Leaves(Run(Idle, Repeat(DragEnter, n)), k);
  }

  /** A dropped file, described by its MIME type. */
  datatype DroppedFile = DroppedFile(mimeType: string)

  predicate StartsWith(s: string, prefix: string)
  {
    |prefix| <= |s| && s[..|prefix|] == prefix
  }

  predicate IsImage(f: DroppedFile)
  {
    StartsWith(f.mimeType, "image/")
  }

  /**
   * The pane a drop applies to: none for a missing or non-image file,
   * otherwise the front pane on the window's left half and the back pane
   * on its right half.
   */
  function DropPane(file: Option<DroppedFile>, clientX: real, innerWidth: real): (r: Option<Material>)
    ensures r.Some? <==> file.Some? && IsImage(file.value)
    ensures r.Some? ==> r.value.IsArtPane()
    ensures r == Some(FrontPane) <==> file.Some? && IsImage(file.value) && clientX < innerWidth / 2.0
    ensures r == Some(BackPane) <==> file.Some? && IsImage(file.value) && innerWidth / 2.0 <= clientX
  {
    if file.None? || !IsImage(file.value) then None
    else if clientX < innerWidth / 2.0 then Some(FrontPane)
    else Some(BackPane)
  }

  /** The window's drop handlers and the depth they share. */
  class DropZone {
    var depth: int
    var overlayVisible: bool

    function State(): DragState
      reads this
    {
      DragState(depth, overlayVisible)
    }

    constructor ()
      ensures State() == Idle
    {
      depth, overlayVisible := 0, false;
    }

    method OnDragEnter()
      modifies this
      ensures State() == Next(old(State()), DragEnter)
    {
      depth := depth + 1;
      overlayVisible := true;
    }

    method OnDragLeave()
      modifies this
      ensures State() == Next(old(State()), DragLeave)
    {
      depth := if 0 < depth - 1 then depth - 1 else 0;
      if depth == 0 {
        overlayVisible := false;
      }
    }

    /**
     * Resets the counter, hides the overlay and returns the pane whose
     * artwork the dropped file is to replace, if any; reading the file and
     * binding it is Materials.SleeveMaterials.ApplyCustomArtwork.
     */
    method HandleDrop(file: Option<DroppedFile>, clientX: real, innerWidth: real) returns (target: Option<Material>)
      modifies this
      ensures State() == Next(old(State()), Drop) && State() == Idle
      ensures target == DropPane(file, clientX, innerWidth)
    {
      depth := 0;
      overlayVisible := false;
      if file.None? || !StartsWith(file.value.mimeType, "image/") {
        return None;
      }
      target := if clientX < innerWidth / 2.0 then Some(FrontPane) else Some(BackPane);
    }
  }
}

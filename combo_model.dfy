/**
 * Values behind the combo (dropdown) controller: its placement configuration
 * (anchor alignment and custom width, with the edge and width constraints they drive),
 * the open height computed from the delegate's row heights, and the callbacks and
 * side effects an observer sees.
 */
module ComboModel {

  datatype Option<T> = None | Some(value: T)

  /** Horizontal placement of the content view relative to the anchor view. */
  datatype Alignment = Auto | Leading | Trailing | Center

  /** Width of the content view: the anchor's own, or an explicit value. */
  datatype Width = AutoWidth | Fixed(value: int)

  /** The lifecycle state the controller publishes (declared, never updated by it). */
  datatype Phase = Opened | Closed

  /** What the outside world observes: delegate callbacks, the dismissal of the
      presented controller, a caller's completion block and a table-view deselection. */
  datatype Event =
    | WillOpen(animated: bool)
    | DidOpen(animated: bool)
    | WillClose(animated: bool)
    | DidClose(animated: bool)
    | DidSelect(row: int)
    | Dismissed
    | CompletionRan(id: int)
    | RowDeselected(row: int)

  /** The completion block handed to close: the controller's own "dismiss, then report
      didClose(animated)" block, or a block supplied by a caller, identified by `id`. */
  datatype Completion = DismissThenReport(animated: bool) | Caller(id: int)

  /** Events that running a completion block produces. */
  function CompletionTrace(c: Completion): seq<Event> {
    match c
    case DismissThenReport(animated) => [Dismissed, DidClose(animated)]
    case Caller(id) => [CompletionRan(id)]
  }

  // ---------------------------------------------------------------------------
  // Placement configuration

  /** The placement-related state: the two configuration properties, whether the
      leading and trailing edge constraints are active, and the width constant. */
  datatype Layout = Layout(
    alignment: Alignment,
    customWidth: Width,
    leadingActive: bool,
    trailingActive: bool,
    widthConstant: int)

  /** The leading edge is pinned to the anchor for automatic and leading alignment. */
  predicate PinsLeading(a: Alignment) {
    a == Auto || a == Leading
  }

  /** The trailing edge is pinned to the anchor for automatic and trailing alignment. */
  predicate PinsTrailing(a: Alignment) {
    a == Auto || a == Trailing
  }

  /** The edge constraints are the ones the current alignment calls for. */
  predicate EdgesAgree(l: Layout) {
    l.leadingActive == PinsLeading(l.alignment) && l.trailingActive == PinsTrailing(l.alignment)
  }

  /** An explicit width is the one the width constraint holds. */
  predicate WidthAgrees(l: Layout) {
    l.customWidth.Fixed? ==> l.widthConstant == l.customWidth.value
  }

  predicate Consistent(l: Layout) {
    EdgesAgree(l) && WidthAgrees(l)
  }

  /** The placement right after construction, for an anchor of width `anchorWidth`. */
  function InitialLayout(anchorWidth: int): (l: Layout)
    ensures Consistent(l)
    ensures l.alignment == Auto && l.customWidth == AutoWidth && l.widthConstant == anchorWidth
  {
    Layout(Auto, AutoWidth, true, true, anchorWidth)
  }

  /** Assigning `anchorAligment := a`: the observer switches the edge constraints,
      then the property takes the new value. */
  function WillSetAlignment(l: Layout, a: Alignment): (r: Layout)
    ensures r.alignment == a && EdgesAgree(r)
    ensures r.customWidth == l.customWidth && r.widthConstant == l.widthConstant
  {
    match a
    case Auto => l.(trailingActive := true, leadingActive := true, alignment := a)
    case Center => l.(trailingActive := false, leadingActive := false, alignment := a)
    case Leading => l.(trailingActive := false, leadingActive := true, alignment := a)
    case Trailing => l.(trailingActive := true, leadingActive := false, alignment := a)
  }

  /** Assigning `customWidth := w`: an automatic width forces automatic alignment; an
      explicit width is stored in the width constant and turns automatic alignment (only)
      into centred alignment; then the property takes the new value. */
  function WillSetWidth(l: Layout, w: Width): (r: Layout)
    ensures r.customWidth == w && WidthAgrees(r)
    ensures w == AutoWidth ==> r.alignment == Auto && r.leadingActive && r.trailingActive
    ensures w == AutoWidth ==> r.widthConstant == l.widthConstant
    ensures w.Fixed? ==> r.alignment == (if l.alignment == Auto then Center else l.alignment)
    ensures w.Fixed? && l.alignment == Auto ==> !r.leadingActive && !r.trailingActive
    ensures w.Fixed? && l.alignment != Auto ==>
      r.leadingActive == l.leadingActive && r.trailingActive == l.trailingActive
    ensures EdgesAgree(l) ==> EdgesAgree(r)
  {
    match w
    case AutoWidth => WillSetAlignment(l, Auto).(customWidth := w)
    case Fixed(v) =>
      var sized := l.(widthConstant := v);
      (if l.alignment == Auto then WillSetAlignment(sized, Center) else sized).(customWidth := w)
  }

  /** One assignment to a placement property. */
  datatype LayoutChange = AlignTo(alignment: Alignment) | ResizeTo(width: Width)

  function ApplyChange(l: Layout, c: LayoutChange): Layout {
    match c
    case AlignTo(a) => WillSetAlignment(l, a)
    case ResizeTo(w) => WillSetWidth(l, w)
  }

  /** The placement after a series of assignments, in order. */
  function Configure(l: Layout, cs: seq<LayoutChange>): Layout
    decreases |cs|
  {
    if cs == [] then l else Configure(ApplyChange(l, cs[0]), cs[1..])
  }

  /** Whatever assignments the client makes, the edge constraints stay those the
      alignment calls for and an explicit width stays the width constant. */
  lemma {:induction false} ConfigureKeepsConsistent(l: Layout, cs: seq<LayoutChange>)
    requires Consistent(l)
    ensures Consistent(Configure(l, cs))
    decreases |cs|
  {
    if cs != [] {
      ConfigureKeepsConsistent(ApplyChange(l, cs[0]), cs[1..]);
    }
  }

  /** Alignment assignments alone never change the width constant nor the custom width. */
  lemma {:induction false} AlignmentKeepsWidth(l: Layout, cs: seq<LayoutChange>)
    requires forall i :: 0 <= i < |cs| ==> cs[i].AlignTo?
    ensures Configure(l, cs).widthConstant == l.widthConstant
    ensures Configure(l, cs).customWidth == l.customWidth
    decreases |cs|
  {
    if cs != [] {
      AlignmentKeepsWidth(ApplyChange(l, cs[0]), cs[1..]);
    }
  }

  /** Switching from automatic alignment to an explicit width centres the content;
      switching back to the automatic width restores automatic alignment with both
      edges pinned, and keeps the explicit width in the width constant. */
  lemma FixedThenAutoWidth(l: Layout, v: int)
    requires l.alignment == Auto
    ensures WillSetWidth(l, Fixed(v)).alignment == Center
    ensures var r := WillSetWidth(WillSetWidth(l, Fixed(v)), AutoWidth);
      r.alignment == Auto && r.leadingActive && r.trailingActive && r.widthConstant == v
  {
  }

  // ---------------------------------------------------------------------------
  // Open height

  function Min(a: int, b: int): int {
    if a <= b then a else b
  }

  /** Sum of the row heights, accumulated in row order. */
  function RowsSum(h: seq<int>): int
    decreases |h|
  {
    if h == [] then 0 else RowsSum(h[..|h| - 1]) + h[|h| - 1]
  }

  /** The height the content view opens to: the first `min(rows, maxRows)` rows. */
  function OpenHeight(h: seq<int>, maxRows: nat): int {
    RowsSum(h[..Min(|h|, maxRows)])
  }

  lemma {:induction false} RowsSumAppend(a: seq<int>, b: seq<int>)
    ensures RowsSum(a + b) == RowsSum(a) + RowsSum(b)
    decreases |b|
  {
    if b != [] {
      var b' := b[..|b| - 1];
      assert (a + b)[..|a + b| - 1] == a + b';
      assert (a + b)[|a + b| - 1] == b[|b| - 1];
      RowsSumAppend(a, b');
    } else {
      assert a + b == a;
    }
  }

  /** When the delegate reports the same height `c` for every row, the sum is that
      height times the number of rows. */
  lemma {:induction false} RowsSumUniform(h: seq<int>, c: int)
    requires forall i :: 0 <= i < |h| ==> h[i] == c
    ensures RowsSum(h) == |h| * c
    decreases |h|
  {
    if h != [] {
      RowsSumUniform(h[..|h| - 1], c);
    }
  }

  lemma {:induction false} RowsSumNonnegative(h: seq<int>)
    requires forall i :: 0 <= i < |h| ==> h[i] >= 0
    ensures RowsSum(h) >= 0
    decreases |h|
  {
    if h != [] {
      RowsSumNonnegative(h[..|h| - 1]);
    }
  }

  /** With non-negative heights, showing more rows never makes the open content shorter. */
  lemma OpenHeightMonotone(h: seq<int>, m: nat, m': nat)
    requires forall i :: 0 <= i < |h| ==> h[i] >= 0
    requires m <= m'
    ensures OpenHeight(h, m) <= OpenHeight(h, m')
  {
    var n, n' := Min(|h|, m), Min(|h|, m');
    assert h[..n'] == h[..n] + h[n..n'];
    RowsSumAppend(h[..n], h[n..n']);
    RowsSumNonnegative(h[n..n']);
  }

  /** A row cap at or above the number of rows shows every row. */
  lemma OpenHeightAllRows(h: seq<int>, m: nat)
    requires |h| <= m
    ensures OpenHeight(h, m) == RowsSum(h)
  {
    assert h[..|h|] == h;
  }
}

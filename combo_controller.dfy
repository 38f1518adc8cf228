/**
 * The combo controller as an object: its configuration observers, the row-count query
 * that switches scrolling off, the open-height loop, and the open / close / selection /
 * back-button / size-transition paths with the callbacks they emit, in order.
 * Views are abstracted to the constraint flags and constants they hold; an animated
 * update is taken as applied when its animation completes.
 */
module ComboControl {
  import opened ComboModel

  class ComboController {
    /** The delegate's row heights, one per row; the row count is their number. */
    const rowHeights: seq<int>
    /** Everything the delegate, the presenting controller and completion blocks see. */
    var events: seq<Event>

    var maxRows: int
    /** Declared by the source and never assigned by the controller. */
    var state: Phase

    var anchorAlignment: Alignment
    var customWidth: Width
    var leadingActive: bool
    var trailingActive: bool
    var widthConstant: int
    var heightConstant: int
    var scrollEnabled: bool
    var selectedRow: Option<int>

    ghost function Layout(): Layout
      reads this
    {
      ComboModel.Layout(anchorAlignment, customWidth, leadingActive, trailingActive, widthConstant)
    }

    ghost predicate Valid()
      reads this
    {
      Consistent(Layout())
    }

    /** A fresh controller: both edge constraints active, width of the anchor, closed height. */
    constructor (rowHeights: seq<int>, anchorWidth: int)
      ensures Valid()
      ensures Layout() == InitialLayout(anchorWidth)
      ensures this.rowHeights == rowHeights && events == []
      ensures maxRows == 3 && state == Closed
      ensures heightConstant == 0 && scrollEnabled && selectedRow == None
    {
      this.rowHeights := rowHeights;
      events := [];
      maxRows := 3;
      state := Closed;
      anchorAlignment := Auto;
      customWidth := AutoWidth;
      leadingActive, trailingActive := true, true;
      widthConstant := anchorWidth;
      heightConstant := 0;
      scrollEnabled := true;
      selectedRow := None;
    }

    /** `anchorAligment := a`, with its willSet observer. */
    method SetAnchorAlignment(a: Alignment)
      modifies this`anchorAlignment, this`leadingActive, this`trailingActive
      ensures Layout() == WillSetAlignment(old(Layout()), a)
      ensures old(Valid()) ==> Valid()
    {
      match a {
        case Auto =>
          trailingActive := true;
          leadingActive := true;
        case Center =>
          trailingActive := false;
          leadingActive := false;
        case Leading =>
          trailingActive := false;
          leadingActive := true;
        case Trailing =>
          trailingActive := true;
          leadingActive := false;
      }
      anchorAlignment := a;
    }

    /** `customWidth := w`, with its willSet observer, which may reassign the alignment. */
    method SetCustomWidth(w: Width)
      modifies this`anchorAlignment, this`leadingActive, this`trailingActive
      modifies this`widthConstant, this`customWidth
      ensures Layout() == WillSetWidth(old(Layout()), w)
      ensures old(Valid()) ==> Valid()
    {
      match w {
        case AutoWidth =>
          SetAnchorAlignment(Auto);
        case Fixed(v) =>
          widthConstant := v;
          if anchorAlignment == Auto {
            SetAnchorAlignment(Center);
          }
      }
      customWidth := w;
    }

    /** `height(withMaxRows:)`: adds up the delegate's row heights for the rows
        `0 ..< maxRows`, stopping at the first index that is not a row. */
    method Height(maxRows: int) returns (total: int)
      requires maxRows >= 0
      ensures total == OpenHeight(rowHeights, maxRows)
    {
      var rows := |rowHeights|;
      total := 0;
      var i := 0;
      while i < maxRows
        invariant 0 <= i <= maxRows && i <= rows
        invariant total == RowsSum(rowHeights[..i])
      {
        if i >= rows {
          break;
        }
        assert rowHeights[..i + 1][..i] == rowHeights[..i];
        total := total + rowHeights[i];
        i := i + 1;
      }
      assert i == Min(rows, maxRows);
    }

    /** `tableView(_:numberOfRowsInSection:)`: the delegate's row count, unchanged;
        scrolling is switched off when that count equals the row cap, and is never
        switched back on. */
    method NumberOfRows() returns (n: int)
      modifies this`scrollEnabled
      ensures n == |rowHeights|
      ensures scrollEnabled == (old(scrollEnabled) && n != maxRows)
    {
      n := |rowHeights|;
      if n == maxRows {
        scrollEnabled := false;
      }
    }

    /** `open(animated:)`: willOpen, grow to the open height, didOpen. */
    method Open(animated: bool)
      requires maxRows >= 0
      modifies this`heightConstant, this`events
      ensures heightConstant == OpenHeight(rowHeights, maxRows)
      ensures events == old(events) + [WillOpen(animated), DidOpen(animated)]
    {
      events := events + [WillOpen(animated)];
      var height := Height(maxRows);
      heightConstant := height;
      events := events + [DidOpen(animated)];
    }

    /** `viewDidAppear`: opens with animation. */
    method ViewDidAppear()
      requires maxRows >= 0
      modifies this`heightConstant, this`events
      ensures heightConstant == OpenHeight(rowHeights, maxRows)
      ensures events == old(events) + [WillOpen(true), DidOpen(true)]
    {
      Open(true);
    }

    /** Runs a completion block once. */
    method RunCompletion(completion: Completion)
      modifies this`events
      ensures events == old(events) + CompletionTrace(completion)
    {
      match completion {
        case DismissThenReport(animated) =>
          events := events + [Dismissed];
          events := events + [DidClose(animated)];
        case Caller(id) =>
          events := events + [CompletionRan(id)];
      }
    }

    /** `close(animated:completion:)`: willClose, shrink to height 0, run the
        completion block exactly once. */
    method Close(animated: bool, completion: Completion)
      modifies this`heightConstant, this`events
      ensures heightConstant == 0
      ensures events == old(events) + [WillClose(animated)] + CompletionTrace(completion)
    {
      events := events + [WillClose(animated)];
      heightConstant := 0;
      RunCompletion(completion);
    }

    /** `tableView(_:didSelectRowAt:)`: records the row, reports it, then closes with
        animation, dismisses and reports didClose(true). */
    method SelectRow(row: int)
      modifies this`selectedRow, this`heightConstant, this`events
      ensures selectedRow == Some(row) && heightConstant == 0
      ensures events == old(events) + [DidSelect(row), WillClose(true), Dismissed, DidClose(true)]
    {
      selectedRow := Some(row);
      events := events + [DidSelect(row)];
      Close(true, DismissThenReport(true));
    }

    /** `backButtonTapped`: a tap outside the list closes with animation and dismisses. */
    method BackButtonTapped()
      modifies this`heightConstant, this`events
      ensures heightConstant == 0
      ensures events == old(events) + [WillClose(true), Dismissed, DidClose(true)]
    {
      var animated := true;
      Close(animated, DismissThenReport(animated));
    }

    /** `viewWillTransition(to:with:)`: a size change closes without animation and dismisses. */
    method ViewWillTransition()
      modifies this`heightConstant, this`events
      ensures heightConstant == 0
      ensures events == old(events) + [WillClose(false), Dismissed, DidClose(false)]
    {
      Close(false, DismissThenReport(false));
    }

    /** `deselectRow`: deselects the recorded row in the table view, if there is one. */
    method DeselectRow()
      modifies this`events
      ensures events == old(events) + (if selectedRow.Some? then [RowDeselected(selectedRow.value)] else [])
    {
      if selectedRow.Some? {
        events := events + [RowDeselected(selectedRow.value)];
      }
    }
  }
}

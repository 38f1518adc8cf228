# CustomViews: combo controller and switch, modelled in Dafny

This project models the stateful logic inside two UIKit widgets: the combo (dropdown)
controller `ComboController` and the toggle control `Switch`. Views and layout are
abstracted away. What remains is each widget's configuration properties and their
observers, which constraints are active, the constants the widget writes, and the
ordered callbacks the widgets emit.

- `combo_model.dfy` (module `ComboModel`) holds the placement configuration as a value.
  It covers the anchor alignment and the custom width, the leading and trailing edge
  constraints they switch, and the width constant. It also holds the open height as a
  sum of the delegate's row heights, and the events an observer sees. Lemmas here cover
  runs of configuration changes and the height sum.
- `combo_controller.dfy` (module `ComboControl`) holds the controller as a class.
  - Its fields are the constraint flags and constants, `scrollEnabled`, and the selected
    row.
  - The delegate is abstracted as `rowHeights`: one height per row, with the row count
    being their number.
  - An append-only `events` log records delegate callbacks, the dismissal of the
    presented controller, completion blocks and table-view deselection.
  - Each method's `ensures` gives the whole new state and the events it appends, in
    order. Field-level `modifies` clauses say what else stays put.
- `switch_model.dfy` (module `SwitchModel`) holds the switch state as a value. It has one
  function per assignment the switch reacts to. Invariants cover which thumb constraint
  is active and the colours shown. Lemmas cover arbitrary runs of operations.
- `switch_control.dfy` (module `SwitchControl`) holds the switch as a class. Every method
  leaves `State()` equal to the matching `SwitchModel` function applied to the old state.

Animations are taken as applied at completion, in the same order as the non-animated
path. Row heights and widths are integers. Colours are opaque tokens.

Behaviour of the Swift code worth knowing:
- The `state` property (Opened/Closed) is never assigned by the controller. The model's
  `state` field is set to `Closed` at construction, and no method changes it.
- The row-count query only ever switches scrolling off. It never switches it back on when
  the count differs from `maxRows`.
- Assigning `on` re-renders even when the value is unchanged. There is no "only if
  changed" guard.
- An explicit width changes the alignment only when it was automatic, and then to
  centred. Leading, trailing and centred alignments are kept.
- Switching back to the automatic width does not reset the width constant. It only pins
  both edges to the anchor.
- `close` itself never reports `didClose`. The completion blocks of row selection, the
  back button and the size transition do, after dismissing.
- The size-transition close runs on every size transition, not only on size-class
  changes.

## Model

| member | source | states |
|---|---|---|
| ComboModel.InitialLayout | CustomViews/ComboController.swift:323-342 | after setup both edge constraints are active, alignment and width are automatic and the width constant is the anchor's width; this placement is consistent |
| ComboModel.WillSetAlignment | CustomViews/ComboController.swift:56-73 | after assigning the alignment, the leading constraint is active exactly for auto/leading and the trailing one exactly for auto/trailing; width settings untouched |
| ComboModel.WillSetWidth | CustomViews/ComboController.swift:75-87 | automatic width forces automatic alignment with both edges active; an explicit width becomes the width constant and turns only automatic alignment into centred (edges off), leaving other alignments and their edges unchanged; agreement of edges with alignment is preserved |
| ComboModel.ConfigureKeepsConsistent | CustomViews/ComboController.swift:56-87 | over any sequence of alignment and width assignments the edge constraints keep matching the alignment and an explicit width stays in the width constant |
| ComboModel.AlignmentKeepsWidth | CustomViews/ComboController.swift:56-73 | alignment assignments alone never change the width constant or the custom width |
| ComboModel.FixedThenAutoWidth | CustomViews/ComboController.swift:75-87 | from automatic alignment, an explicit width centres the content and going back to automatic width restores automatic alignment with both edges, keeping the width constant |
| ComboModel.RowsSumAppend | CustomViews/ComboController.swift:375-380 | the row-order sum of two runs of rows is the sum of their sums |
| ComboModel.RowsSumUniform | CustomViews/ComboController.swift:375-380 | when every row has height c, the sum of n rows is n times c |
| ComboModel.RowsSumNonnegative | CustomViews/ComboController.swift:375-380 | non-negative row heights give a non-negative height |
| ComboModel.OpenHeightMonotone | CustomViews/ComboController.swift:370-382 | with non-negative row heights, a larger row cap never gives a smaller open height |
| ComboModel.OpenHeightAllRows | CustomViews/ComboController.swift:370-382 | a row cap at or above the row count opens to the sum of all rows |
| ComboControl.ComboController.constructor | CustomViews/ComboController.swift:103-111 | a new controller is closed at height 0, scrolls, has no selected row, a row cap of 3, consistent automatic placement and an empty event log |
| ComboControl.ComboController.SetAnchorAlignment | CustomViews/ComboController.swift:56-73 | the new placement is WillSetAlignment of the old; nothing else changes; consistency is preserved |
| ComboControl.ComboController.SetCustomWidth | CustomViews/ComboController.swift:75-87 | the new placement is WillSetWidth of the old (the nested alignment assignment included); nothing else changes; consistency is preserved |
| ComboControl.ComboController.Height | CustomViews/ComboController.swift:370-382 | returns the sum, in row order, of the heights of rows 0 to min(rows, maxRows) - 1; it indexes no row at or beyond the row count; maxRows must be non-negative, as the source's range requires |
| ComboControl.ComboController.NumberOfRows | CustomViews/ComboController.swift:205-213 | returns the delegate's row count unchanged; scrolling becomes disabled exactly when the count equals maxRows and is never re-enabled |
| ComboControl.ComboController.Open | CustomViews/ComboController.swift:139-165 | logs WillOpen(b) then DidOpen(b); the height constant becomes the open height for maxRows |
| ComboControl.ComboController.ViewDidAppear | CustomViews/ComboController.swift:127-131 | appearing opens with animation |
| ComboControl.ComboController.RunCompletion | CustomViews/ComboController.swift:181-187 | the completion block passed to close runs once, appending its trace |
| ComboControl.ComboController.Close | CustomViews/ComboController.swift:167-188 | logs WillClose(b), sets the height constant to 0, then runs the completion exactly once |
| ComboControl.ComboController.SelectRow | CustomViews/ComboController.swift:252-263 | records row k, then logs DidSelect(k), WillClose(true), Dismissed, DidClose(true), in that order; height 0 |
| ComboControl.ComboController.BackButtonTapped | CustomViews/ComboController.swift:384-393 | logs WillClose(true), Dismissed, DidClose(true); height 0 |
| ComboControl.ComboController.ViewWillTransition | CustomViews/ComboController.swift:117-125 | logs WillClose(false), Dismissed, DidClose(false); height 0 |
| ComboControl.ComboController.DeselectRow | CustomViews/ComboController.swift:190-195 | deselects the recorded row if there is one, and does nothing otherwise |
| SwitchModel.Toogle | CustomViews/Switch.swift:220-250 | exactly one thumb constraint ends up active, the right one iff on; the track shows onColor/offColor and the thumb thumbOnColor/thumbOffColor by the value; the render is logged with its animation flag; value, flag, colours and sends unchanged |
| SwitchModel.AssignOn | CustomViews/Switch.swift:24-30 | assigning on := v leaves on == v, renders with the pending animation flag, then clears the flag; no colour setting or send changes |
| SwitchModel.SetValue | CustomViews/Switch.swift:82-85 | set(on: v, animated: a) leaves on == v, renders once with flag a, and leaves the flag false |
| SwitchModel.Tap | CustomViews/Switch.swift:252-256 | a tap negates on, renders once animated, sends exactly one valueChanged and leaves the flag false |
| SwitchModel.SetOnColor | CustomViews/Switch.swift:38-45 | stores onColor; the track changes to it only while on; nothing else changes |
| SwitchModel.SetOffColor | CustomViews/Switch.swift:47-54 | stores offColor; the track changes to it only while off; nothing else changes |
| SwitchModel.SetThumbColor | CustomViews/Switch.swift:56-62 | sets thumbColor, thumbOnColor, thumbOffColor and the displayed thumb to c, whatever the value; nothing else changes |
| SwitchModel.SetThumbOnColor | CustomViews/Switch.swift:64-71 | stores thumbOnColor; the thumb changes to it only while on; nothing else changes |
| SwitchModel.SetThumbOffColor | CustomViews/Switch.swift:73-80 | stores thumbOffColor; the thumb changes to it only while off; nothing else changes |
| SwitchModel.InitialIsValid | CustomViews/Switch.swift:137-218 | after setup the switch is off with only the left thumb constraint active and the off track colour, but the thumb shows the setup colour, not thumbOffColor |
| SwitchModel.RunKeepsValid | CustomViews/Switch.swift:25-80 | every sequence of value and colour assignments keeps one thumb constraint active on the side of the value, the right track colour, and no pending animation; a correctly painted thumb stays correct |
| SwitchModel.AssignmentShowsThumb | CustomViews/Switch.swift:25-30 | once the value has been assigned, the thumb shows the thumb colour of the value |
| SwitchModel.SendsCountTaps | CustomViews/Switch.swift:252-256 | over any run, the number of valueChanged sends grows by exactly the number of taps |
| SwitchModel.RendersCountAssignments | CustomViews/Switch.swift:25-30 | over any run, toogle runs once per value assignment (set, direct assignment or tap) and never for a colour change |
| SwitchModel.RepeatedTaps | CustomViews/Switch.swift:252-256 | n taps leave the value flipped iff n is odd |
| SwitchModel.ReassignSameValue | CustomViews/Switch.swift:25-30 | assigning the current value again re-renders (non-animated) to the same display |
| SwitchModel.TapTwice | CustomViews/Switch.swift:252-256 | two taps restore a rendered switch, adding two animated renders and two sends |
| SwitchControl.Switch.constructor | CustomViews/Switch.swift:87-100 | a new switch is in the setup state: off, not animating, left thumb constraint only, off track colour, default colours |
| SwitchControl.Switch.IsOn | CustomViews/Switch.swift:32-36 | isOn always equals on |
| SwitchControl.Switch.Toogle | CustomViews/Switch.swift:220-250 | the new state is SwitchModel.Toogle of the old |
| SwitchControl.Switch.AssignOn | CustomViews/Switch.swift:24-30 | the new state is SwitchModel.AssignOn of the old; validity is preserved |
| SwitchControl.Switch.Set | CustomViews/Switch.swift:82-85 | the new state is SwitchModel.SetValue of the old, and it is valid |
| SwitchControl.Switch.ButtonTapped | CustomViews/Switch.swift:252-256 | the new state is SwitchModel.Tap of the old, and it is valid |
| SwitchControl.Switch.SetOnColor | CustomViews/Switch.swift:38-45 | the new state is SwitchModel.SetOnColor of the old; validity is preserved |
| SwitchControl.Switch.SetOffColor | CustomViews/Switch.swift:47-54 | the new state is SwitchModel.SetOffColor of the old; validity is preserved |
| SwitchControl.Switch.SetThumbColor | CustomViews/Switch.swift:56-62 | the new state is SwitchModel.SetThumbColor of the old, via the two thumb-colour observers; validity is preserved |
| SwitchControl.Switch.SetThumbOnColor | CustomViews/Switch.swift:64-71 | the new state is SwitchModel.SetThumbOnColor of the old; validity is preserved |
| SwitchControl.Switch.SetThumbOffColor | CustomViews/Switch.swift:73-80 | the new state is SwitchModel.SetThumbOffColor of the old; validity is preserved |

## Left out

- View construction in both `setup()` methods, `prepareForInterfaceBuilder` and `awakeFromNib`. This is UIKit layout; only the initial state it leaves is modelled. `awakeFromNib` would also reassign `offColor`.
- `tableView(_:cellForRowAt:)`, the cell styling properties and the row titles. They depend on table-view and cell APIs.
- `numberOfSections`, `tableView(_:heightForRowAt:)` and `tag`. `numberOfSections` returns the constant 1; `tableView(_:heightForRowAt:)` only forwards the delegate's height; `tag` carries no logic.
- `showOn`, `present` and `dismiss`. `showOn` is not modelled; a dismissal is the single event `Dismissed`.
- The coder initializer of `ComboController`. It is an unsupported path that stops the program.
- Animation durations, curves and asynchronous completion. An animated update is applied at once, and only its flag is recorded.
- `view.setNeedsLayout` / `layoutIfNeeded`. They have no state of their own here.
- Floating-point heights and widths and their `CGFloat` conversion. They are integers here, so rounding in the sum is not modelled.
- Colour values and their `cgColor` conversion. Colours are opaque tokens.
- The delegate's row data is fixed for the controller's lifetime. A delegate whose answers change between queries, or that reports a negative row count, is not modelled.
- Reassigning `delegate` or `anchorView`. The anchor view only feeds `setup()`.
- Public writes to the internal `animated` flag of the switch. The model keeps it false between calls.
- ComboControl.ComboController.Height: a negative `maxRows` (a public property) makes the range `0 ..< maxRows` crash the program; `Height`, `Open` and `ViewDidAppear` exclude that case by precondition instead of modelling the crash.
- Concurrency. Everything runs on the main thread.

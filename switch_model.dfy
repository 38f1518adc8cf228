/**
 * The toggle switch as a value: its on/off value, the one-shot animation flag, the
 * colour settings, and what is displayed (which thumb constraint is active, the track
 * colour, the thumb colour). Each assignment the switch reacts to is a function from
 * the state before to the state after; the lemmas are about runs of them.
 */
module SwitchModel {

  /** Colours are opaque tokens. The named ones are the switch's defaults:
      DefaultOnTint is display-P3 (128/255, 218/255, 117/255), LightGray and White are
      the system colours, InitialThumb is the 96% white the thumb is painted at setup. */
  datatype Color = DefaultOnTint | LightGray | White | InitialThumb | Custom(token: int)

  datatype State = State(
    on: bool,
    animated: bool,
    onColor: Color,
    offColor: Color,
    thumbColor: Color,
    thumbOnColor: Color,
    thumbOffColor: Color,
    leftActive: bool,
    rightActive: bool,
    bgColor: Color,
    thumbDisplayed: Color,
    /** The animation flag of every run of `toogle`, in order. */
    renders: seq<bool>,
    /** How many valueChanged actions have been sent. */
    valueChangedSends: nat)

  /** The state after setup: off, thumb on the left, track in the off colour. */
  const Initial: State :=
    State(false, false, DefaultOnTint, LightGray, White, White, White,
          true, false, LightGray, InitialThumb, [], 0)

  function TrackColor(s: State): Color {
    if s.on then s.onColor else s.offColor
  }

  function ThumbColor(s: State): Color {
    if s.on then s.thumbOnColor else s.thumbOffColor
  }

  /** Exactly one thumb constraint is active, the right one when on, and the track shows
      the colour of the current value. */
  predicate Positioned(s: State) {
    s.leftActive != s.rightActive && s.rightActive == s.on && s.bgColor == TrackColor(s)
  }

  /** The thumb shows the thumb colour of the current value. */
  predicate ThumbShown(s: State) {
    s.thumbDisplayed == ThumbColor(s)
  }

  /** Between two calls no animation is pending and the view is positioned. */
  predicate Valid(s: State) {
    !s.animated && Positioned(s)
  }

  /** The colour settings of `s` and `r` are the same. */
  predicate SamePalette(s: State, r: State) {
    r.onColor == s.onColor && r.offColor == s.offColor && r.thumbColor == s.thumbColor
    && r.thumbOnColor == s.thumbOnColor && r.thumbOffColor == s.thumbOffColor
  }

  /** `toogle(animated:)`: both thumb constraints are removed, the one for the current
      value is added, and the track and thumb colours of that value are shown. */
  function Toogle(s: State, animated: bool): (r: State)
    ensures Positioned(r) && ThumbShown(r)
    ensures r.renders == s.renders + [animated]
    ensures r.on == s.on && r.animated == s.animated && SamePalette(s, r)
    ensures r.valueChangedSends == s.valueChangedSends
  {
    var cleared := s.(leftActive := false, rightActive := false);
    var placed :=
      if s.on then cleared.(rightActive := true, bgColor := s.onColor, thumbDisplayed := s.thumbOnColor)
      else cleared.(leftActive := true, bgColor := s.offColor, thumbDisplayed := s.thumbOffColor);
    placed.(renders := s.renders + [animated])
  }

  /** Assigning `on := v`: the observer renders with the pending animation flag, which
      is then cleared. It runs whether or not `v` differs from the old value. */
  function AssignOn(s: State, v: bool): (r: State)
    ensures r.on == v && !r.animated && Positioned(r) && ThumbShown(r)
    ensures r.renders == s.renders + [s.animated]
    ensures SamePalette(s, r) && r.valueChangedSends == s.valueChangedSends
  {
    Toogle(s.(on := v), s.animated).(animated := false)
  }

  /** `set(on:animated:)`. */
  function SetValue(s: State, v: bool, animated: bool): (r: State)
    ensures r.on == v && !r.animated && Positioned(r) && ThumbShown(r)
    ensures r.renders == s.renders + [animated]
    ensures SamePalette(s, r) && r.valueChangedSends == s.valueChangedSends
  {
    AssignOn(s.(animated := animated), v)
  }

  /** `buttonTapped`: flips the value with animation, then sends one valueChanged. */
  function Tap(s: State): (r: State)
    ensures r.on == !s.on && !r.animated && Positioned(r) && ThumbShown(r)
    ensures r.renders == s.renders + [true]
    ensures SamePalette(s, r) && r.valueChangedSends == s.valueChangedSends + 1
  {
    var flipped := AssignOn(s.(animated := true), !s.on);
    flipped.(valueChangedSends := flipped.valueChangedSends + 1)
  }

  /** Assigning `onColor := c`: the track is repainted only while on. */
  function SetOnColor(s: State, c: Color): (r: State)
    ensures r.onColor == c
    ensures r.bgColor == (if s.on then c else s.bgColor)
    ensures r == s.(onColor := c, bgColor := r.bgColor)
    ensures Positioned(s) ==> Positioned(r)
    ensures ThumbShown(s) ==> ThumbShown(r)
  {
    var r := s.(onColor := c);
    if r.on then r.(bgColor := r.onColor) else r
  }

  /** Assigning `offColor := c`: the track is repainted only while off. */
  function SetOffColor(s: State, c: Color): (r: State)
    ensures r.offColor == c
    ensures r.bgColor == (if s.on then s.bgColor else c)
    ensures r == s.(offColor := c, bgColor := r.bgColor)
    ensures Positioned(s) ==> Positioned(r)
    ensures ThumbShown(s) ==> ThumbShown(r)
  {
    var r := s.(offColor := c);
    if !r.on then r.(bgColor := r.offColor) else r
  }

  /** Assigning `thumbOnColor := c`: the thumb is repainted only while on. */
  function SetThumbOnColor(s: State, c: Color): (r: State)
    ensures r.thumbOnColor == c
    ensures r.thumbDisplayed == (if s.on then c else s.thumbDisplayed)
    ensures r == s.(thumbOnColor := c, thumbDisplayed := r.thumbDisplayed)
    ensures Positioned(s) ==> Positioned(r)
    ensures ThumbShown(s) ==> ThumbShown(r)
  {
    var r := s.(thumbOnColor := c);
    if r.on then r.(thumbDisplayed := r.thumbOnColor) else r
  }

  /** Assigning `thumbOffColor := c`: the thumb is repainted only while off. */
  function SetThumbOffColor(s: State, c: Color): (r: State)
    ensures r.thumbOffColor == c
    ensures r.thumbDisplayed == (if s.on then s.thumbDisplayed else c)
    ensures r == s.(thumbOffColor := c, thumbDisplayed := r.thumbDisplayed)
    ensures Positioned(s) ==> Positioned(r)
    ensures ThumbShown(s) ==> ThumbShown(r)
  {
    var r := s.(thumbOffColor := c);
    if !r.on then r.(thumbDisplayed := r.thumbOffColor) else r
  }

  /** Assigning `thumbColor := c`: both thumb colours become `c` and the thumb is
      repainted in it, whatever the value. */
  function SetThumbColor(s: State, c: Color): (r: State)
    ensures r.thumbColor == c && r.thumbOnColor == c && r.thumbOffColor == c
    ensures r.thumbDisplayed == c && ThumbShown(r)
    ensures r == s.(thumbColor := c, thumbOnColor := c, thumbOffColor := c, thumbDisplayed := c)
    ensures Positioned(s) ==> Positioned(r)
  {
    var withThumb := s.(thumbColor := c);
    SetThumbOffColor(SetThumbOnColor(withThumb, withThumb.thumbColor), withThumb.thumbColor)
      .(thumbDisplayed := withThumb.thumbColor)
  }

  // ---------------------------------------------------------------------------
  // Runs of operations

  /** One call a client or the user makes on the switch. */
  datatype Op =
    | AssignValue(value: bool)
    | SetValueOp(value: bool, animated: bool)
    | TapOp
    | OnColorOp(color: Color)
    | OffColorOp(color: Color)
    | ThumbColorOp(color: Color)
    | ThumbOnColorOp(color: Color)
    | ThumbOffColorOp(color: Color)

  function Step(s: State, op: Op): State {
    match op
    case AssignValue(v) => AssignOn(s, v)
    case SetValueOp(v, a) => SetValue(s, v, a)
    case TapOp => Tap(s)
    case OnColorOp(c) => SetOnColor(s, c)
    case OffColorOp(c) => SetOffColor(s, c)
    case ThumbColorOp(c) => SetThumbColor(s, c)
    case ThumbOnColorOp(c) => SetThumbOnColor(s, c)
    case ThumbOffColorOp(c) => SetThumbOffColor(s, c)
  }

  function Run(s: State, ops: seq<Op>): State
    decreases |ops|
  {
    if ops == [] then s else Run(Step(s, ops[0]), ops[1..])
  }

  /** Operations that assign the value, and so run `toogle`. */
  predicate AssignsValue(op: Op) {
    op.AssignValue? || op.SetValueOp? || op.TapOp?
  }

  function CountTaps(ops: seq<Op>): nat
    decreases |ops|
  {
    if ops == [] then 0 else (if ops[0].TapOp? then 1 else 0) + CountTaps(ops[1..])
  }

  function CountAssignments(ops: seq<Op>): nat
    decreases |ops|
  {
    if ops == [] then 0 else (if AssignsValue(ops[0]) then 1 else 0) + CountAssignments(ops[1..])
  }

  /** The set-up switch is valid, but its thumb is not yet painted in a thumb colour. */
  lemma InitialIsValid()
    ensures Valid(Initial) && !ThumbShown(Initial)
  {
  }

  /** Every operation keeps the switch valid, and once the thumb shows the colour of
      the current value it keeps doing so. */
  lemma {:induction false} RunKeepsValid(s: State, ops: seq<Op>)
    requires Valid(s)
    ensures Valid(Run(s, ops))
    ensures ThumbShown(s) ==> ThumbShown(Run(s, ops))
    decreases |ops|
  {
    if ops != [] {
      RunKeepsValid(Step(s, ops[0]), ops[1..]);
    }
  }

  /** After any run that assigns the value at least once, the thumb shows its colour. */
  lemma {:induction false} AssignmentShowsThumb(s: State, ops: seq<Op>)
    requires Valid(s)
    requires CountAssignments(ops) > 0
    ensures ThumbShown(Run(s, ops))
    decreases |ops|
  {
    if AssignsValue(ops[0]) {
      RunKeepsValid(Step(s, ops[0]), ops[1..]);
    } else {
      AssignmentShowsThumb(Step(s, ops[0]), ops[1..]);
    }
  }

  /** Exactly one valueChanged is sent per tap, and none by any other operation. */
  lemma {:induction false} SendsCountTaps(s: State, ops: seq<Op>)
    ensures Run(s, ops).valueChangedSends == s.valueChangedSends + CountTaps(ops)
    decreases |ops|
  {
    if ops != [] {
      SendsCountTaps(Step(s, ops[0]), ops[1..]);
    }
  }

  /** `toogle` runs once per assignment of the value, and colour settings never run it. */
  lemma {:induction false} RendersCountAssignments(s: State, ops: seq<Op>)
    ensures |Run(s, ops).renders| == |s.renders| + CountAssignments(ops)
    decreases |ops|
  {
    if ops != [] {
      RendersCountAssignments(Step(s, ops[0]), ops[1..]);
    }
  }

  /** `n` taps in a row leave the value flipped exactly when `n` is odd. */
  lemma {:induction false} RepeatedTaps(s: State, n: nat)
    ensures Run(s, seq(n, _ => TapOp)).on == (if n % 2 == 0 then s.on else !s.on)
    decreases n
  {
    if n > 0 {
      var ops := seq(n, _ => TapOp);
      assert ops[0] == TapOp;
      assert ops[1..] == seq(n - 1, _ => TapOp);
      RepeatedTaps(Tap(s), n - 1);
    }
  }

  /** Assigning the current value again re-renders, non-animated, to the same display. */
  lemma ReassignSameValue(s: State, v: bool)
    ensures var once := AssignOn(s, v);
      AssignOn(once, v) == once.(renders := once.renders + [false])
  {
  }

  /** Two taps bring a rendered switch back to where it was, with two animated
      renders and two valueChanged sends added. */
  lemma TapTwice(s: State)
    requires Valid(s) && ThumbShown(s)
    ensures Tap(Tap(s)) ==
      s.(renders := s.renders + [true, true], valueChangedSends := s.valueChangedSends + 2)
  {
  }
}

/**
 * The toggle switch as an object: the value and its observer, the colour properties and
 * their observers, `set(on:animated:)`, `toogle` and the tap handler. Every method leaves
 * the object in the state the matching SwitchModel function gives; the animation of
 * `toogle` is taken as applied at once.
 */
module SwitchControl {
  import SwitchModel

  class Switch {
    var on: bool
    var animated: bool
    var onColor: SwitchModel.Color
    var offColor: SwitchModel.Color
    var thumbColor: SwitchModel.Color
    var thumbOnColor: SwitchModel.Color
    var thumbOffColor: SwitchModel.Color
    /** Whether the left / right thumb constraint is part of the view. */
    var leftActive: bool
    var rightActive: bool
    /** The colours the track (background view) and the thumb are painted in. */
    var bgColor: SwitchModel.Color
    var thumbDisplayed: SwitchModel.Color
    /** The animation flag of every run of `toogle`, in order. */
    var renders: seq<bool>
    var valueChangedSends: nat

    ghost function State(): SwitchModel.State
      reads this
    {
      SwitchModel.State(on, animated, onColor, offColor, thumbColor, thumbOnColor, thumbOffColor,
                        leftActive, rightActive, bgColor, thumbDisplayed, renders, valueChangedSends)
    }

    ghost predicate Valid()
      reads this
    {
      SwitchModel.Valid(State())
    }

    /** The switch as `setup()` leaves it. */
    constructor ()
      ensures State() == SwitchModel.Initial
      ensures Valid()
    {
      on, animated := false, false;
      onColor := SwitchModel.DefaultOnTint;
      offColor := SwitchModel.LightGray;
      thumbColor, thumbOnColor, thumbOffColor := SwitchModel.White, SwitchModel.White, SwitchModel.White;
      leftActive, rightActive := true, false;
      bgColor := offColor;
      thumbDisplayed := SwitchModel.InitialThumb;
      renders := [];
      valueChangedSends := 0;
    }

    /** `isOn`: a read-only mirror of the value. */
    function IsOn(): (r: bool)
      reads this
      ensures r == State().on
    {
      on
    }

    /** `toogle(animated:)`. */
    method Toogle(animated: bool)
      modifies this
      ensures State() == SwitchModel.Toogle(old(State()), animated)
    {
      leftActive, rightActive := false, false;
      var newColor, newThumbColor;
      if on {
        rightActive := true;
        newColor, newThumbColor := onColor, thumbOnColor;
      } else {
        leftActive := true;
        newColor, newThumbColor := offColor, thumbOffColor;
      }
      bgColor := newColor;
      thumbDisplayed := newThumbColor;
      renders := renders + [animated];
    }

    /** Assigning the `on` property, with its didSet observer. */
    method AssignOn(value: bool)
      modifies this
      ensures State() == SwitchModel.AssignOn(old(State()), value)
      ensures old(Valid()) ==> Valid()
    {
      on := value;
      Toogle(animated);
      animated := false;
    }

    /** `set(on:animated:)`. */
    method Set(on: bool, animated: bool)
      modifies this
      ensures State() == SwitchModel.SetValue(old(State()), on, animated)
      ensures Valid()
    {
      this.animated := animated;
      AssignOn(on);
    }

    /** `buttonTapped`. */
    method ButtonTapped()
      modifies this
      ensures State() == SwitchModel.Tap(old(State()))
      ensures Valid()
    {
      animated := true;
      AssignOn(!on);
      valueChangedSends := valueChangedSends + 1;
    }

    method SetOnColor(c: SwitchModel.Color)
      modifies this
      ensures State() == SwitchModel.SetOnColor(old(State()), c)
      ensures old(Valid()) ==> Valid()
    {
      onColor := c;
      if on {
        bgColor := onColor;
      }
    }

    method SetOffColor(c: SwitchModel.Color)
      modifies this
      ensures State() == SwitchModel.SetOffColor(old(State()), c)
      ensures old(Valid()) ==> Valid()
    {
      offColor := c;
      if !on {
        bgColor := offColor;
      }
    }

    method SetThumbOnColor(c: SwitchModel.Color)
      modifies this
      ensures State() == SwitchModel.SetThumbOnColor(old(State()), c)
      ensures old(Valid()) ==> Valid()
    {
      thumbOnColor := c;
      if on {
        thumbDisplayed := thumbOnColor;
      }
    }

    method SetThumbOffColor(c: SwitchModel.Color)
      modifies this
      ensures State() == SwitchModel.SetThumbOffColor(old(State()), c)
      ensures old(Valid()) ==> Valid()
    {
      thumbOffColor := c;
      if !on {
        thumbDisplayed := thumbOffColor;
      }
    }

    /** Assigning `thumbColor`: its observer assigns both thumb colours (running their
        observers) and then paints the thumb. */
    method SetThumbColor(c: SwitchModel.Color)
      modifies this
      ensures State() == SwitchModel.SetThumbColor(old(State()), c)
      ensures old(Valid()) ==> Valid()
    {
      thumbColor := c;
      SetThumbOnColor(thumbColor);
      SetThumbOffColor(thumbColor);
      thumbDisplayed := thumbColor;
    }
  }
}

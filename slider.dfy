/** `app/components/labeled_slider_widget.py`: a slider and a spin box that
    show one setting, kept at the same value and the same bounds, with an
    optional rule that only odd values are taken. */
module Slider {

  /** `_prepare_value`: with odd parity an even value is lowered by one,
      so the result is the largest odd number not above the raw value;
      otherwise the raw value is taken as it is. (Python's `%` by 2 and
      Dafny's agree, negative values included.) */
  function PrepareValue(odd: bool, raw: int): (v: int)
    ensures odd ==> v % 2 == 1 && v <= raw < v + 2
    ensures !odd ==> v == raw
  {
    if odd then (if raw % 2 == 0 then raw - 1 else raw) else raw
  }

  /** Preparing a prepared value changes nothing. */
  lemma PrepareIdempotent(odd: bool, raw: int)
    ensures PrepareValue(odd, PrepareValue(odd, raw)) == PrepareValue(odd, raw)
  {
  }

  /** A larger raw value never gives a smaller prepared value, and an odd
      raw value is taken as it is. */
  lemma PrepareMonotone(odd: bool, a: int, b: int)
    ensures a <= b ==> PrepareValue(odd, a) <= PrepareValue(odd, b)
    ensures a % 2 == 1 ==> PrepareValue(odd, a) == a
  {
  }

  function Clamp(v: int, lo: int, hi: int): int {
    if v < lo then lo else if v > hi then hi else v
  }

  /** The state of a `QSlider` or a `QSpinBox`: its bounds and its value.
      Both follow the same rules when a bound or the value is set. */
  datatype Control = Control(min: int, max: int, value: int) {
    /** A control's own invariant: the value lies within the bounds. */
    predicate Ordered() {
      min <= value <= max
    }

    /** `setValue`: the value, brought within the bounds. */
    function SetValue(v: int): (r: Control)
      requires Ordered()
      ensures r.Ordered() && r.min == min && r.max == max
      ensures min <= v <= max <==> r.value == v
      ensures v < min ==> r.value == min
      ensures v > max ==> r.value == max
    {
      this.(value := Clamp(v, min, max))
    }

    /** `setMinimum`: the new lower bound; the upper bound is raised to it
        when below, and the value is brought within the bounds. */
    function SetMinimum(m: int): (r: Control)
      requires Ordered()
      ensures r.Ordered() && r.min == m
      ensures r.max == if max < m then m else max
      ensures m <= value ==> r.value == value
      ensures m > value ==> r.value == m
    {
      var hi := if max < m then m else max;
      Control(m, hi, Clamp(value, m, hi))
    }

    /** `setMaximum`: the new upper bound; the lower bound is lowered to it
        when above, and the value is brought within the bounds. */
    function SetMaximum(m: int): (r: Control)
      requires Ordered()
      ensures r.Ordered() && r.max == m
      ensures r.min == if min > m then m else min
      ensures value <= m ==> r.value == value
      ensures value > m ==> r.value == m
    {
      var lo := if min > m then m else min;
      Control(lo, m, Clamp(value, lo, m))
    }
  }

  /** With odd parity, an odd lower bound and a raw value within the
      bounds, the prepared value is within the bounds too, so the controls
      take it unclamped and show the value that is announced. */
  lemma PreparedInRange(c: Control, raw: int)
    requires c.Ordered() && c.min % 2 == 1 && c.min <= raw <= c.max
    ensures c.min <= PrepareValue(true, raw) <= c.max
    ensures c.SetValue(PrepareValue(true, raw)).value == PrepareValue(true, raw)
  {
  }

  /** `LabeledSliderWidget`: its slider, its spin box, whether the
      `valueParity` property is "odd", and the values `on_change` announced. */
  class LabeledSlider {
    var slider: Control
    var input: Control
    const odd: bool
    var announced: seq<int>

    /** Both controls keep their invariant. */
    ghost predicate Valid()
      reads this
    {
      slider.Ordered() && input.Ordered()
    }

    /** `init_ui`: the controls found among the widget's children. */
    constructor(slider: Control, input: Control, odd: bool)
      requires slider.Ordered() && input.Ordered()
      ensures Valid()
      ensures this.slider == slider && this.input == input && this.odd == odd && announced == []
    {
      this.slider := slider;
      this.input := input;
      this.odd := odd;
      announced := [];
    }

    /** `set_value`: the prepared value goes to the slider, then to the spin
        box, and is announced. Controls that agreed before agree after. */
    method SetValue(raw: int)
      requires Valid()
      modifies this
      ensures Valid()
      ensures slider == old(slider).SetValue(PrepareValue(odd, raw))
      ensures input == old(input).SetValue(PrepareValue(odd, raw))
      ensures announced == old(announced) + [PrepareValue(odd, raw)]
      ensures old(slider) == old(input) ==> slider == input
    {
      var value := PrepareValue(odd, raw);
      slider := slider.SetValue(value);
      input := input.SetValue(value);
      announced := announced + [value];
    }

    /** `set_max`: the same upper bound for both controls. */
    method SetMax(m: int)
      requires Valid()
      modifies this
      ensures Valid()
      ensures slider == old(slider).SetMaximum(m) && input == old(input).SetMaximum(m)
      ensures slider.max == m && input.max == m
      ensures announced == old(announced)
      ensures old(slider) == old(input) ==> slider == input
    {
      slider := slider.SetMaximum(m);
      input := input.SetMaximum(m);
    }

    /** `set_min`: the same lower bound for both controls. */
    method SetMin(m: int)
      requires Valid()
      modifies this
      ensures Valid()
      ensures slider == old(slider).SetMinimum(m) && input == old(input).SetMinimum(m)
      ensures slider.min == m && input.min == m
      ensures announced == old(announced)
      ensures old(slider) == old(input) ==> slider == input
    {
      slider := slider.SetMinimum(m);
      input := input.SetMinimum(m);
    }

    /** `get_value`: the slider's value, within its bounds. */
    method GetValue() returns (v: int)
      requires Valid()
      ensures v == slider.value && slider.min <= v <= slider.max
    {
      v := slider.value;
    }
  }
}

/** The visualisation's control panel: an open/closed toggle, speed and
    density sliders whose handlers store the value and forward it, and five
    colour swatches whose handler stores the scheme name and forwards its
    `#rrggbb` colour from a fixed table. The callbacks it forwards to are
    outside this model; their arguments are the handlers' results. */
module Controls {
  import opened MathModel
  import opened HexHue

  /** The swatch names, in the order the panel renders them. */
  const SchemeNames: seq<string> := ["yellow", "blue", "green", "red", "purple"]

  /** The `colorMap` table. */
  const ColorMap: map<string, string> := map[
    "yellow" := "#ffcc00",
    "blue" := "#00ccff",
    "green" := "#00ff99",
    "red" := "#ff3300",
    "purple" := "#cc33ff"]

  /** `colorMap[color]`: the colour of a scheme name, absent (`undefined`)
      for any other string that is not a property every object inherits. */
  function ColorFor(name: string): (c: Option<string>)
    ensures c.Some? <==> name in SchemeNames
    ensures c.Some? ==> StartsWithHash(c.value) && WellFormedHex(c.value) && |c.value| == 7
  {
    SchemeColorsWellFormed();
    if name in ColorMap then Some(ColorMap[name]) else None
  }

  /** The table's keys are exactly the swatch names, and every value is `#`
      and six lower-case hex digits, the form the hue converter accepts. */
  lemma SchemeColorsWellFormed()
    ensures forall name :: name in ColorMap <==> name in SchemeNames
    ensures forall name :: name in ColorMap ==>
      StartsWithHash(ColorMap[name]) && WellFormedHex(ColorMap[name]) && |ColorMap[name]| == 7
  {
    forall name | name in ColorMap
      ensures StartsWithHash(ColorMap[name]) && WellFormedHex(ColorMap[name]) && |ColorMap[name]| == 7
    {
      var c := ColorMap[name];
      assert forall i :: 1 <= i < 7 ==> LowerChar(c[i]) == c[i];
    }
  }

  /** The yellow scheme's colour has hue 48. */
  lemma YellowHue()
    ensures BaseColorHue(ColorMap["yellow"]) == 48.0
  {
    assert RgbHue(Rgb(255, 204, 0)) == 48.0 by {
      assert RgbHue(Rgb(255, 204, 0)) == 60.0 * ((204.0 / 255.0 - 0.0) / (1.0 - 0.0));
    }
    FormattedHue(Rgb(255, 204, 0), "#ffcc00", 48.0);
  }

  /** The blue scheme's colour has hue 192. */
  lemma BlueHue()
    ensures BaseColorHue(ColorMap["blue"]) == 192.0
  {
    assert RgbHue(Rgb(0, 204, 255)) == 192.0 by {
      assert Max3(0.0, 204.0 / 255.0, 1.0) == 1.0;
      assert Min3(0.0, 204.0 / 255.0, 1.0) == 0.0;
      assert RgbHue(Rgb(0, 204, 255)) == 60.0 * ((0.0 - 204.0 / 255.0) / (1.0 - 0.0)) + 240.0;
    }
    FormattedHue(Rgb(0, 204, 255), "#00ccff", 192.0);
  }

  /** The green scheme's colour has hue 156. */
  lemma GreenHue()
    ensures BaseColorHue(ColorMap["green"]) == 156.0
  {
    assert RgbHue(Rgb(0, 255, 153)) == 156.0 by {
      assert RgbHue(Rgb(0, 255, 153)) == 60.0 * ((153.0 / 255.0 - 0.0) / (1.0 - 0.0)) + 120.0;
    }
    FormattedHue(Rgb(0, 255, 153), "#00ff99", 156.0);
  }

  /** The red scheme's colour has hue 12. */
  lemma RedHue()
    ensures BaseColorHue(ColorMap["red"]) == 12.0
  {
    assert RgbHue(Rgb(255, 51, 0)) == 12.0 by {
      assert RgbHue(Rgb(255, 51, 0)) == 60.0 * ((51.0 / 255.0 - 0.0) / (1.0 - 0.0));
    }
    FormattedHue(Rgb(255, 51, 0), "#ff3300", 12.0);
  }

  /** The purple scheme's colour has hue 285. */
  lemma PurpleHue()
    ensures BaseColorHue(ColorMap["purple"]) == 285.0
  {
    assert RgbHue(Rgb(204, 51, 255)) == 285.0 by {
      assert RgbHue(Rgb(204, 51, 255)) == 60.0 * ((204.0 / 255.0 - 51.0 / 255.0) / (1.0 - 51.0 / 255.0)) + 240.0;
    }
    FormattedHue(Rgb(204, 51, 255), "#cc33ff", 285.0);
  }

  /** Which swatch carries the selection ring, in render order: the one
      whose name is the current scheme, and no other. */
  function SwatchRings(scheme: string): (rings: seq<bool>)
    ensures |rings| == |SchemeNames|
    ensures forall i :: 0 <= i < |rings| ==> (rings[i] <==> SchemeNames[i] == scheme)
    ensures forall i, j :: 0 <= i < |rings| && 0 <= j < |rings| && rings[i] && rings[j] ==> i == j
    ensures scheme in SchemeNames <==> exists i :: 0 <= i < |rings| && rings[i]
  {
    var rings := seq(|SchemeNames|, i requires 0 <= i < |SchemeNames| => SchemeNames[i] == scheme);
    assert scheme in SchemeNames ==> rings[IndexOfScheme(scheme)];
    rings
  }

  /** Where a scheme name sits among the swatches. */
  function IndexOfScheme(scheme: string): (i: nat)
    requires scheme in SchemeNames
    ensures i < |SchemeNames| && SchemeNames[i] == scheme
  {
    if scheme == "yellow" then 0
    else if scheme == "blue" then 1
    else if scheme == "green" then 2
    else if scheme == "red" then 3
    else 4
  }

  /** The panel's four state fields. */
  class ControlPanel {
    var isOpen: bool
    var speed: real
    var density: real
    var colorScheme: string

    /** The selected scheme is always one of the swatches. */
    ghost predicate Valid()
      reads this
    {
      colorScheme in SchemeNames
    }

    /** The initial state: closed, speed 1, density 1, scheme yellow. */
    constructor ()
      ensures Valid()
      ensures !isOpen && speed == 1.0 && density == 1.0 && colorScheme == "yellow"
    {
      isOpen := false;
      speed := 1.0;
      density := 1.0;
      colorScheme := "yellow";
    }

    /** The toggle button: flips `isOpen` and nothing else. */
    method Toggle()
      requires Valid()
      modifies this
      ensures Valid()
      ensures isOpen == !old(isOpen)
      ensures speed == old(speed) && density == old(density) && colorScheme == old(colorScheme)
    {
      isOpen := !isOpen;
    }

    /** `handleSpeedChange` on the slider's parsed value: stores it and
        forwards the same value. */
    method SpeedChange(value: real) returns (forwarded: real)
      requires Valid()
      modifies this
      ensures Valid()
      ensures speed == value && forwarded == value
      ensures isOpen == old(isOpen) && density == old(density) && colorScheme == old(colorScheme)
    {
      speed := value;
      forwarded := value;
    }

    /** `handleDensityChange`: stores the parsed value and forwards it. */
    method DensityChange(value: real) returns (forwarded: real)
      requires Valid()
      modifies this
      ensures Valid()
      ensures density == value && forwarded == value
      ensures isOpen == old(isOpen) && speed == old(speed) && colorScheme == old(colorScheme)
    {
      density := value;
      forwarded := value;
    }

    /** `handleColorChange`, which only the swatches call: stores the name
        and forwards its table colour, which is well formed. */
    method ColorChange(color: string) returns (forwarded: Option<string>)
      requires Valid() && color in SchemeNames
      modifies this
      ensures Valid()
      ensures colorScheme == color && forwarded == ColorFor(color)
      ensures forwarded.Some? && WellFormedHex(forwarded.value)
      ensures isOpen == old(isOpen) && speed == old(speed) && density == old(density)
    {
      colorScheme := color;
      forwarded := if color in ColorMap then Some(ColorMap[color]) else None;
    }
  }
}

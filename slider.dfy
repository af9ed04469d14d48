/** The page slider of the static site: `slide(direction)` compares the
    direction loosely with "0", "1" and "2", marks the matching one of the
    home, projects and contact links active and the other two inactive, and
    shifts every page by the same `translateX(-offset%)`. */
module PageSlider {
  import opened MathModel

  /** The JavaScript values a caller can pass, objects, BigInts and Symbols aside. */
  datatype JsValue = JsString(s: string) | JsNumber(n: real) | JsBool(b: bool) | JsUndefined | JsNull

  /** The three string literals the function compares with. */
  const DirectionLiterals: seq<string> := ["0", "1", "2"]

  /** The number a number or boolean converts to when compared loosely with
      a numeric string (`true` is 1, `false` is 0); `undefined` and `null`
      are loosely equal to no string, so they have none here. */
  function NumericValue(v: JsValue): Option<real>
  {
    match v
    case JsNumber(n) => Some(n)
    case JsBool(b) => Some(if b then 1.0 else 0.0)
    case _ => None
  }

  /** `v == DirectionLiterals[k]` with JavaScript's loose equality: a string
      compares as a string, a number or boolean as its numeric value, and
      `undefined` or `null` never equals a string. */
  function LooseEquals(v: JsValue, k: nat): (r: bool)
    requires k < |DirectionLiterals|
    ensures v.JsString? ==> (r <==> v.s == DirectionLiterals[k])
    ensures !v.JsString? ==> (r <==> NumericValue(v) == Some(k as real))
    ensures v == JsUndefined || v == JsNull ==> !r
  {
    match v
    case JsString(s) => s == DirectionLiterals[k]
    case JsNumber(n) => n == k as real
    case JsBool(b) => (if b then 1 else 0) == k
    case JsUndefined => false
    case JsNull => false
  }

  /** Which branch of the if-chain runs: the first literal the direction
      loosely equals, none when it equals none of them. */
  function Branch(direction: JsValue): (k: Option<nat>)
    ensures k.Some? ==> k.value < |DirectionLiterals| && LooseEquals(direction, k.value)
    ensures k.Some? ==> forall j :: 0 <= j < k.value ==> !LooseEquals(direction, j)
    ensures k.None? <==> forall j :: 0 <= j < |DirectionLiterals| ==> !LooseEquals(direction, j)
  {
    if LooseEquals(direction, 0) then Some(0)
    else if LooseEquals(direction, 1) then Some(1)
    else if LooseEquals(direction, 2) then Some(2)
    else None
  }

  /** Numbers and booleans select the same branch as the matching string. */
  lemma LooseDirections()
    ensures Branch(JsNumber(0.0)) == Branch(JsString("0")) == Some(0)
    ensures Branch(JsNumber(1.0)) == Branch(JsString("1")) == Some(1)
    ensures Branch(JsNumber(2.0)) == Branch(JsString("2")) == Some(2)
    ensures Branch(JsBool(false)) == Some(0) && Branch(JsBool(true)) == Some(1)
    ensures Branch(JsString("3")) == None && Branch(JsNumber(3.0)) == None
    ensures Branch(JsString(" 1")) == None && Branch(JsUndefined) == None
  {
    assert DirectionLiterals[0] == "0" && DirectionLiterals[1] == "1" && DirectionLiterals[2] == "2";
  }

  /** The `transform` string every page receives: `-it_go` percent, where
      `it_go` is 0, 100 or 200, or NaN percent when no branch ran and
      `it_go` is still undefined. */
  function Transform(k: Option<nat>): (t: string)
    requires k.Some? ==> k.value < |DirectionLiterals|
    ensures t == "translateX(NaN%)" <==> k.None?
    ensures k == Some(0) <==> t == "translateX(0%)"
    ensures k == Some(1) <==> t == "translateX(-100%)"
    ensures k == Some(2) <==> t == "translateX(-200%)"
  {
    match k
    case None => "translateX(NaN%)"
    case Some(i) =>
      if i == 0 then "translateX(0%)"
      else if i == 1 then "translateX(-100%)"
      else "translateX(-200%)"
  }

  /** The three links' `active` classes. */
  datatype ActiveFlags = ActiveFlags(home: bool, projects: bool, contact: bool)

  /** The class changes of the branch that runs: branch k activates link k
      alone; with no branch the flags are unchanged. */
  function SlideFlags(f: ActiveFlags, direction: JsValue): (r: ActiveFlags)
    ensures Branch(direction) == Some(0) ==> r == ActiveFlags(true, false, false)
    ensures Branch(direction) == Some(1) ==> r == ActiveFlags(false, true, false)
    ensures Branch(direction) == Some(2) ==> r == ActiveFlags(false, false, true)
    ensures Branch(direction).None? ==> r == f
  {
    match Branch(direction)
    case None => f
    case Some(k) => ActiveFlags(k == 0, k == 1, k == 2)
  }

  /** The number of active links. */
  function ActiveCount(f: ActiveFlags): nat
  {
    (if f.home then 1 else 0) + (if f.projects then 1 else 0) + (if f.contact then 1 else 0)
  }

  /** A recognised direction leaves exactly one link active; an
      unrecognised one keeps the count it found. */
  lemma SlideActivatesOne(f: ActiveFlags, direction: JsValue)
    ensures Branch(direction).Some? ==> ActiveCount(SlideFlags(f, direction)) == 1
    ensures Branch(direction).None? ==> ActiveCount(SlideFlags(f, direction)) == ActiveCount(f)
  {
  }

  /** The three links and the pages' transforms. */
  class Slider {
    var homeActive: bool
    var projectsActive: bool
    var contactActive: bool
    const pages: array<string>

    function Flags(): ActiveFlags
      reads this
    {
      ActiveFlags(homeActive, projectsActive, contactActive)
    }

    constructor (flags: ActiveFlags, pages: array<string>)
      ensures Flags() == flags && this.pages == pages
    {
      homeActive, projectsActive, contactActive := flags.home, flags.projects, flags.contact;
      this.pages := pages;
    }

    /** `slide(direction)`: the flags follow `SlideFlags`, and every page,
        all of them, gets the same transform. */
    method Slide(direction: JsValue)
      modifies this, pages
      ensures Flags() == SlideFlags(old(Flags()), direction)
      ensures forall i :: 0 <= i < pages.Length ==> pages[i] == Transform(Branch(direction))
    {
      var itGo: Option<nat> := None;
      if LooseEquals(direction, 0) {
        itGo := Some(0);
        homeActive, projectsActive, contactActive := true, false, false;
      } else if LooseEquals(direction, 1) {
        itGo := Some(1);
        homeActive, projectsActive, contactActive := false, true, false;
      } else if LooseEquals(direction, 2) {
        itGo := Some(2);
        homeActive, projectsActive, contactActive := false, false, true;
      }
      var transform := Transform(itGo);
      for i := 0 to pages.Length
        invariant forall j :: 0 <= j < i ==> pages[j] == transform
        invariant Flags() == SlideFlags(old(Flags()), direction)
      {
        pages[i] := transform;
      }
    }
  }
}

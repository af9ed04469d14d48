/** The active-section tracker of the portfolio page: on every scroll the
    five sections are looked up by id, folded from the left starting at
    `home`, and the last present section whose box straddles the viewport's
    horizontal midline wins; the desktop and mobile navigation bars then
    mark the item of that section active. */
module PortfolioNav {
  import opened MathModel

  datatype SectionId = Home | About | Skills | Projects | Contact

  /** The ids in page order, as the handler lists them. */
  const Sections: seq<SectionId> := [Home, About, Skills, Projects, Contact]

  /** A section's position from `getBoundingClientRect`, relative to the viewport. */
  datatype Rect = Rect(top: real, bottom: real)

  /** The midline test, inclusive at both ends. */
  predicate Straddles(r: Rect, windowHeight: real)
  {
    r.top <= windowHeight / 2.0 && r.bottom >= windowHeight / 2.0
  }

  /** A looked-up element that exists and straddles the midline. */
  predicate Hit(element: Option<Rect>, windowHeight: real)
  {
    element.Some? && Straddles(element.value, windowHeight)
  }

  /** Element i hits and no later element does. */
  predicate LastHit(elements: seq<Option<Rect>>, i: nat, windowHeight: real)
    requires i < |elements|
  {
    Hit(elements[i], windowHeight) && forall j :: i < j < |elements| ==> !Hit(elements[j], windowHeight)
  }

  /** One step of the reducer: a missing element keeps the accumulator, a
      straddling one replaces it with its own id, any other keeps it. */
  function Visit(acc: SectionId, id: SectionId, element: Option<Rect>, windowHeight: real): (r: SectionId)
    ensures element.None? ==> r == acc
    ensures Hit(element, windowHeight) ==> r == id
    ensures !Hit(element, windowHeight) ==> r == acc
  {
    match element
    case None => acc
    case Some(rect) => if Straddles(rect, windowHeight) then id else acc
  }

  /** `reduce` over the elements with ids `ids`, starting at `home`: the
      result is `home` or the id of an element that hits. */
  function Reduce(ids: seq<SectionId>, elements: seq<Option<Rect>>, windowHeight: real): (r: SectionId)
    requires |ids| == |elements|
    ensures r == Home || exists i :: 0 <= i < |ids| && Hit(elements[i], windowHeight) && r == ids[i]
    decreases |ids|
  {
    if |ids| == 0 then Home
    else
      var n := |ids| - 1;
      var acc := Reduce(ids[..n], elements[..n], windowHeight);
      assert forall i :: 0 <= i < n ==> ids[..n][i] == ids[i] && elements[..n][i] == elements[i];
      Visit(acc, ids[n], elements[n], windowHeight)
  }

  /** The fold picks the last hit in list order, and `home` when nothing hits. */
  lemma {:induction false} ReduceIsLastHit(ids: seq<SectionId>, elements: seq<Option<Rect>>, windowHeight: real)
    requires |ids| == |elements|
    ensures (forall i :: 0 <= i < |ids| ==> !Hit(elements[i], windowHeight)) ==>
      Reduce(ids, elements, windowHeight) == Home
    ensures forall i :: 0 <= i < |ids| && LastHit(elements, i, windowHeight) ==>
      Reduce(ids, elements, windowHeight) == ids[i]
    decreases |ids|
  {
    if |ids| > 0 {
      var n := |ids| - 1;
      ReduceIsLastHit(ids[..n], elements[..n], windowHeight);
      assert forall i :: 0 <= i < n ==> elements[..n][i] == elements[i];
    }
  }

  /** `handleScroll`: the section the page marks active, for the five looked-up
      elements in page order. */
  function CurrentSection(elements: seq<Option<Rect>>, windowHeight: real): (s: SectionId)
    requires |elements| == |Sections|
    ensures (forall i :: 0 <= i < |Sections| ==> !Hit(elements[i], windowHeight)) ==> s == Home
    ensures forall i :: 0 <= i < |Sections| && LastHit(elements, i, windowHeight) ==> s == Sections[i]
  {
    ReduceIsLastHit(Sections, elements, windowHeight);
    Reduce(Sections, elements, windowHeight)
  }

  /** The position of each id in page order. */
  function IndexOf(s: SectionId): (i: nat)
    ensures i < |Sections| && Sections[i] == s
  {
    match s
    case Home => 0
    case About => 1
    case Skills => 2
    case Projects => 3
    case Contact => 4
  }

  /** The `isActive` props of the five navigation items, in page order; both
      bars compute the same flags. Exactly one is set: the active section's. */
  function NavFlags(active: SectionId): (flags: seq<bool>)
    ensures |flags| == |Sections|
    ensures forall i :: 0 <= i < |flags| ==> (flags[i] <==> i == IndexOf(active))
  {
    seq(|Sections|, i requires 0 <= i < |Sections| => Sections[i] == active)
  }

  /** The number of set flags. */
  function CountSet(flags: seq<bool>): nat
  {
    if |flags| == 0 then 0 else (if flags[0] then 1 else 0) + CountSet(flags[1..])
  }

  /** Exactly one navigation item is active, in each bar. */
  lemma {:induction false} ExactlyOneActive(active: SectionId)
    ensures CountSet(NavFlags(active)) == 1
  {
    var f := NavFlags(active);
    var k := IndexOf(active);
    assert f[..k] + [true] + f[k + 1..] == f;
    NoneSet(f[..k]);
    NoneSet(f[k + 1..]);
    CountSetAppend(f[..k], [true]);
    CountSetAppend(f[..k] + [true], f[k + 1..]);
  }

  lemma {:induction false} NoneSet(flags: seq<bool>)
    requires forall i :: 0 <= i < |flags| ==> !flags[i]
    ensures CountSet(flags) == 0
  {
    if |flags| > 0 {
      NoneSet(flags[1..]);
    }
  }

  lemma {:induction false} CountSetAppend(a: seq<bool>, b: seq<bool>)
    ensures CountSet(a + b) == CountSet(a) + CountSet(b)
  {
    if |a| > 0 {
      assert (a + b)[1..] == a[1..] + b;
      CountSetAppend(a[1..], b);
    } else {
      assert a + b == b;
    }
  }
}

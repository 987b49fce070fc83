/**
 * The star row (src/components/ui/StarRating.tsx): `max` stars, the first
 * `Math.round(value)` of them filled, at most one half star after them,
 * and a click on star i reporting the rating i + 1 when interactive.
 */
module StarRating {
  import opened Domain
  import opened Text

  const DefaultMax := 5

  /** `Math.round`: halves round up. */
  function Round(x: real): (r: int)
    ensures x - 0.5 < r as real <= x + 0.5
  {
    (x + 0.5).Floor
  }

  /** Star i is filled when i + 1 <= Math.round(value). */
  predicate Filled(value: real, i: int)
  {
    i + 1 <= Round(value)
  }

  /** Star i is half filled when it is not filled, lies below the value, and the value reaches a quarter into it. */
  predicate HalfFilled(value: real, i: int)
  {
    !Filled(value, i) && (i as real) < value && value - i as real >= 0.25
  }

  datatype Look = Full | Half | Empty

  function LookOf(value: real, i: int): (l: Look)
    ensures l == Full <==> Filled(value, i)
    ensures l == Half <==> HalfFilled(value, i)
  {
    if Filled(value, i) then Full else if HalfFilled(value, i) then Half else Empty
  }

  /** `Array.from({ length: max }, ...)`: one look per star. */
  function Stars(value: real, max: int): (r: seq<Look>)
    ensures |r| == (if max < 0 then 0 else max)
    ensures forall i :: 0 <= i < |r| ==> r[i] == LookOf(value, i)
  {
    seq(if max < 0 then 0 else max, i => LookOf(value, i))
  }

  /** The filled stars come first: a filled star has only filled stars before it. */
  lemma FilledIsPrefix(value: real, max: int)
    ensures forall i, j :: 0 <= j < i < |Stars(value, max)| && Stars(value, max)[i] == Full ==> Stars(value, max)[j] == Full
  {
  }

  /** At most one star is half filled, and it comes right after the filled ones. */
  lemma AtMostOneHalf(value: real, i: int, j: int)
    requires HalfFilled(value, i) && HalfFilled(value, j)
    ensures i == j
    ensures i == Round(value)
  {
    var r := Round(value);
    assert i >= r && j >= r;
    assert (r as real) + 1.0 > value + 0.5 - 0.5 by {
      assert (value + 0.5).Floor as real + 1.0 > value + 0.5;
    }
  }

  /** A whole value v within 0..max fills exactly v stars and no half star. */
  lemma WholeValue(v: int, max: int, i: int)
    requires 0 <= v <= max && 0 <= i < max
    ensures Stars(v as real, max)[i] == (if i < v then Full else Empty)
  {
    assert Round(v as real) == v;
  }

  /** A click on star i: the rating i + 1, and nothing when the row is read-only. */
  function Clicked(interactive: bool, i: int): (r: Option<int>)
    ensures r.Some? <==> interactive
    ensures r.Some? ==> r.value == i + 1
  {
    if interactive then Some(i + 1) else None
  }

  /** A star's accessible name: its rating and "estrella", plural from the second star on. */
  function AriaLabel(i: nat): (r: string)
    ensures i == 0 ==> r == "1 estrella"
    ensures i > 0 ==> r == NatToString(i + 1) + " estrellas"
  {
    NatToString(i + 1) + " estrella" + (if i != 0 then "s" else "")
  }

  /** Any star of the row reports a rating from 1 to max. */
  lemma ClickInRange(max: int, i: int)
    requires 0 <= i < max
    ensures 1 <= Clicked(true, i).value <= max
  {
  }
}

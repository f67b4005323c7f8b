/** The star rating control (src/components/ui/star-rating.tsx): `max` stars valued 1..max,
    filled up to the hovered star while the pointer is over one and up to the stored value
    otherwise; clicking a star reports its value to the parent unless the control is
    read-only. */
module StarRating {
  import opened Wrappers

  /** The number of stars when the `max` prop is absent. */
  const DefaultMax: nat := 5

  /** `max = 5` in the parameter list: the default applies only when the prop is absent. */
  function EffectiveMax(max: Option<nat>): (n: nat)
    ensures max.None? ==> n == DefaultMax
    ensures max.Some? ==> n == max.value
  {
    if max.Some? then max.value else DefaultMax
  }

  /** The value the stars show: the hovered star when there is one, else the stored value. */
  function EffectiveValue(value: int, hoverValue: Option<int>): (v: int)
    ensures hoverValue.Some? ==> v == hoverValue.value
    ensures hoverValue.None? ==> v == value
  {
    if hoverValue.Some? then hoverValue.value else value
  }

  /** `isFilled` for the star worth `starValue`. */
  predicate IsFilled(starValue: int, value: int, hoverValue: Option<int>): (filled: bool)
    ensures filled <==> starValue <= EffectiveValue(value, hoverValue)
  {
    if hoverValue.Some? then starValue <= hoverValue.value else starValue <= value
  }

  datatype Star = Star(value: nat, filled: bool)

  /** The rendered stars, in order. */
  function RenderStars(max: nat, value: int, hoverValue: Option<int>): (stars: seq<Star>)
    ensures |stars| == max
    ensures forall i :: 0 <= i < max ==> stars[i].value == i + 1
  {
    seq(max, i requires 0 <= i < max => Star(i + 1, IsFilled(i + 1, value, hoverValue)))
  }

  /** The number of filled stars. */
  function FilledCount(stars: seq<Star>): nat {
    if stars == [] then 0
    else FilledCount(stars[..|stars| - 1]) + (if stars[|stars| - 1].filled then 1 else 0)
  }

  function Clamp(n: int, max: nat): (c: nat)
    ensures c <= max
  {
    if n < 0 then 0 else if n > max then max else n
  }

  /** A star is filled exactly when its value is at most the effective value, so the filled
      stars are always a prefix: no filled star follows an empty one. */
  lemma FilledStarsFormPrefix(max: nat, value: int, hoverValue: Option<int>, i: nat, j: nat)
    requires i <= j < max
    ensures RenderStars(max, value, hoverValue)[i].filled <==> i + 1 <= EffectiveValue(value, hoverValue)
    ensures RenderStars(max, value, hoverValue)[j].filled ==> RenderStars(max, value, hoverValue)[i].filled
  {
  }

  /** The number of filled stars is the effective value clamped to 0..max. */
  lemma {:induction false} FilledCountIsClamped(max: nat, value: int, hoverValue: Option<int>)
    ensures FilledCount(RenderStars(max, value, hoverValue)) == Clamp(EffectiveValue(value, hoverValue), max)
  {
    if max > 0 {
      var stars := RenderStars(max, value, hoverValue);
      assert stars[..max - 1] == RenderStars(max - 1, value, hoverValue);
      FilledCountIsClamped(max - 1, value, hoverValue);
    }
  }

  /** While the pointer is over star k, exactly k stars are filled, whatever the stored
      value. */
  lemma HoverShowsHoveredStar(max: nat, value: int, k: nat)
    requires 1 <= k <= max
    ensures FilledCount(RenderStars(max, value, Some(k))) == k
  {
    FilledCountIsClamped(max, value, Some(k));
  }

  /** The control. `value` is the prop the parent passes in; `changes` records, in order,
      the values `onChange` has been called with. */
  class StarRatingWidget {
    const max: nat
    const readOnly: bool
    const showValue: bool
    var value: int
    var hoverValue: Option<int>
    var changes: seq<int>

    /** A hovered value is always one of the stars, and a read-only control never has one. */
    ghost predicate Valid()
      reads this
    {
      (hoverValue.Some? ==> 1 <= hoverValue.value <= max) &&
      (readOnly ==> hoverValue.None?)
    }

    constructor (max: Option<nat>, readOnly: bool, showValue: bool, value: int)
      ensures Valid()
      ensures this.max == EffectiveMax(max) && this.readOnly == readOnly
      ensures this.showValue == showValue && this.value == value
      ensures hoverValue == None && changes == []
    {
      this.max := EffectiveMax(max);
      this.readOnly := readOnly;
      this.showValue := showValue;
      this.value := value;
      hoverValue := None;
      changes := [];
    }

    /** The stars as they are drawn now. */
    function Stars(): (stars: seq<Star>)
      reads this
      ensures |stars| == max
    {
      RenderStars(max, value, hoverValue)
    }

    /** The "value of max" caption: present only when `showValue` is set. */
    function Caption(): (c: Option<(int, nat)>)
      reads this
      ensures c.Some? <==> showValue
      ensures c.Some? ==> c.value == (value, max)
    {
      if showValue then Some((value, max)) else None
    }

    /** The pointer enters star `star`. */
    method MouseEnter(star: nat)
      requires Valid() && 1 <= star <= max
      modifies this
      ensures Valid()
      ensures hoverValue == if readOnly then old(hoverValue) else Some(star)
      ensures value == old(value) && changes == old(changes)
    {
      if !readOnly {
        hoverValue := Some(star);
      }
    }

    /** The pointer leaves a star. */
    method MouseLeave()
      requires Valid()
      modifies this
      ensures Valid()
      ensures hoverValue == if readOnly then old(hoverValue) else None
      ensures value == old(value) && changes == old(changes)
    {
      if !readOnly {
        hoverValue := None;
      }
    }

    /** Star `star` is clicked: `onChange(star)` unless read-only. The stored value changes
        only when the parent passes a new one in (SetValue). */
    method Click(star: nat)
      requires Valid() && 1 <= star <= max
      modifies this
      ensures Valid()
      ensures changes == if readOnly then old(changes) else old(changes) + [star]
      ensures value == old(value) && hoverValue == old(hoverValue)
    {
      if !readOnly {
        changes := changes + [star];
      }
    }

    /** The parent re-renders with a new `value` prop; the hover state is kept. */
    method SetValue(v: int)
      requires Valid()
      modifies this
      ensures Valid()
      ensures value == v && hoverValue == old(hoverValue) && changes == old(changes)
    {
      value := v;
    }
  }
}

/**
 * `renderConditionStars`: five star slots, slot `k` filled when
 * `k < condition` (the same rule in the card, the detail page and the
 * offer builder).
 */
module Stars {

  const SlotCount := 5

  /** Which of the five slots are drawn filled. */
  function StarSlots(condition: int): seq<bool>
  {
    seq(SlotCount, k => k < condition)
  }

  function CountFilled(slots: seq<bool>): nat
  {
    if slots == [] then 0 else (if slots[0] then 1 else 0) + CountFilled(slots[1..])
  }

  function Clamp(x: int, lo: int, hi: int): int
    requires lo <= hi
  {
    if x < lo then lo else if x > hi then hi else x
  }

  /** Of `n` slots with slot `k` filled iff `k < condition`, `condition` clamped to 0..n are filled. */
  lemma {:induction false} CountBelowThreshold(n: nat, condition: int)
    ensures CountFilled(seq(n, k => k < condition)) == Clamp(condition, 0, n)
  {
    if n > 0 {
      var s := seq(n, k => k < condition);
      assert s[1..] == seq(n - 1, k => k < condition - 1);
      CountBelowThreshold(n - 1, condition - 1);
    }
  }

  /** The number of filled stars is the condition clamped to 0..5, and the filled ones come first. */
  lemma FilledStarsIsClampedCondition(condition: int)
    ensures CountFilled(StarSlots(condition)) == Clamp(condition, 0, SlotCount)
    ensures forall k :: 0 <= k < SlotCount ==> StarSlots(condition)[k] == (k < condition)
  {
    CountBelowThreshold(SlotCount, condition);
  }
}

/**
 * The multi-select list behind "Select books to offer" (offer builder and
 * book-detail dialog share the same handler): clicking an id removes it if
 * it is selected, otherwise appends it.
 */
module Selection {
  import opened Seqs

  /** Every id occurs at most once. */
  ghost predicate NoDuplicates<T(!new)>(s: seq<T>)
  {
    forall x :: multiset(s)[x] <= 1
  }

  /**
   * `toggleBookSelection`: `selected.filter(x => x !== id)` when `id` is
   * selected, `[...selected, id]` otherwise.
   */
  function Toggle<T(==,!new)>(selected: seq<T>, id: T): (r: seq<T>)
    ensures (id in r) <==> (id !in selected)
    ensures forall x :: x != id ==> (x in r <==> x in selected)
    ensures id !in selected ==> r == selected + [id]
    ensures id in selected ==> IsSubsequence(r, selected)
    ensures id in selected ==> forall x :: multiset(r)[x] == if x == id then 0 else multiset(selected)[x]
  {
    if id in selected then Filter(x => x != id, selected) else selected + [id]
  }

  /** Clicking an unselected id twice gives back the original list. */
  lemma ToggleTwiceRestores<T(!new)>(selected: seq<T>, id: T)
    requires id !in selected
    ensures Toggle(Toggle(selected, id), id) == selected
  {
    FilterConcat(x => x != id, selected, [id]);
    FilterKeepsAll(x => x != id, selected);
  }

  /** Toggling keeps a duplicate-free list duplicate-free. */
  lemma ToggleKeepsNoDuplicates<T(!new)>(selected: seq<T>, id: T)
    requires NoDuplicates(selected)
    ensures NoDuplicates(Toggle(selected, id))
  {
    if id !in selected {
      forall x ensures multiset(selected + [id])[x] <= 1 {
        assert multiset(selected + [id]) == multiset(selected) + multiset{id};
      }
    }
  }

  /** The selection after a sequence of clicks. */
  function ToggleAll<T(==,!new)>(selected: seq<T>, clicks: seq<T>): seq<T>
    decreases |clicks|
  {
    if clicks == [] then selected else ToggleAll(Toggle(selected, clicks[0]), clicks[1..])
  }

  /** Starting from the empty selection, no sequence of clicks creates a duplicate. */
  lemma {:induction false} ClicksFromEmptyNeverDuplicate<T(!new)>(selected: seq<T>, clicks: seq<T>)
    requires NoDuplicates(selected)
    ensures NoDuplicates(ToggleAll(selected, clicks))
    decreases |clicks|
  {
    if clicks != [] {
      ToggleKeepsNoDuplicates(selected, clicks[0]);
      ClicksFromEmptyNeverDuplicate(Toggle(selected, clicks[0]), clicks[1..]);
    }
  }
}

/**
 * What the products, sales and withdrawals pages share: the sort state a
 * column header toggles, the comparators they build from one field, and
 * the selection list of the products page.
 */
module ListView {
  import opened Text
  import opened Sorting
  import opened Seqs

  /** `sortDirection`: the pages only ever store "asc" or "desc". */
  datatype Direction = Asc | Desc

  /** `sortDirection === "asc" ? "desc" : "asc"`. */
  function Flip(d: Direction): Direction
  {
    if d == Asc then Desc else Asc
  }

  /** The pair (`sortField`, `sortDirection`). */
  datatype SortState = SortState(field: string, direction: Direction)

  /** `handleSort(field)`: the same header flips the direction, another header sorts by it ascending. */
  function NextSort(s: SortState, field: string): (r: SortState)
    ensures r.field == field
    ensures s.field == field ==> r.direction != s.direction
    ensures s.field != field ==> r.direction == Asc
  {
    if s.field == field then SortState(field, Flip(s.direction)) else SortState(field, Asc)
  }

  /** Clicking the current header twice restores the sort. */
  lemma NextSortTwice(s: SortState)
    ensures NextSort(NextSort(s, s.field), s.field) == s
  {
  }

  /** Clicking a new header twice sorts by it descending. */
  lemma NextSortNewFieldTwice(s: SortState, field: string)
    requires s.field != field
    ensures NextSort(NextSort(s, field), field) == SortState(field, Desc)
  {
  }

  /** `asc ? a.key.localeCompare(b.key) : b.key.localeCompare(a.key)`. */
  function ByText<T>(key: T -> string, d: Direction): (T, T) -> int
  {
    (a: T, b: T) => if d == Asc then LexCompare(key(a), key(b)) else LexCompare(key(b), key(a))
  }

  /** `asc ? a.key - b.key : b.key - a.key`. */
  function ByNumber<T>(key: T -> int, d: Direction): (T, T) -> int
  {
    (a: T, b: T) => if d == Asc then key(a) - key(b) else key(b) - key(a)
  }

  lemma ByTextIsComparator<T(!new)>(key: T -> string, d: Direction)
    ensures IsComparator(ByText(key, d))
  {
    var cmp := ByText(key, d);
    forall a, b ensures cmp(a, b) < 0 <==> cmp(b, a) > 0 {
      LexCompareAntisymmetric(key(a), key(b));
    }
    forall a, b, c | cmp(a, b) <= 0 && cmp(b, c) <= 0 ensures cmp(a, c) <= 0 {
      if d == Asc {
        LexCompareTransitive(key(a), key(b), key(c));
      } else {
        LexCompareTransitive(key(c), key(b), key(a));
      }
    }
  }

  lemma ByNumberIsComparator<T(!new)>(key: T -> int, d: Direction)
    ensures IsComparator(ByNumber(key, d))
  {
  }

  /** Descending order is ascending order with the operands swapped. */
  lemma DescendingSwaps<T>(textKey: T -> string, numberKey: T -> int, a: T, b: T)
    ensures ByText(textKey, Desc)(a, b) == ByText(textKey, Asc)(b, a)
    ensures ByNumber(numberKey, Desc)(a, b) == ByNumber(numberKey, Asc)(b, a)
    ensures ByText(textKey, Desc)(a, b) == -ByText(textKey, Asc)(a, b)
  {
    LexCompareAntisymmetric(textKey(a), textKey(b));
  }

  // ------------------------------------------------------------ selection

  /** `handleSelectAll(checked)`: exactly the visible ids, or nothing. */
  function SelectAll(checked: bool, visibleIds: seq<string>): seq<string>
  {
    if checked then visibleIds else []
  }

  /** `selected.filter((x) => x !== id)`. */
  function RemoveAll(selected: seq<string>, id: string): (r: seq<string>)
    ensures id !in r
    ensures forall x :: x in r <==> x in selected && x != id
    ensures |r| <= |selected|
    ensures multiset(r) == multiset(selected)[id := 0]
  {
    if selected == [] then []
    else
      assert selected == [selected[0]] + selected[1..];
      assert multiset(selected) == multiset{selected[0]} + multiset(selected[1..]);
      (if selected[0] == id then [] else [selected[0]]) + RemoveAll(selected[1..], id)
  }

  /** The other ids keep their order; nothing changes when `id` is not selected. */
  lemma {:induction false} RemoveAllKeepsOrder(selected: seq<string>, id: string)
    ensures IsSubsequence(RemoveAll(selected, id), selected)
    ensures id !in selected ==> RemoveAll(selected, id) == selected
  {
    if selected != [] {
      RemoveAllKeepsOrder(selected[1..], id);
      var rest := RemoveAll(selected[1..], id);
      if selected[0] == id {
        assert RemoveAll(selected, id) == rest;
        SubsequenceDropHead(rest, selected);
      } else {
        assert RemoveAll(selected, id) == [selected[0]] + rest;
        assert ([selected[0]] + rest)[1..] == rest;
        assert id !in selected ==> [selected[0]] + selected[1..] == selected;
      }
    }
  }

  /** `handleSelectProduct(id, checked)`: append on check, drop every copy on uncheck. */
  function SelectOne(selected: seq<string>, id: string, checked: bool): (r: seq<string>)
    ensures id in r <==> checked
    ensures checked ==> multiset(r) == multiset(selected) + multiset{id}
    ensures !checked ==> multiset(r) == multiset(selected)[id := 0]
    ensures !checked ==> IsSubsequence(r, selected)
  {
    if !checked then RemoveAllKeepsOrder(selected, id); RemoveAll(selected, id)
    else selected + [id]
  }

  /** The header checkbox: something is visible and the selection is as long as the visible list. */
  function HeaderChecked(visibleCount: nat, selectedCount: nat): bool
  {
    visibleCount > 0 && selectedCount == visibleCount
  }

  /** After select-all the header is checked exactly when the visible list is non-empty. */
  lemma SelectAllChecksHeader(visibleIds: seq<string>)
    ensures HeaderChecked(|visibleIds|, |SelectAll(true, visibleIds)|) <==> |visibleIds| > 0
    ensures !HeaderChecked(|visibleIds|, |SelectAll(false, visibleIds)|)
  {
  }
}

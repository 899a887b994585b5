/** The sort the table applies to the filtered rows before taking a page: by one
    numeric column, larger values first when the direction is true. */
module Sorting {
  import opened Rows
  import opened Normalizer

  /** The value a row is sorted by in a column. An unset amount has none. */
  function Key(row: Row, column: SortField): (r: Option<int>)
    ensures column == AmountUSD || column == Timestamp ==> r.Some?
    ensures r.None? ==> (column == Token0Amount && row.token0Amount.None?) ||
                        (column == Token1Amount && row.token1Amount.None?)
  {
    match column
    case AmountUSD => Some(row.amountUSD)
    case Token0Amount => row.token0Amount
    case Token1Amount => row.token1Amount
    case Timestamp => Some(row.timestamp)
  }

  /** Only swap rows can lack a key: mint and burn rows have one in every column, and
      a swap row lacks one exactly in the two amount columns when neither net is
      negative. */
  lemma UnsetKeys(m: Mint, b: Burn, s: Swap, names: PairId -> TokenPair, column: SortField)
    ensures Key(MintRow(m, names), column).Some? && Key(BurnRow(b, names), column).Some?
    ensures Key(SwapRow(s, names), column).None? <==>
      (column == Token0Amount || column == Token1Amount) && Net0(s) >= 0 && Net1(s) >= 0
  {
  }

  /** The order on keys: numbers by value, an unset key below every number. */
  predicate KeyLe(a: Option<int>, b: Option<int>)
  {
    a.None? || (b.Some? && a.value <= b.value)
  }

  /** Whether `x` may stand before `y`: with `descending` (the source's
      `sortDirection == true`) the larger key comes first, otherwise the smaller. */
  predicate InOrder(x: Row, y: Row, column: SortField, descending: bool)
  {
    if descending then KeyLe(Key(y, column), Key(x, column)) else KeyLe(Key(x, column), Key(y, column))
  }

  predicate SortedBy(s: seq<Row>, column: SortField, descending: bool)
  {
    forall i, j :: 0 <= i < j < |s| ==> InOrder(s[i], s[j], column, descending)
  }

  /** The key order is a total preorder, and two keys ordered both ways are equal. */
  lemma InOrderIsTotalPreorder(x: Row, y: Row, z: Row, column: SortField, descending: bool)
    ensures InOrder(x, y, column, descending) || InOrder(y, x, column, descending)
    ensures InOrder(x, y, column, descending) && InOrder(y, z, column, descending) ==> InOrder(x, z, column, descending)
    ensures InOrder(x, y, column, descending) && InOrder(y, x, column, descending) ==> Key(x, column) == Key(y, column)
  {
  }

  /** `filteredItems.sort(...)`: reorders the rows in place so that they are sorted
      by `column` in the given direction, keeping the same rows. */
  method SortRows(a: array<Row>, column: SortField, descending: bool)
    modifies a
    ensures SortedBy(a[..], column, descending)
    ensures multiset(a[..]) == old(multiset(a[..]))
  {
    var i := 0;
    while i < a.Length
      invariant 0 <= i <= a.Length
      invariant SortedBy(a[..i], column, descending)
      invariant multiset(a[..]) == old(multiset(a[..]))
    {
      InsertAt(a, i, column, descending);
      i := i + 1;
    }
    assert a[..a.Length] == a[..];
  }

  /** Moves `a[i]` leftwards into the sorted prefix `a[..i]`, leaving `a[..i + 1]` sorted. */
  method InsertAt(a: array<Row>, i: nat, column: SortField, descending: bool)
    requires i < a.Length
    requires SortedBy(a[..i], column, descending)
    modifies a
    ensures SortedBy(a[..i + 1], column, descending)
    ensures multiset(a[..]) == old(multiset(a[..]))
  {
    var j := i;
    assert SortedExcept(a[..], j, i + 1, column, descending);
    while j > 0 && !InOrder(a[j - 1], a[j], column, descending)
      invariant 0 <= j <= i
      invariant SortedExcept(a[..], j, i + 1, column, descending)
      invariant multiset(a[..]) == old(multiset(a[..]))
    {
      SwapKeepsSortedExcept(a[..], j, i + 1, column, descending);
      SwapAdjacent(a, j - 1);
      j := j - 1;
    }
    SortedExceptSettled(a[..], j, i + 1, column, descending);
  }

  /** The first `n` rows of `s` are sorted apart from the row at `j`, and that row is
      ordered before every later one of them: the state of an insertion that has
      moved the row to `j`. */
  predicate SortedExcept(s: seq<Row>, j: nat, n: nat, column: SortField, descending: bool)
  {
    && j < n <= |s|
    && (forall k, l :: 0 <= k < l < n && k != j && l != j ==> InOrder(s[k], s[l], column, descending))
    && (forall l :: j < l < n ==> InOrder(s[j], s[l], column, descending))
  }

  /** Exchanging the row at `j` with the row before it, when the two are out of
      order, moves the insertion one place left. */
  lemma SwapKeepsSortedExcept(s: seq<Row>, j: nat, n: nat, column: SortField, descending: bool)
    requires SortedExcept(s, j, n, column, descending)
    requires 0 < j && !InOrder(s[j - 1], s[j], column, descending)
    ensures SortedExcept(s[j - 1 := s[j]][j := s[j - 1]], j - 1, n, column, descending)
  {
    InOrderIsTotalPreorder(s[j - 1], s[j], s[j], column, descending);
  }

  /** An insertion that has stopped, at the front or behind a row ordered before it,
      leaves the first `n` rows sorted. */
  lemma SortedExceptSettled(s: seq<Row>, j: nat, n: nat, column: SortField, descending: bool)
    requires SortedExcept(s, j, n, column, descending)
    requires j == 0 || InOrder(s[j - 1], s[j], column, descending)
    ensures SortedBy(s[..n], column, descending)
  {
    forall k | 0 <= k < j
      ensures InOrder(s[k], s[j], column, descending)
    {
      InOrderIsTotalPreorder(s[k], s[j - 1], s[j], column, descending);
    }
  }

  /** Exchanges `a[k]` and `a[k + 1]`. */
  method SwapAdjacent(a: array<Row>, k: nat)
    requires k + 1 < a.Length
    modifies a
    ensures a[..] == old(a[..])[k := old(a[k + 1])][k + 1 := old(a[k])]
    ensures multiset(a[..]) == old(multiset(a[..]))
  {
    a[k], a[k + 1] := a[k + 1], a[k];
  }

  /** No two rows of `s` share a key in `column`. */
  predicate DistinctKeys(s: seq<Row>, column: SortField)
  {
    forall i, j :: 0 <= i < j < |s| ==> Key(s[i], column) != Key(s[j], column)
  }

  /** Two sorted arrangements of the same rows, the first with distinct keys, start
      with the same row. */
  lemma SortedHeadsAgree(s: seq<Row>, t: seq<Row>, column: SortField, descending: bool)
    requires s != [] && multiset(s) == multiset(t)
    requires SortedBy(s, column, descending) && SortedBy(t, column, descending)
    requires DistinctKeys(s, column)
    ensures t != [] && s[0] == t[0]
  {
    assert s[0] in multiset(t);
    var j :| 0 <= j < |t| && t[j] == s[0];
    assert t[0] in multiset(s);
    var i :| 0 <= i < |s| && s[i] == t[0];
    // s[0] and t[0] are each ordered before the other, so they share a key
    assert InOrder(s[0], s[i], column, descending);
    assert InOrder(t[0], t[j], column, descending);
    InOrderIsTotalPreorder(s[0], t[0], t[0], column, descending);
    assert i == 0;
  }

  /** Removing the same first row from two lists with equal multisets leaves equal
      multisets. */
  lemma TailsHaveEqualMultisets(s: seq<Row>, t: seq<Row>)
    requires s != [] && t != [] && s[0] == t[0] && multiset(s) == multiset(t)
    ensures multiset(s[1..]) == multiset(t[1..])
  {
    assert s == [s[0]] + s[1..];
    assert t == [t[0]] + t[1..];
    assert multiset(s) == multiset{s[0]} + multiset(s[1..]);
    assert multiset(t) == multiset{t[0]} + multiset(t[1..]);
    assert multiset(s[1..]) == multiset(s) - multiset{s[0]};
    assert multiset(t[1..]) == multiset(t) - multiset{t[0]};
  }

  /** Rows with distinct keys have only one sorted order: two sorted arrangements of
      the same rows are equal. */
  lemma {:induction false} SortedIsUnique(s: seq<Row>, t: seq<Row>, column: SortField, descending: bool)
    requires multiset(s) == multiset(t)
    requires SortedBy(s, column, descending) && SortedBy(t, column, descending)
    requires DistinctKeys(s, column)
    ensures s == t
  {
    if s == [] {
      assert |t| == |multiset(t)| == 0;
    } else {
      SortedHeadsAgree(s, t, column, descending);
      TailsHaveEqualMultisets(s, t);
      SortedIsUnique(s[1..], t[1..], column, descending);
      assert s == [s[0]] + s[1..] && t == [t[0]] + t[1..];
    }
  }

  function Reverse(s: seq<Row>): (r: seq<Row>)
    ensures |r| == |s|
    ensures forall k :: 0 <= k < |s| ==> r[k] == s[|s| - 1 - k]
    ensures multiset(r) == multiset(s)
  {
    if s == [] then []
    else
      var front := s[..|s| - 1];
      assert s == front + [s[|s| - 1]];
      [s[|s| - 1]] + Reverse(front)
  }

  /** Sorting the same rows with distinct keys in one direction and then the other
      gives exactly the reversed order. */
  lemma FlipReverses(s: seq<Row>, t: seq<Row>, column: SortField, descending: bool)
    requires multiset(s) == multiset(t)
    requires SortedBy(s, column, descending) && SortedBy(t, column, !descending)
    requires DistinctKeys(s, column)
    ensures t == Reverse(s)
  {
    var r := Reverse(s);
    assert SortedBy(r, column, !descending) by {
      forall i, j | 0 <= i < j < |r|
        ensures InOrder(r[i], r[j], column, !descending)
      {
        assert InOrder(s[|s| - 1 - j], s[|s| - 1 - i], column, descending);
      }
    }
    assert DistinctKeys(r, column) by {
      forall i, j | 0 <= i < j < |r|
        ensures Key(r[i], column) != Key(r[j], column)
      {
        assert Key(s[|s| - 1 - j], column) != Key(s[|s| - 1 - i], column);
      }
    }
    SortedIsUnique(r, t, column, !descending);
  }
}

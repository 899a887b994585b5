/** The filter, the page count and the page window applied to the normalised rows. */
module Pipeline {
  import opened Rows
  import opened Normalizer

  /** The filter predicate: every row passes `All`; any other filter passes the rows
      of its own type. */
  predicate Keep(row: Row, filter: TxnType)
    ensures filter == All ==> Keep(row, filter)
    ensures filter == row.txType ==> Keep(row, filter)
    ensures Keep(row, filter) ==> filter == All || filter == row.txType
  {
    if filter != All then row.txType == filter else true
  }

  /** `newTxns.filter(...)`: the rows that pass, in their original order. */
  function Filter(rows: seq<Row>, filter: TxnType): (r: seq<Row>)
    ensures |r| <= |rows|
    ensures forall x :: x in r <==> x in rows && Keep(x, filter)
  {
    if rows == [] then []
    else (if Keep(rows[0], filter) then [rows[0]] else []) + Filter(rows[1..], filter)
  }

  /** Filtering by `All` keeps every row. */
  lemma {:induction false} FilterAll(rows: seq<Row>)
    ensures Filter(rows, All) == rows
  {
    if rows != [] {
      FilterAll(rows[1..]);
    }
  }

  /** Filtering keeps relative order: the rows of a prefix come before those of the
      rest. */
  lemma {:induction false} FilterAppend(a: seq<Row>, b: seq<Row>, filter: TxnType)
    ensures Filter(a + b, filter) == Filter(a, filter) + Filter(b, filter)
  {
    if a == [] {
      assert a + b == b;
    } else {
      assert (a + b)[1..] == a[1..] + b;
      FilterAppend(a[1..], b, filter);
    }
  }

  /** Each row occurs in the filtered list exactly as often as in the input when it
      passes the filter, and not at all otherwise. */
  lemma {:induction false} FilterCount(rows: seq<Row>, filter: TxnType, x: Row)
    ensures multiset(Filter(rows, filter))[x] == if Keep(x, filter) then multiset(rows)[x] else 0
  {
    if rows != [] {
      FilterCount(rows[1..], filter, x);
      assert rows == [rows[0]] + rows[1..];
    }
  }

  /** A list whose rows all have the filter's type passes whole; one with none of them
      passes nothing. */
  lemma {:induction false} FilterUniform(rows: seq<Row>, filter: TxnType, t: TxnType)
    requires filter != All
    requires forall i :: 0 <= i < |rows| ==> rows[i].txType == t
    ensures Filter(rows, filter) == if t == filter then rows else []
  {
    if rows != [] {
      FilterUniform(rows[1..], filter, t);
    }
  }

  /** Filtering a list of `Adds` rows, then `Removes` rows, then `Swaps` rows by one
      of the three types gives back that type's part. */
  lemma FilterByTag(a: seq<Row>, b: seq<Row>, c: seq<Row>, filter: TxnType)
    requires filter != All
    requires forall i :: 0 <= i < |a| ==> a[i].txType == Adds
    requires forall i :: 0 <= i < |b| ==> b[i].txType == Removes
    requires forall i :: 0 <= i < |c| ==> c[i].txType == Swaps
    ensures Filter(a + b + c, filter) == match filter case Adds => a case Removes => b case _ => c
  {
    FilterAppend(a + b, c, filter);
    FilterAppend(a, b, filter);
    FilterUniform(a, filter, Adds);
    FilterUniform(b, filter, Removes);
    FilterUniform(c, filter, Swaps);
    match filter
    case Adds => assert a + [] + [] == a;
    case Removes => assert [] + b + [] == b;
    case Swaps => assert [] + [] + c == c;
  }

  /** Filtering the normalised list by a type gives back exactly the rows built from
      the collection of that type: the mints for `Adds`, the burns for `Removes`, the
      swaps for `Swaps`. */
  lemma {:induction false} NormalizedByType(mints: seq<Mint>, burns: seq<Burn>, swaps: seq<Swap>,
                                            names: PairId -> TokenPair, filter: TxnType)
    requires filter != All
    ensures Filter(NormalizedRows(mints, burns, swaps, names), filter) ==
      match filter
      case Adds => RowsOf(mints, MintBuilder(names))
      case Removes => RowsOf(burns, BurnBuilder(names))
      case _ => RowsOf(swaps, SwapBuilder(names))
  {
    var a, b, c := RowsOf(mints, MintBuilder(names)), RowsOf(burns, BurnBuilder(names)), RowsOf(swaps, SwapBuilder(names));
    assert NormalizedRows(mints, burns, swaps, names) == a + b + c;
    assert forall i :: 0 <= i < |a| ==> a[i] == MintRow(mints[i], names);
    assert forall i :: 0 <= i < |b| ==> b[i] == BurnRow(burns[i], names);
    assert forall i :: 0 <= i < |c| ==> c[i] == SwapRow(swaps[i], names);
    FilterByTag(a, b, c, filter);
  }

  /** The page count of `n` filtered rows: 1 for none, otherwise the whole pages plus
      one more for a partial last page. */
  function MaxPage(n: nat): (r: nat)
    ensures r >= 1
    ensures n > 0 ==> (r - 1) * ItemsPerPage < n <= r * ItemsPerPage
    ensures n == 0 ==> r == 1
  {
    var extraPages := if n % ItemsPerPage == 0 then 0 else 1;
    if n == 0 then 1 else n / ItemsPerPage + extraPages
  }

  /** The page counts for 0, 10, 11, 20 and 21 rows. */
  lemma MaxPageExamples()
    ensures MaxPage(0) == 1 && MaxPage(10) == 1 && MaxPage(11) == 2
    ensures MaxPage(20) == 2 && MaxPage(21) == 3
  {
  }

  /** `slice(ITEMS_PER_PAGE * (page - 1), page * ITEMS_PER_PAGE)`, whose bounds are
      clamped to the list's length. */
  function Window(rows: seq<Row>, page: nat): (r: seq<Row>)
    requires page >= 1
    ensures |r| <= ItemsPerPage
    ensures |r| == if |rows| <= (page - 1) * ItemsPerPage then 0
                   else if |rows| < page * ItemsPerPage then |rows| - (page - 1) * ItemsPerPage
                   else ItemsPerPage
    ensures forall i :: 0 <= i < |r| ==> r[i] == rows[(page - 1) * ItemsPerPage + i]
  {
    var start := ItemsPerPage * (page - 1);
    var end := page * ItemsPerPage;
    var lo := if start <= |rows| then start else |rows|;
    var hi := if end <= |rows| then end else |rows|;
    rows[lo..hi]
  }

  /** Pages 1 to `count`, one after another. */
  function Pages(rows: seq<Row>, count: nat): seq<Row>
  {
    if count == 0 then [] else Pages(rows, count - 1) + Window(rows, count)
  }

  /** Pages 1 to `count` are the first `count` pages' worth of rows. */
  lemma {:induction false} PagesArePrefix(rows: seq<Row>, count: nat)
    ensures Pages(rows, count) == rows[..if count * ItemsPerPage <= |rows| then count * ItemsPerPage else |rows|]
  {
    if count > 0 {
      PagesArePrefix(rows, count - 1);
      var lo := if (count - 1) * ItemsPerPage <= |rows| then (count - 1) * ItemsPerPage else |rows|;
      var hi := if count * ItemsPerPage <= |rows| then count * ItemsPerPage else |rows|;
      assert Window(rows, count) == rows[lo..hi];
      assert rows[..lo] + rows[lo..hi] == rows[..hi];
    }
  }

  /** Every page from 1 to the page count holds at least one row of a non-empty list,
      and every page but the last holds a full page. */
  lemma PageOccupancy(rows: seq<Row>, page: nat)
    requires 1 <= page <= MaxPage(|rows|)
    ensures |rows| > 0 ==> |Window(rows, page)| > 0
    ensures page < MaxPage(|rows|) ==> |Window(rows, page)| == ItemsPerPage
  {
  }

  /** The pages 1 to the page count put back together give the whole list, each row
      once and in order. */
  lemma {:induction false} PagesCoverAll(rows: seq<Row>)
    ensures Pages(rows, MaxPage(|rows|)) == rows
  {
    PagesArePrefix(rows, MaxPage(|rows|));
  }
}

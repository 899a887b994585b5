/** The `MochiTransactions` component's state and the transitions its effects and
    click handlers make. Each effect and each click is one atomic step. */
module TransactionTable {
  import opened Rows
  import opened Normalizer
  import opened Pipeline
  import opened Sorting

  /** What the parsing effect stores for a `transactions` value under a type filter:
      the filtered normalised rows, or None when the value or one of its three
      collections is missing, in which case the effect leaves the state alone. */
  function ParsedItems(transactions: Option<Batch>, filter: TxnType, names: PairId -> TokenPair): (r: Option<seq<Row>>)
    ensures r.Some? <==> && transactions.Some? && transactions.value.mints.Some?
                         && transactions.value.burns.Some? && transactions.value.swaps.Some?
    ensures r.Some? ==> forall x :: x in r.value ==> Keep(x, filter)
    ensures r.Some? ==> var t := transactions.value;
      |r.value| <= |t.mints.value| + |t.burns.value| + |t.swaps.value| &&
      (filter == All ==> |r.value| == |t.mints.value| + |t.burns.value| + |t.swaps.value|)
  {
    match transactions
    case Some(Batch(Some(mints), Some(burns), Some(swaps))) =>
      var rows := NormalizedRows(mints, burns, swaps, names);
      FilterAll(rows);
      Some(Filter(rows, filter))
    case _ => None
  }

  /** What is stored: under All every normalised row, in order; under a type exactly
      the rows of that type's collection, in order. */
  lemma ParsedRows(mints: seq<Mint>, burns: seq<Burn>, swaps: seq<Swap>, filter: TxnType,
                   names: PairId -> TokenPair)
    ensures var r := ParsedItems(Some(Batch(Some(mints), Some(burns), Some(swaps))), filter, names);
      && (filter == All ==> r == Some(NormalizedRows(mints, burns, swaps, names)))
      && (filter == Adds ==> r == Some(RowsOf(mints, MintBuilder(names))))
      && (filter == Removes ==> r == Some(RowsOf(burns, BurnBuilder(names))))
      && (filter == Swaps ==> r == Some(RowsOf(swaps, SwapBuilder(names))))
  {
    var rows := NormalizedRows(mints, burns, swaps, names);
    if filter == All {
      FilterAll(rows);
    } else {
      NormalizedByType(mints, burns, swaps, names, filter);
    }
  }

  class MochiTransactions {
    /** The pair-name resolver `updateNameData`. */
    const names: PairId -> TokenPair
    /** The `transactions` prop. */
    var transactions: Option<Batch>

    var page: int
    var maxPage: int
    var sortDirection: bool
    var sortedColumn: SortField
    /** The stored filtered rows; null until the parsing effect first finds data. */
    var filteredItems: array?<Row>
    var txFilter: TxnType

    /** The page shown is one of the pages there are. */
    ghost predicate Valid()
      reads this
    {
      1 <= page <= maxPage
    }

    /** After the parsing effect: when it found data, `filteredItems` holds the
        filtered rows and `maxPage` their page count; otherwise both keep their
        earlier values `prevItems` and `prevMaxPage`. */
    ghost predicate Parsed(items: Option<seq<Row>>, prevItems: array?<Row>, prevMaxPage: int)
      reads this, filteredItems
    {
      match items
      case None => filteredItems == prevItems && maxPage == prevMaxPage
      case Some(rows) => filteredItems != null && filteredItems[..] == rows && maxPage == MaxPage(|rows|)
    }

    /** Mounting: the initial state, then the three effects in declaration order. */
    constructor (transactions: Option<Batch>, names: PairId -> TokenPair)
      ensures Valid() && page == 1
      ensures sortDirection && sortedColumn == Timestamp && txFilter == All
      ensures this.transactions == transactions && this.names == names
      ensures Parsed(ParsedItems(transactions, All, names), null, 1)
      ensures filteredItems != null ==> fresh(filteredItems)
    {
      this.names := names;
      this.transactions := transactions;
      page, maxPage := 1, 1;
      sortDirection, sortedColumn := true, Timestamp;
      filteredItems := null;
      txFilter := All;
      new;
      ResetPaging();
      ParseTransactions();
      ResetPageOnFilter();
    }

    /** The effect on `[transactions]`: back to page 1 of 1. */
    method ResetPaging()
      modifies this
      ensures page == 1 && maxPage == 1
      ensures filteredItems == old(filteredItems) && transactions == old(transactions)
      ensures sortDirection == old(sortDirection) && sortedColumn == old(sortedColumn)
      ensures txFilter == old(txFilter)
    {
      maxPage := 1;
      page := 1;
    }

    /** The effect on `[transactions, txFilter]`: when all three collections are
        present, normalise them, filter by `txFilter`, store the result and its page
        count. */
    method ParseTransactions()
      modifies this
      ensures Parsed(ParsedItems(transactions, txFilter, names), old(filteredItems), old(maxPage))
      ensures filteredItems != old(filteredItems) ==> fresh(filteredItems)
      ensures page == old(page) && transactions == old(transactions) && txFilter == old(txFilter)
      ensures sortDirection == old(sortDirection) && sortedColumn == old(sortedColumn)
    {
      match transactions
      case Some(Batch(Some(mints), Some(burns), Some(swaps))) =>
        var newTxns := Normalize(mints, burns, swaps, names);
        var filtered := Filter(newTxns, txFilter);
        assert ParsedItems(transactions, txFilter, names) == Some(filtered);
        var items := new Row[|filtered|](k requires 0 <= k < |filtered| => filtered[k]);
        assert items[..] == filtered;
        filteredItems := items;
        maxPage := MaxPage(|filtered|);
      case _ =>
        assert ParsedItems(transactions, txFilter, names) == None;
    }

    /** The effect on `[txFilter]`: back to page 1. */
    method ResetPageOnFilter()
      modifies this
      ensures page == 1 && maxPage == old(maxPage) && filteredItems == old(filteredItems)
      ensures transactions == old(transactions) && txFilter == old(txFilter)
      ensures sortDirection == old(sortDirection) && sortedColumn == old(sortedColumn)
    {
      page := 1;
    }

    /** A new `transactions` prop: both effects that depend on it run. The page is
        reset to 1, and the page count is 1 unless the data is complete. */
    method SetTransactions(t: Option<Batch>)
      modifies this
      ensures Valid() && page == 1 && transactions == t
      ensures Parsed(ParsedItems(t, txFilter, names), old(filteredItems), 1)
      ensures filteredItems != old(filteredItems) ==> fresh(filteredItems)
      ensures txFilter == old(txFilter)
      ensures sortDirection == old(sortDirection) && sortedColumn == old(sortedColumn)
    {
      transactions := t;
      ResetPaging();
      ParseTransactions();
    }

    /** `setTxFilter(filter)`: setting the filter it already has changes no state, so
        no effect runs; a different filter runs both effects that depend on it, which
        re-filters the data and resets the page to 1. */
    method SetTxFilter(filter: TxnType)
      requires Valid()
      modifies this
      ensures Valid() && txFilter == filter
      ensures filter == old(txFilter) ==>
        page == old(page) && maxPage == old(maxPage) && filteredItems == old(filteredItems)
      ensures filter != old(txFilter) ==>
        page == 1 && Parsed(ParsedItems(transactions, filter, names), old(filteredItems), old(maxPage))
      ensures filteredItems != old(filteredItems) ==> fresh(filteredItems)
      ensures transactions == old(transactions)
      ensures sortDirection == old(sortDirection) && sortedColumn == old(sortedColumn)
    {
      if filter != txFilter {
        txFilter := filter;
        ParseTransactions();
        ResetPageOnFilter();
      }
    }

    /** A click on the header of a sortable column: that column becomes the sort
        column; the direction becomes true for a newly chosen column and flips for
        the column already chosen. */
    method ClickHeader(column: SortField)
      modifies this
      ensures sortedColumn == column
      ensures sortDirection == if old(sortedColumn) != column then true else !old(sortDirection)
      ensures page == old(page) && maxPage == old(maxPage) && filteredItems == old(filteredItems)
      ensures transactions == old(transactions) && txFilter == old(txFilter)
    {
      sortedColumn, sortDirection := column, if sortedColumn != column then true else !sortDirection;
    }

    /** The previous-page arrow: no step back from page 1. */
    method PreviousPage()
      requires Valid()
      modifies this
      ensures Valid()
      ensures page == if old(page) == 1 then old(page) else old(page) - 1
      ensures maxPage == old(maxPage) && filteredItems == old(filteredItems)
      ensures transactions == old(transactions) && txFilter == old(txFilter)
      ensures sortDirection == old(sortDirection) && sortedColumn == old(sortedColumn)
    {
      page := if page == 1 then page else page - 1;
    }

    /** The next-page arrow: no step past the last page. */
    method NextPage()
      requires Valid()
      modifies this
      ensures Valid()
      ensures page == if old(page) == maxPage then old(page) else old(page) + 1
      ensures maxPage == old(maxPage) && filteredItems == old(filteredItems)
      ensures transactions == old(transactions) && txFilter == old(txFilter)
      ensures sortDirection == old(sortDirection) && sortedColumn == old(sortedColumn)
    {
      page := if page == maxPage then page else page + 1;
    }

    /** `filteredList`: nothing before the first parse; otherwise the stored rows are
        sorted in place by the chosen column and direction, and the current page's
        window of them is returned. */
    method VisibleRows() returns (filteredList: Option<seq<Row>>)
      requires Valid()
      modifies filteredItems
      ensures filteredList.None? <==> filteredItems == null
      ensures filteredItems != null ==>
        && SortedBy(filteredItems[..], sortedColumn, sortDirection)
        && multiset(filteredItems[..]) == old(multiset(filteredItems[..]))
        && filteredList == Some(Window(filteredItems[..], page))
    {
      if filteredItems == null {
        return None;
      }
      SortRows(filteredItems, sortedColumn, sortDirection);
      filteredList := Some(Window(filteredItems[..], page));
    }
  }
}

/** The normaliser: the part of the parsing effect that turns the `mints`, `burns`
    and `swaps` collections into one flat list of rows. */
module Normalizer {
  import opened Rows
  import opened Labels

  /** The row of one mint: an `Adds` row whose account is the mint's `to`, with the
      mint's amounts and the pair's symbols in pair order. */
  function MintRow(m: Mint, names: PairId -> TokenPair): (r: Row)
    ensures r.txType == Adds && r.account == m.to && r.amountUSD == m.amountUSD
    ensures r.hash == m.transaction.id && r.timestamp == m.transaction.timestamp
    // each token's symbol sits beside that token's amount, copied with its sign
    ensures (r.token0Symbol, r.token0Amount) == (Some(names(m.pair).token0), Some(m.amount0))
    ensures (r.token1Symbol, r.token1Amount) == (Some(names(m.pair).token1), Some(m.amount1))
  {
    Row(m.transaction.id, m.transaction.timestamp, Adds,
        Some(m.amount0), Some(m.amount1),
        Some(names(m.pair).token0), Some(names(m.pair).token1),
        m.to, m.amountUSD)
  }

  /** The row of one burn: a `Removes` row whose account is the burn's `sender`,
      laid out like a mint row. */
  function BurnRow(b: Burn, names: PairId -> TokenPair): (r: Row)
    ensures r.txType == Removes && r.account == b.sender && r.amountUSD == b.amountUSD
    ensures r.hash == b.transaction.id && r.timestamp == b.transaction.timestamp
    ensures (r.token0Symbol, r.token0Amount) == (Some(names(b.pair).token0), Some(b.amount0))
    ensures (r.token1Symbol, r.token1Amount) == (Some(names(b.pair).token1), Some(b.amount1))
  {
    Row(b.transaction.id, b.transaction.timestamp, Removes,
        Some(b.amount0), Some(b.amount1),
        Some(names(b.pair).token0), Some(names(b.pair).token1),
        b.sender, b.amountUSD)
  }

  /** The row of one swap. The token whose net is negative becomes the row's token0,
      token0 of the pair taking precedence when both are, and both amounts are
      magnitudes. When neither net is negative, amounts and symbols stay unset. */
  function SwapRow(s: Swap, names: PairId -> TokenPair): (r: Row)
    ensures r.txType == Swaps && r.account == s.to && r.amountUSD == s.amountUSD
    ensures r.hash == s.transaction.id && r.timestamp == s.transaction.timestamp
    // the fields are set together, and exactly when some net is negative
    ensures r.token0Amount.Some? == r.token1Amount.Some? == r.token0Symbol.Some? == r.token1Symbol.Some?
    ensures r.token0Amount.Some? <==> Net0(s) < 0 || Net1(s) < 0
    // branch 1: pair order kept
    ensures Net0(s) < 0 ==>
      && r.token0Symbol == Some(names(s.pair).token0) && r.token1Symbol == Some(names(s.pair).token1)
      && r.token0Amount == Some(-Net0(s)) && r.token1Amount == Some(Abs(Net1(s)))
    // branch 2: pair order reversed
    ensures Net0(s) >= 0 && Net1(s) < 0 ==>
      && r.token0Symbol == Some(names(s.pair).token1) && r.token1Symbol == Some(names(s.pair).token0)
      && r.token0Amount == Some(-Net1(s)) && r.token1Amount == Some(Net0(s))
    // whenever set, the amounts are magnitudes: token0's strictly positive
    ensures r.token0Amount.Some? ==> r.token0Amount.value > 0 && r.token1Amount.value >= 0
  {
    var net0 := Net0(s);
    var net1 := Net1(s);
    var pair := names(s.pair);
    var (sym0, sym1, amt0, amt1) :=
      if net0 < 0 then (Some(pair.token0), Some(pair.token1), Some(Abs(net0)), Some(Abs(net1)))
      else if net1 < 0 then (Some(pair.token1), Some(pair.token0), Some(Abs(net1)), Some(Abs(net0)))
      else (None, None, None, None);
    Row(s.transaction.id, s.transaction.timestamp, Swaps, amt0, amt1, sym0, sym1, s.to, s.amountUSD)
  }

  /** Each amount of a swap row stays next to its own token's symbol: the row holds
      the two (symbol, magnitude of net) pairs of the pair's tokens, in one order or
      the other, and the one put first is a token whose net is negative. */
  lemma SwapRowKeepsTokensPaired(s: Swap, names: PairId -> TokenPair)
    requires SwapRow(s, names).token0Amount.Some?
    ensures var r, p := SwapRow(s, names), names(s.pair);
      var first := (r.token0Symbol.value, r.token0Amount.value);
      var second := (r.token1Symbol.value, r.token1Amount.value);
      var side0 := (p.token0, Abs(Net0(s)));
      var side1 := (p.token1, Abs(Net1(s)));
      (first == side0 && second == side1 && Net0(s) < 0) ||
      (first == side1 && second == side0 && Net1(s) < 0)
  {
  }

  /** One row per record, in the records' order: what each `collection.map` that
      pushes a built row produces. */
  function RowsOf<T>(records: seq<T>, build: T -> Row): (r: seq<Row>)
    ensures |r| == |records|
    ensures forall i :: 0 <= i < |records| ==> r[i] == build(records[i])
  {
    if records == [] then [] else [build(records[0])] + RowsOf(records[1..], build)
  }

  /** Pushing the row of one more record extends the rows of the records before it. */
  lemma {:induction false} RowsOfPush<T>(records: seq<T>, x: T, build: T -> Row)
    ensures RowsOf(records + [x], build) == RowsOf(records, build) + [build(x)]
  {
    if records != [] {
      assert (records + [x])[1..] == records[1..] + [x];
      RowsOfPush(records[1..], x, build);
    }
  }

  function MintBuilder(names: PairId -> TokenPair): Mint -> Row { m => MintRow(m, names) }
  function BurnBuilder(names: PairId -> TokenPair): Burn -> Row { b => BurnRow(b, names) }
  function SwapBuilder(names: PairId -> TokenPair): Swap -> Row { s => SwapRow(s, names) }

  /** The normalised list: all mint rows, then all burn rows, then all swap rows. */
  function NormalizedRows(mints: seq<Mint>, burns: seq<Burn>, swaps: seq<Swap>,
                          names: PairId -> TokenPair): (r: seq<Row>)
    ensures |r| == |mints| + |burns| + |swaps|
    ensures forall i :: 0 <= i < |mints| ==> r[i] == MintRow(mints[i], names)
    ensures forall i :: 0 <= i < |burns| ==> r[|mints| + i] == BurnRow(burns[i], names)
    ensures forall i :: 0 <= i < |swaps| ==> r[|mints| + |burns| + i] == SwapRow(swaps[i], names)
  {
    RowsOf(mints, MintBuilder(names)) + RowsOf(burns, BurnBuilder(names)) + RowsOf(swaps, SwapBuilder(names))
  }

  /** Each normalised row carries its record's type tag, account and transaction id:
      mints give `Adds` rows for `to`, burns `Removes` rows for `sender`, swaps
      `Swaps` rows for `to`; no row is tagged `All`. */
  lemma NormalizedRowTags(mints: seq<Mint>, burns: seq<Burn>, swaps: seq<Swap>, names: PairId -> TokenPair)
    ensures var r := NormalizedRows(mints, burns, swaps, names);
      forall i :: 0 <= i < |r| ==> r[i].txType != All
    ensures var r := NormalizedRows(mints, burns, swaps, names);
      forall i :: 0 <= i < |mints| ==>
        r[i].txType == Adds && r[i].account == mints[i].to && r[i].hash == mints[i].transaction.id
    ensures var r := NormalizedRows(mints, burns, swaps, names);
      forall i :: 0 <= i < |burns| ==>
        var row := r[|mints| + i];
        row.txType == Removes && row.account == burns[i].sender && row.hash == burns[i].transaction.id
    ensures var r := NormalizedRows(mints, burns, swaps, names);
      forall i :: 0 <= i < |swaps| ==>
        var row := r[|mints| + |burns| + i];
        row.txType == Swaps && row.account == swaps[i].to && row.hash == swaps[i].transaction.id
  {
  }

  /** One `collection.map` of the normaliser: pushes the row built from each record,
      in order, onto `newTxns`. */
  method PushRows<T>(newTxns: seq<Row>, records: seq<T>, build: T -> Row) returns (pushed: seq<Row>)
    ensures pushed == newTxns + RowsOf(records, build)
  {
    pushed := newTxns;
    for i := 0 to |records|
      invariant pushed == newTxns + RowsOf(records[..i], build)
    {
      assert records[..i + 1] == records[..i] + [records[i]];
      RowsOfPush(records[..i], records[i], build);
      pushed := pushed + [build(records[i])];
    }
    assert records[..|records|] == records;
  }

  /** The normaliser as the effect runs it: the mints, then the burns, then the swaps,
      each pushing one row per record onto `newTxns`. */
  method Normalize(mints: seq<Mint>, burns: seq<Burn>, swaps: seq<Swap>,
                   names: PairId -> TokenPair) returns (newTxns: seq<Row>)
    ensures newTxns == NormalizedRows(mints, burns, swaps, names)
  {
    newTxns := [];
    newTxns := PushRows(newTxns, mints, MintBuilder(names));
    assert newTxns == RowsOf(mints, MintBuilder(names));
    newTxns := PushRows(newTxns, burns, BurnBuilder(names));
    newTxns := PushRows(newTxns, swaps, SwapBuilder(names));
    assert newTxns == RowsOf(mints, MintBuilder(names)) + RowsOf(burns, BurnBuilder(names))
                      + RowsOf(swaps, SwapBuilder(names));
  }

  /** The example of a swap with 5 of token0 in and 3 of token1 out: the row leads
      with token1 and an amount of 3. */
  lemma SwapRowExample(names: PairId -> TokenPair)
    ensures var s := Swap(Transaction("h", 0), "p", 5, 0, 0, 3, "a", 0);
      var r := SwapRow(s, names);
      r.token0Amount == Some(3) && r.token1Amount == Some(5) &&
      r.token0Symbol == Some(names("p").token1) && r.token1Symbol == Some(names("p").token0)
  {
  }

  /** A swap row is labelled "Swap <its token1 symbol> to <its token0 symbol>"; a swap
      with no negative net is labelled "Swap undefined to undefined". */
  lemma SwapRowLabel(s: Swap, names: PairId -> TokenPair)
    ensures var p := names(s.pair);
      RowLabel(SwapRow(s, names)) ==
        if Net0(s) < 0 then "Swap " + Shorten(p.token1) + " to " + Shorten(p.token0)
        else if Net1(s) < 0 then "Swap " + Shorten(p.token0) + " to " + Shorten(p.token1)
        else "Swap undefined to undefined"
  {
  }

  /** Mint and burn rows are labelled with the pair's token1 symbol first:
      "Add <pair token1> and <pair token0>", "Remove <pair token1> and <pair token0>". */
  lemma PairRowLabels(m: Mint, b: Burn, names: PairId -> TokenPair)
    ensures var p := names(m.pair);
      RowLabel(MintRow(m, names)) == "Add " + Shorten(p.token1) + " and " + Shorten(p.token0)
    ensures var p := names(b.pair);
      RowLabel(BurnRow(b, names)) == "Remove " + Shorten(p.token1) + " and " + Shorten(p.token0)
  {
  }
}

/** The label of a table row: `getTransactionType` and the call that feeds it a row. */
module Labels {
  import opened Rows

  /** A symbol as the label shows it: longer than 8 characters, it is cut to its
      first 7 characters followed by "..."; otherwise it is shown whole. */
  function Shorten(symbol: string): (r: string)
    ensures |r| <= 10
    ensures |symbol| <= 8 ==> r == symbol
    ensures |symbol| > 8 ==> |r| == 10 && r[..7] == symbol[..7] && r[7..] == "..."
  {
    if |symbol| > 8 then symbol[..7] + "..." else symbol
  }

  /** An unset symbol is passed through untouched by the optional chaining, and string
      concatenation then spells it "undefined". */
  function Shown(symbol: Option<string>): string
  {
    match symbol
    case None => "undefined"
    case Some(s) => Shorten(s)
  }

  /** `getTransactionType(event, symbol0, symbol1)`. */
  function TransactionType(event: TxnType, symbol0: Option<string>, symbol1: Option<string>): (r: string)
    ensures r == "" <==> event == All
    ensures event == Adds ==> r == "Add " + Shown(symbol0) + " and " + Shown(symbol1)
    ensures event == Removes ==> r == "Remove " + Shown(symbol0) + " and " + Shown(symbol1)
    ensures event == Swaps ==> r == "Swap " + Shown(symbol0) + " to " + Shown(symbol1)
  {
    var s0 := Shown(symbol0);
    var s1 := Shown(symbol1);
    match event
    case Adds => "Add " + s0 + " and " + s1
    case Removes => "Remove " + s0 + " and " + s1
    case Swaps => "Swap " + s0 + " to " + s1
    case All => ""
  }

  /** Shortening a shown symbol again changes nothing. */
  lemma ShortenIdempotent(symbol: string)
    ensures Shorten(Shorten(symbol)) == Shorten(symbol)
  {
  }

  /** A non-empty label names its event: no two event types share a label. */
  lemma LabelDeterminesEvent(e1: TxnType, a0: Option<string>, a1: Option<string>,
                             e2: TxnType, b0: Option<string>, b1: Option<string>)
    requires TransactionType(e1, a0, a1) == TransactionType(e2, b0, b1)
    requires e1 != All
    ensures e1 == e2
  {
    var r := TransactionType(e1, a0, a1);
    assert r[0] == (match e1 case Adds => 'A' case Removes => 'R' case _ => 'S');
    assert r[0] == (match e2 case Adds => 'A' case Removes => 'R' case _ => 'S');
  }

  /** The label the table shows for a row. The row's token1 symbol is passed as
      `symbol0` and its token0 symbol as `symbol1`, so a label names token1 first. */
  function RowLabel(row: Row): (r: string)
    ensures row.txType == Swaps ==>
      r == "Swap " + Shown(row.token1Symbol) + " to " + Shown(row.token0Symbol)
    ensures row.txType == Adds ==>
      r == "Add " + Shown(row.token1Symbol) + " and " + Shown(row.token0Symbol)
    ensures row.txType == Removes ==>
      r == "Remove " + Shown(row.token1Symbol) + " and " + Shown(row.token0Symbol)
  {
    TransactionType(row.txType, row.token1Symbol, row.token0Symbol)
  }
}

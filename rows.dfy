/** The data model of the transaction table: the raw mint, burn and swap records
    the component receives, and the uniform row it turns each of them into. */
module Rows {

  datatype Option<+T> = None | Some(value: T)

  /** The TXN_TYPE constants. `All` is only ever a filter value; rows carry one of
      the other three. */
  datatype TxnType = All | Swaps | Adds | Removes

  /** The SORT_FIELD constants: the row columns a header click can sort by. */
  datatype SortField = AmountUSD | Token0Amount | Token1Amount | Timestamp

  /** The number of rows on one page (ITEMS_PER_PAGE). */
  const ItemsPerPage: nat := 10

  /** A pair reference as the raw records carry it. */
  type PairId = string

  /** What the name resolver `updateNameData` yields for a pair: the symbols of its
      token0 and token1, in the pair's own order. */
  datatype TokenPair = TokenPair(token0: string, token1: string)

  datatype Transaction = Transaction(id: string, timestamp: int)

  datatype Mint = Mint(transaction: Transaction, pair: PairId, amount0: int, amount1: int,
                       to: string, amountUSD: int)

  datatype Burn = Burn(transaction: Transaction, pair: PairId, amount0: int, amount1: int,
                       sender: string, amountUSD: int)

  datatype Swap = Swap(transaction: Transaction, pair: PairId,
                       amount0In: int, amount0Out: int, amount1In: int, amount1Out: int,
                       to: string, amountUSD: int)

  /** The `transactions` prop: each of the three collections may be missing. */
  datatype Batch = Batch(mints: Option<seq<Mint>>, burns: Option<seq<Burn>>, swaps: Option<seq<Swap>>)

  /** A normalised row. Amounts and symbols are optional because a swap whose nets are
      both non-negative leaves them unset. */
  datatype Row = Row(hash: string, timestamp: int, txType: TxnType,
                     token0Amount: Option<int>, token1Amount: Option<int>,
                     token0Symbol: Option<string>, token1Symbol: Option<string>,
                     account: string, amountUSD: int)

  /** The net amount of token0 and of token1 a swap moves: what came in minus what went out. */
  function Net0(s: Swap): int { s.amount0In - s.amount0Out }
  function Net1(s: Swap): int { s.amount1In - s.amount1Out }

  function Abs(x: int): (r: nat)
    ensures r == x || r == -x
  {
    if x < 0 then -x else x
  }
}

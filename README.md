# MochiTransactionTable — a verified model of the transaction table's pipeline

`MochiTransactions` is the React component of the Mochi swap analytics dashboard
that lists a liquidity pool's recent transactions: deposits (`mints`),
withdrawals (`burns`) and `swaps`. Under its presentation it runs a small
pipeline, which this project models in Dafny and proves properties of:

- **Label formatter** (`Labels`): `getTransactionType` builds the label
  "Add A and B", "Remove A and B" or "Swap A to B" from an event type and two
  symbols, shortening any symbol longer than 8 characters to its first 7
  characters plus "...". The row label passes a row's token1 symbol first.
- **Normaliser** (`Normalizer`): every mint, burn and swap becomes one row
  tagged `Adds`, `Removes` or `Swaps`, all mints first, then all burns, then
  all swaps. A swap row is laid out by the signs of the nets
  (`amountIn - amountOut`) of its two tokens. The normaliser is written as the
  source writes it, with loops that push rows (`Normalize`), and is proved
  equal to a reference definition (`NormalizedRows`).
- **Filter, page count and page window** (`Pipeline`): the type filter, the
  page count as a ceiling division by 10 with a minimum of 1, and the clamped
  10-row slice for a page.
- **Sort** (`Sorting`): the stored filtered rows are sorted in place, on an
  array, by one numeric column in the chosen direction. The model uses an
  insertion sort. It is proved to leave the rows sorted and to be a
  permutation of them.
- **Component state** (`TransactionTable.MochiTransactions`): a class with the
  fields `page`, `maxPage`, `sortDirection`, `sortedColumn`, `filteredItems`
  and `txFilter`. It has one method per effect and per click. The object
  invariant `1 <= page <= maxPage` is kept by every click and by every change
  of data or filter.

Amounts, USD values and timestamps are integers. Rows keep amounts and symbols
as optional values, because a swap whose two nets are both non-negative leaves
them unset, as the source does. The pair-name resolver `updateNameData` is a
function parameter (`names`) that the model does not look inside.

Notes on the code as written:

- Mint and burn amounts are copied unchanged; only swap amounts are absolute
  values, so only swap rows are proved to have non-negative amounts.
- The sort is not stable: the comparator at
  src/components/Home/MochiTransactionTable.js:317-321 never returns 0, so the
  order of rows with equal keys depends on the JavaScript engine. The model
  promises only sortedness and permutation.
- Nothing in this file calls `setTxFilter`, so in this component the filter
  stays `All`. `SetTxFilter` models what a call would do: setting the filter
  it already has changes no state and runs no effect, as a React state setter
  does.
- When a new `transactions` value lacks one of its collections, `maxPage` and
  `page` go back to 1. The stored `filteredItems` keep their earlier rows.
  `SetTransactions` states both facts.

## Model

| member | source | states |
|---|---|---|
| `Rows.Abs` | src/components/Home/MochiTransactionTable.js:272-273 | `Math.abs`: the result is never negative and equals the input or its negation |
| `Labels.Shorten` | src/components/Home/MochiTransactionTable.js:197-198 | a symbol of at most 8 characters is unchanged; a longer one becomes its first 7 characters followed by "..."; the result never exceeds 10 characters |
| `Labels.TransactionType` | src/components/Home/MochiTransactionTable.js:196-209 | the label is empty exactly for an event outside Adds/Removes/Swaps; otherwise it is "Add A and B", "Remove A and B" or "Swap A to B", with each symbol as shown (shortened, or "undefined" when unset) |
| `Labels.ShortenIdempotent` | src/components/Home/MochiTransactionTable.js:197-198 | shortening a symbol that was already shortened changes nothing |
| `Labels.LabelDeterminesEvent` | src/components/Home/MochiTransactionTable.js:199-208 | two equal non-empty labels come from the same event type |
| `Labels.RowLabel` | src/components/Home/MochiTransactionTable.js:332 | a row's label names the row's token1 symbol first and its token0 symbol second |
| `Normalizer.MintRow` | src/components/Home/MochiTransactionTable.js:234-244 | a mint row is tagged Adds with account `to` and the mint's transaction id, timestamp and USD value; each of the pair's symbols sits beside its own token's amount, in pair order, with the amount copied as it is (sign included) |
| `Normalizer.BurnRow` | src/components/Home/MochiTransactionTable.js:249-259 | a burn row is tagged Removes with account `sender` and is otherwise laid out as a mint row: symbols in pair order, each beside its own token's amount copied as it is |
| `Normalizer.PairRowLabels` | src/components/Home/MochiTransactionTable.js:234-259 | mint rows are labelled "Add <pair token1> and <pair token0>" and burn rows "Remove <pair token1> and <pair token0>" |
| `Normalizer.SwapRow` | src/components/Home/MochiTransactionTable.js:263-288 | a swap row is tagged Swaps, with account `to`; amounts and symbols are set together and exactly when a net is negative; a negative token0 net keeps pair order, else a negative token1 net swaps both symbols and amounts; set amounts are magnitudes, token0's strictly positive |
| `Normalizer.SwapRowKeepsTokensPaired` | src/components/Home/MochiTransactionTable.js:269-279 | in a swap row each amount stays next to its own token's symbol, and the token put first has a negative net |
| `Normalizer.SwapRowExample` | src/components/Home/MochiTransactionTable.js:264-279 | a swap with 5 of token0 in and 3 of token1 out leads with token1 and amount 3, then token0 and amount 5 |
| `Normalizer.SwapRowLabel` | src/components/Home/MochiTransactionTable.js:332 | a swap whose token0 net is negative is labelled "Swap <pair token1> to <pair token0>", otherwise one whose token1 net is negative "Swap <pair token0> to <pair token1>", otherwise "Swap undefined to undefined" |
| `Normalizer.RowsOf` | src/components/Home/MochiTransactionTable.js:233-245 | one row per record, the i-th row built from the i-th record |
| `Normalizer.NormalizedRows` | src/components/Home/MochiTransactionTable.js:231-289 | one row per mint, burn and swap, built from that record: all mint rows in order, then all burn rows, then all swap rows |
| `Normalizer.NormalizedRowTags` | src/components/Home/MochiTransactionTable.js:231-289 | mint rows are tagged Adds with account `to`, burn rows Removes with account `sender`, swap rows Swaps with account `to`, each with its record's transaction id; no row is tagged All |
| `Normalizer.PushRows` | src/components/Home/MochiTransactionTable.js:233-245 | one `map` that pushes a row per record appends exactly those rows, in the records' order |
| `Normalizer.Normalize` | src/components/Home/MochiTransactionTable.js:231-289 | the push loops over mints, burns and swaps build exactly the reference normalised list |
| `Pipeline.Keep` | src/components/Home/MochiTransactionTable.js:291-296 | under All every row passes; under a type, a row passes exactly when it has that type |
| `Pipeline.Filter` | src/components/Home/MochiTransactionTable.js:291-296 | a row is in the result iff it is in the input and passes the filter; the result is no longer than the input |
| `Pipeline.FilterAll` | src/components/Home/MochiTransactionTable.js:291-296 | filter All keeps every row, in order |
| `Pipeline.FilterAppend` | src/components/Home/MochiTransactionTable.js:291-296 | filtering keeps relative order: filtering a concatenation concatenates the filtered parts |
| `Pipeline.FilterCount` | src/components/Home/MochiTransactionTable.js:291-296 | each row occurs in the result as often as in the input when it passes, and never otherwise |
| `Pipeline.FilterUniform` | src/components/Home/MochiTransactionTable.js:292-293 | rows all of one type pass whole under that type's filter and not at all under another type's |
| `Pipeline.FilterByTag` | src/components/Home/MochiTransactionTable.js:291-296 | filtering a list of Adds rows, then Removes rows, then Swaps rows by one of the three types gives exactly that type's part, in order |
| `Pipeline.NormalizedByType` | src/components/Home/MochiTransactionTable.js:231-296 | filtering the normalised list by Adds, Removes or Swaps gives exactly the rows of the mints, the burns or the swaps, in order |
| `Pipeline.MaxPage` | src/components/Home/MochiTransactionTable.js:298-306 | the page count is at least 1, is 1 for no rows, and for n > 0 rows is the ceiling of n/10: (count-1)*10 < n <= count*10 |
| `Pipeline.MaxPageExamples` | src/components/Home/MochiTransactionTable.js:298-306 | 0, 10, 11, 20 and 21 rows give 1, 1, 2, 2 and 3 pages |
| `Pipeline.Window` | src/components/Home/MochiTransactionTable.js:322 | a page window holds at most 10 rows, exactly as many as remain from index (page-1)*10 up to 10, and its i-th row is row (page-1)*10+i |
| `Pipeline.PagesArePrefix` | src/components/Home/MochiTransactionTable.js:322 | windows 1 to k laid end to end are the first 10*k rows (or all of them) |
| `Pipeline.PageOccupancy` | src/components/Home/MochiTransactionTable.js:298-322 | every page from 1 to the page count of a non-empty list shows at least one row, and every page before the last shows a full 10 |
| `Pipeline.PagesCoverAll` | src/components/Home/MochiTransactionTable.js:298-322 | windows 1 to the page count laid end to end give back the whole list |
| `Sorting.Key` | src/components/Home/MochiTransactionTable.js:318 | the USD value and timestamp columns always give a key; a row lacks a key only in an amount column whose amount is unset |
| `Sorting.UnsetKeys` | src/components/Home/MochiTransactionTable.js:234-286 | mint and burn rows have a key in every column; a swap row lacks one exactly in the two amount columns, and exactly when neither net is negative |
| `Sorting.InOrderIsTotalPreorder` | src/components/Home/MochiTransactionTable.js:317-321 | the key order the model sorts by is total and transitive in both directions, and rows ordered both ways have equal keys |
| `Sorting.SortRows` | src/components/Home/MochiTransactionTable.js:316-321 | after the in-place sort the array is sorted by the column (larger keys first when the direction is true, smaller first when false) and holds the same rows |
| `Sorting.SortedIsUnique` | src/components/Home/MochiTransactionTable.js:317-321 | with distinct keys, any two sorted arrangements of the same rows are identical |
| `Sorting.FlipReverses` | src/components/Home/MochiTransactionTable.js:317-321 | with distinct keys, sorting the same rows in the other direction gives exactly the reversed order |
| `TransactionTable.ParsedItems` | src/components/Home/MochiTransactionTable.js:229-308 | data is parsed exactly when the prop and all three collections are present; every stored row passes the filter; at most as many rows are stored as there are records, and under All exactly that many |
| `TransactionTable.ParsedRows` | src/components/Home/MochiTransactionTable.js:229-296 | with complete data, under All the stored rows are exactly the normalised rows in order; under Adds, Removes or Swaps exactly the rows of the mints, the burns or the swaps, in order |
| `TransactionTable.MochiTransactions.constructor` | src/components/Home/MochiTransactionTable.js:212-226 | mounting starts at page 1, sorted by timestamp with direction true, filter All, and the page invariant holding |
| `TransactionTable.MochiTransactions.ResetPaging` | src/components/Home/MochiTransactionTable.js:223-226 | page and maxPage become 1 and nothing else changes |
| `TransactionTable.MochiTransactions.ParseTransactions` | src/components/Home/MochiTransactionTable.js:229-308 | with complete data, filteredItems holds the filtered normalised rows and maxPage their page count; otherwise both keep their values; page, sort and filter do not change |
| `TransactionTable.MochiTransactions.ResetPageOnFilter` | src/components/Home/MochiTransactionTable.js:310-312 | page becomes 1 and nothing else changes |
| `TransactionTable.MochiTransactions.SetTransactions` | src/components/Home/MochiTransactionTable.js:223-308 | a new transactions value resets page to 1 and maxPage to 1 unless complete data gives the new page count; the page invariant holds afterwards |
| `TransactionTable.MochiTransactions.SetTxFilter` | src/components/Home/MochiTransactionTable.js:291-312 | setting the current filter again changes no page, page count or stored rows; a different filter re-filters the data and resets page to 1; the page invariant holds afterwards |
| `TransactionTable.MochiTransactions.ClickHeader` | src/components/Home/MochiTransactionTable.js:375-378 | clicking a sortable header selects that column; the direction becomes true if the column was not active and flips if it was; nothing else changes (the same handler at lines 388-390, 404-406 and 425-427) |
| `TransactionTable.MochiTransactions.PreviousPage` | src/components/Home/MochiTransactionTable.js:453-458 | no-op on page 1, otherwise one page back; the page stays within 1..maxPage and nothing else changes |
| `TransactionTable.MochiTransactions.NextPage` | src/components/Home/MochiTransactionTable.js:461-466 | no-op on the last page, otherwise one page on; the page stays within 1..maxPage and nothing else changes |
| `TransactionTable.MochiTransactions.VisibleRows` | src/components/Home/MochiTransactionTable.js:314-322 | nothing before the first parse; otherwise the stored rows end up sorted by the chosen column and direction, as a permutation, and the current page's window of them is returned |

## Left out

- Styled components, CSS grid breakpoints and the `useMedia` column hiding: presentation only.
- JSX rendering, the spinner and empty-state branches, the explorer and transaction hyperlinks, and the repeated `token1Symbol` in both amount cells: presentation only. Only the label call at line 332 is modelled.
- `formattedNum`, `formatTime`, `dayjs` and `urls`: formatting helpers outside this file. `updateNameData` is a function parameter whose internals are not modelled, and it always yields two symbol strings.
- `parseFloat`, floating point and NaN: amounts, USD values and timestamps are integers, and swap nets are exact integer differences. An unset amount, which JavaScript compares as NaN, is taken to sort below every number.
- Sorting.SortRows: does not fix the order of rows with equal keys, because the source's comparator never returns 0 and that order is engine-defined. The model sorts with an insertion sort of its own.
- React effect scheduling and the batching of `useState` updates: each effect and each click is one atomic step, and a prop or filter change runs its effects in declaration order.
- The arrow glyph each header shows for the sort direction: cosmetic.
- The `symbol0Override` and `symbol1Override` props: the component never reads them.
- Symbol lengths count Dafny characters, not JavaScript's UTF-16 code units.

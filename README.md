# BlockExplorer core, modelled in Dafny

BlockExplorer is a command-line tool, `blockexplr describe <start> [end]`.
It reports on the ether moved over a range of blocks. It resolves the range
of block numbers and fetches those blocks. Then it walks every transaction
and adds its value to a grand total, to a per-sender ledger and to a
per-recipient ledger, and it finds out which of the addresses involved are
contracts. It prints either the object that `getJson` builds (the JSON mode) or two tables.

This project models that pipeline once the node is abstracted away. The
chain head, the block lookup and the code lookup become the parameters
`head`, `getBlock` and `getCode`. The modules follow the program:

- `Chain`: addresses, transactions and blocks. `null`/`undefined` addresses are `None`, and JavaScript
  truthiness is `Truthy` (`None` and `""` are falsy). `"0x"` is the empty-code sentinel.
- `BlockRange`: `getBlockRange`, including lodash's `_.range`. It counts down when `from >= to`.
  `!end` makes an end of 0 mean "no end".
- `Blocks`: `getBlocks` keeps the non-null replies. It is a loop method specified by `Existing`.
- `Ledgers`: the JavaScript `Map` is the class `AddressLedger`: keys in insertion order plus the
  entries. `addToMap` is the method `AddToMap`, specified by `Added`, a function on
  `LedgerView`.
- `Contracts`: the JavaScript `Set` is the class `AddressSet`. `collectContractAddresses` is a loop
  method specified by `Classify`. Only addresses with code are remembered, so an address without
  code is looked up again every time it appears.
- `Aggregation`: the nested loop of `printReport` (`CompileTransactions`, `CompileBlock`, `Record`).
  It is proved against the reference definitions: `Sum` of selected values, `LedgerOf`, `Parties`
  and `Aggregate`. This module also holds the conservation and order-independence lemmas.
- `Json`: `getJson`. Recipient entries carry their address under the key `sender`, as in the source.
  `ReadBack` rebuilds a `Map` from the entries, which gives a round trip.
- `Reporting`: `printReport` (JSON form) and `createReport`. `createReport` has three outcomes:
  no blocks, a report, or failure on an empty range.
- `Cli`: the `.check` validation and the `describe` command built on it.
- `Scenarios`: worked examples: two transfers inside one block, blocks without transactions, and
  repeated code lookups.

Three behaviours of the code are worth spelling out:

- The code looks up an address again each time it appears, unless it is already a known
  contract (bin/utils.js:90-94). Only addresses with code are remembered
  (`Scenarios.RepeatedLookups`).
- An empty range does not print the no-blocks message. `Promise.all([])` gives `[]`, so
  `blocks[0].length` throws a `TypeError`, which the `catch` of `createReport` logs
  (bin/utils.js:10-17). The model's outcome for this case is `Failed`. The command line never
  produces an empty range: `Cli.Describe` never ends in `Failed`.
- An explicit end of 0 is treated as "no end" by `!end` (bin/utils.js:23), and the model keeps
  this (`BlockRange.ZeroEndMeansNoEnd`).

## Model

| member | source | states |
|---|---|---|
| BlockRange.GetBlockRange | bin/utils.js:21-31 | With a truthy end at least the start, the range is exactly `start..end` in order, `end - start + 1` numbers. With no end (or end 0) and a start of 0 or more, it is consecutive, has `min(start, head) + 1` numbers, ends at the head, and starts at 0 when start is past the head, otherwise at `head - start`. |
| BlockRange.ZeroEndMeansNoEnd | bin/utils.js:23-27 | An end of 0 resolves exactly like an absent end, so the range ends at the head and not at block 0. |
| BlockRange.GivenEndIgnoresHead | bin/utils.js:28-30 | With a truthy end, the chain head has no influence on the range. |
| BlockRange.InvertedEndCountsDown | bin/utils.js:29 | With a truthy end below the start, lodash counts down: `start, start-1, …, end+2`, which is `start - end - 1` numbers. |
| BlockRange.EmptyRange | bin/utils.js:21-31 | The range is empty if and only if end = start - 1 (truthy end), or start = -1 (no end). |
| Blocks.ExistingMeaning | bin/utils.js:38-53 | The kept blocks are at most as many as the requests. Each kept block is the reply for a requested number, each non-null reply is kept, and the list is empty if and only if every reply is null. |
| Blocks.GetBlocks | bin/utils.js:33-56 | The loop keeps, in request order, exactly the non-null replies (`Existing`). It also returns the length of the `Promise.all` result, which is one entry per requested number. |
| Blocks.BeyondHeadIsEmpty | bin/utils.js:41-48 | If no block exists past the head, a range that lies wholly past the head yields no blocks. |
| Ledgers.AddedChangesOneKey | bin/utils.js:133-140 | A falsy address leaves the ledger unchanged. Otherwise only that address's entry changes: it becomes the old amount plus the value, or the value if the address was new. A new key goes to the end of the key order, and every other key keeps its entry. |
| Ledgers.AddedWellFormed | bin/utils.js:133-140 | `addToMap` keeps the key order duplicate-free and in step with the entries. |
| Ledgers.AddedBalance | bin/utils.js:133-140 | `addToMap` moves the sum of all entries by exactly the value for a truthy address, and by nothing otherwise. |
| Ledgers.AddressLedger.constructor | bin/utils.js:59-60 | `new Map()` has no keys and no entries. |
| Ledgers.AddToMap | bin/utils.js:133-140 | The ledger object after the call is `Added` applied to its previous view. |
| Contracts.ClassifyKnown | bin/utils.js:87-97 | After a pass, the set is the old set plus exactly the truthy addresses of the list whose code is not `"0x"`. |
| Contracts.ClassifyQueries | bin/utils.js:88-91 | Every lookup is for a truthy address of the list that was not yet in the set. Every such address is looked up. There are no more lookups than addresses. |
| Contracts.ClassifyNoRepeat | bin/utils.js:90-94 | No address with code is looked up twice in one pass. |
| Contracts.ClassifyMeaning | bin/utils.js:87-97 | Everything above together: the set never shrinks; each addition is truthy, has code and occurs in the list; every address of the list with code ends in the set; plus the properties of the lookups. |
| Contracts.ClassifyConcat | bin/utils.js:65-76 | Classifying `a + b` is classifying `a`, then `b` from the set `a` left behind, with the lookups in that order. So the per-transaction calls on the shared set amount to one pass over all parties. |
| Contracts.AddressSet.constructor | bin/utils.js:61 | `new Set()` is empty. |
| Contracts.CollectContractAddresses | bin/utils.js:87-97 | The set object after the loop and the lookups it made are exactly `Classify` of the addresses from the previous set. The set only grows. |
| Aggregation.LedgerKeys | bin/utils.js:65-76 | A ledger has an entry for an address if and only if the address is truthy and is the sender (or the recipient) of some transaction. |
| Aggregation.LedgerAmounts | bin/utils.js:65-76 | Each address's entry is the sum of the values of the transactions it sent (or received). |
| Aggregation.LedgerBalance | bin/utils.js:65-76 | Conservation: each ledger is well formed, and its entries add up to the value of all transactions with a truthy address on its side. |
| Aggregation.SumSplit | bin/utils.js:65-76 | The total is the value with a truthy address on one side plus the value without one. |
| Aggregation.AggregateConservation | bin/utils.js:58-76 | For the whole fold: both ledgers are well formed. Each ledger's sum is the value of the transactions with a present address on its side. The total is that sum plus the value of the transactions without one. The contract set is what one pass over all `[sender, recipient]` pairs ends with. |
| Aggregation.AppendTransaction | bin/utils.js:67-74 | One more transaction adds its value to the total and applies `addToMap` once to each ledger. It appends its sender and recipient to the classified addresses. |
| Aggregation.SumPermutation | bin/utils.js:65-71 | A sum of values does not depend on the order of the transactions. |
| Aggregation.LedgerPermutation | bin/utils.js:65-73 | Reordering the transactions leaves every ledger entry as it was. Only the key order can change. |
| Aggregation.AggregatePermutation | bin/utils.js:65-76 | The total, every ledger entry and the contract set depend only on the multiset of transactions. |
| Aggregation.ReorderWithinBlock | bin/utils.js:66-75 | Permuting the transactions inside one block changes neither the total, nor any ledger entry, nor the contract set. |
| Aggregation.Record | bin/utils.js:67-74 | One transaction updates both ledger objects to their next `LedgerOf` value, and its two addresses are classified against the shared set. |
| Aggregation.CompileBlock | bin/utils.js:66-75 | After the inner loop, the total, both ledgers, the set and the lookup log describe the transactions seen so far followed by this block's transactions. |
| Aggregation.CompileTransactions | bin/utils.js:58-76 | The nested loop, with fresh `Map`s and `Set`, yields exactly `Aggregate` of the blocks, and the lookups of one pass over all parties. |
| Json.Entries | bin/utils.js:102-117 | One entry per key, in key order: the key, its amount, and whether it is in the contract set. |
| Json.GetJson | bin/utils.js:99-119 | The total is passed through. Each list has one entry per ledger key, in key order, with that key's amount and its contract-set membership. |
| Json.ReadBackNew | bin/utils.js:102-117 | Reading back an entry whose address is new appends that address to the key order and records its amount. |
| Json.ReadBackEntries | bin/utils.js:102-117 | Reading back the entries of distinct keys gives those keys, in order, with their amounts, and no other key. |
| Json.LedgerRoundTrip | bin/utils.js:102-117 | Reading back the entries of a ledger rebuilds that ledger: the same keys in the same order and the same amounts. |
| Json.ReportRoundTrip | bin/utils.js:99-119 | Both lists of the report read back to the two ledgers. The total is passed through, and every flag is contract-set membership. |
| Reporting.LedgerKeysAreParties | bin/utils.js:72-74 | Every address with a ledger entry is truthy and is among the addresses handed to `collectContractAddresses`. |
| Reporting.FlagMeansCode | bin/utils.js:102-117 | In the report, an entry's `isContract` holds if and only if `getCode` of its address is not `"0x"`. |
| Reporting.PrintReport | bin/utils.js:58-85 | The report is `GetJson` of the fold's results, and the lookups are those of one pass. The total is the sum of all values, and the two lists read back to the reference ledgers. |
| Reporting.CreateReport | bin/utils.js:5-19 | An empty range fails (the logged `TypeError`). A range where no block exists gives the no-blocks message. Otherwise the outcome is the report of the existing blocks. The no-blocks outcome happens if and only if the range is non-empty and every reply is null. |
| Cli.Check | bin/index.js:35-43 | Rejected with "Only positive values may be passed" if and only if start or a given end is negative. Rejected with "End block must come after start block" if and only if both are non-negative and a given end is below start. Accepted in every other case, and with no end exactly when start is non-negative. |
| Cli.AcceptedRange | bin/index.js:35-43 | Arguments that pass the check resolve to a non-empty run of consecutive, non-negative block numbers. With a truthy end, it runs from start to end; otherwise it ends at the head. |
| Cli.Describe | bin/index.js:8-45 | A rejected check yields its message as a usage error. An accepted one runs `createReport`. Its outcome is the no-blocks message when no block of the range exists, and otherwise the report of the existing blocks. It never fails, and the no-blocks outcome happens exactly when every block of the range is missing. |
| Scenarios.TwoTransfersLedgers | bin/utils.js:65-73 | For A→B 5 then B→C 3: the total is 8, the senders are {A: 5, B: 3} and the recipients are {B: 5, C: 3}, in that key order. |
| Scenarios.TwoTransfersContracts | bin/utils.js:87-97 | With code only at B, the parties are A, B, B, C and the contract set is {B}. |
| Scenarios.TwoTransfersSummary | bin/utils.js:58-76 | The fold over the block holding both transfers gives total 8, the two ledgers above, and contracts {B}. |
| Scenarios.TwoTransfers | bin/utils.js:21-119 | On a chain whose head is 120, the range 100..100 is [100], and its report has total 8. Its senders are A 5 (not a contract) and B 3 (contract); its recipients are B 5 (contract) and C 3 (not a contract). |
| Scenarios.NoTransactions | bin/utils.js:58-119 | Blocks without transactions give total 0 and two empty lists. |
| Scenarios.RepeatedLookups | bin/utils.js:87-97 | An address without code is looked up at each occurrence, a contract only once, and falsy addresses never. |

## Left out

- The web3 HTTP provider, `BatchRequest` and the Promise/callback bridging of `getBlocks` are left out. They are network I/O and concurrency. The replies reach `blocks.push` in completion order; the model keeps them in request order.
- Transport errors are left out: the `err`/`reject` branch of `getBlocks` and the errors logged by `createReport`'s `catch`. The one `TypeError` of an empty range is modelled (`Failed`).
- A failing `getCode` inside the fold is left out. `createReport` calls `printReport` without `await` (bin/utils.js:14), so such a failure never reaches the `catch` (bin/utils.js:16-18) and becomes an unhandled promise rejection.
- The printed text of the JSON mode is left out. `console.log` formats the `getJson` object with Node's `util.inspect` (bin/utils.js:79). That is not JSON: keys are unquoted and strings single-quoted. It also elides array elements past the first 100 ("... N more items"), so a list with more than 100 entries is printed truncated. `Json.ReportRoundTrip` is about the object `getJson` returns, not the printed text.
- `getBlockNumber`, `getBlock` and `getCode` are the parameters `head`, `getBlock` and `getCode`. The model does not reason about the node's behaviour.
- Values are already-parsed mathematical integers. `parseInt` of the value string and JavaScript floating-point addition (rounding above 2^53) are not modelled.
- The table output is left out: `console.log` of the total, `printTable` with `cli-table`, and the progress messages. These are formatting over a foreign library. `printTable` walks each `Map` in insertion order, which gives the same rows as `getJson`'s lists. `PrintReport` returns the JSON report for both output modes.
- yargs parsing is left out, including `NaN` from `type: "number"`. `Cli.Check` takes integers and an optional end.
- lodash/range.js is not part of this model. `LodashRange` follows lodash's documented behaviour of `_.range(start, end)` for integer arguments.
- Address comparison is plain string equality, as in the JavaScript `Map` and `Set`. There is no checksum or case normalisation.

# btcw address tools — a Dafny model of the policy cores

This project models the decision logic of five small Go command-line tools. The tools drive a Bitcoin-style node over JSON-RPC:

- **bumpfee** (`bumpfee.dfy`, module `BumpFee`) is a long-running monitor.
  - It tracks every unconfirmed transaction of every wallet and estimates its fee rate once, when it first sees it.
  - It asks the node to `bumpfee` a transaction once that transaction has waited the configured number of blocks.
  - The new rate is the tracked rate plus a bump amount, capped, and only a raise of at least 1 sat/vB is asked for.
  - In a dry run the entry is forgotten without calling the node.
  - The table of tracked transactions is the class `Monitor`. One output, one wallet and one poll cycle are each a method, proved equal to a specification function: `OutputStep`, `WalletPass` and `CyclePass`. The properties of the policy are the contracts of those functions and the lemmas beside them.
- **networkchart** (`networkchart.dfy`, module `NetworkChart`) samples the chain every `NBlocks` heights.
  - The model covers its configuration defaults and Go's `strconv.ParseUint(s, 16, 32)`.
  - It covers the compact-target decoding `parseBits` and the difficulty numerator.
  - It covers the loop over the heights 0, N, 2N, … and which rows it produces.
- **sendmany** (`sendmany.dfy`, module `SendMany`) builds one payout map from an address file. It then walks the wallets again and again and pays out from every wallet whose unconfirmed transactions are small enough, until a fixed number of payouts has been made. The loop state is the class `Sender`.
- **address** (`addresses.dfy`, module `Addresses`) joins the first 3000 addresses of a JSON file into a console `tx` command.
- **walletedit** (`walletedit.dfy`, module `WalletEdit`) copies the lines that contain `label` from one file to another.

`wrappers.dfy` holds the shared `Option` and `Result` types.

Every answer from the node is an input to the model, carried by the unit of work that asks for it:

- each unspent output carries its `gettransaction` and `bumpfee` answers;
- each wallet carries its `listunspent` answer;
- each sampled height carries what the node says about it.

Failures that the Go code handles differently (skip the output, skip the wallet, retry next cycle, stop fatally) have constructors of their own, so that the skip-and-retry paths and the fatal paths are modelled, not assumed away. Failures it handles alike may share one constructor: for example, bumpfee's `LookupFailed` covers the four ways a `gettransaction` lookup can fail, and `BumpFailed` the three ways a `bumpfee` call can fail. The file system of walletedit is a function saying which write fails.

## Model

| member | source | states |
|---|---|---|
| BumpFee.EstimateFeerate | address/cmd/bumpfee/main.go:236-237 | the estimate is non-negative, and times the size in bytes (half the hex length) it gives the absolute fee in satoshis |
| BumpFee.CandidateRate | address/cmd/bumpfee/main.go:261-264 | the candidate is the minimum of the tracked rate plus the bump amount and the cap: it is at most each and equal to one of them |
| BumpFee.WorthBumping | address/cmd/bumpfee/main.go:266-267 | a bump is worth sending iff the bump amount is at least 1 and the cap is at least 1 above the tracked rate |
| BumpFee.Aged | address/cmd/bumpfee/main.go:260 | definition; its properties are in AgedStaysAged, Escalate and BelowIncrementRepeats |
| BumpFee.Round | address/cmd/bumpfee/main.go:265 | math.Round: the nearest integer, with halves rounded away from zero, for both signs |
| BumpFee.Considered | address/cmd/bumpfee/main.go:213-244 | a tracked txid keeps its entry unchanged; an untracked one with a failed lookup gets none; otherwise a new entry records this wallet, the current height and the estimate |
| BumpFee.Escalate | address/cmd/bumpfee/main.go:260-296 | bumpfee is called iff the entry is aged, worth bumping and apply mode is on, with the rounded candidate rate; the entry is removed iff aged and worth bumping and either the run is dry or bumpfee returned a txid |
| BumpFee.OutputStep | address/cmd/bumpfee/main.go:200-299 | one output: malformed elements change nothing; other entries are untouched; existing entries are never modified; a failed lookup leaves the txid untracked; the call and the removal happen exactly under the conditions of the escalation test, for new and old entries alike |
| BumpFee.WalletPass | address/cmd/bumpfee/main.go:200-300 | one wallet's scan makes at most one bumpfee call per output |
| BumpFee.WalletPassFrame | address/cmd/bumpfee/main.go:200-300 | after one wallet's scan, a txid the scan does not list keeps its entry (a confirmed transaction is never removed); every entry is old and unchanged or new for this wallet at this height; every call is for this wallet and a listed txid |
| BumpFee.CyclePass | address/cmd/bumpfee/main.go:180-301 | definition of one cycle as a fold over the wallets; its properties are in CyclePassFrame, CyclePreservesValid, DryRunCycleSendsNothing and FailedScanSkipsOnlyThatWallet, and Monitor.ProcessWallets and Monitor.RunCycle are proved equal to it |
| BumpFee.CyclePassFrame | address/cmd/bumpfee/main.go:180-301 | after all wallets, in listing order and skipping non-names and failed scans: unlisted txids keep their entries, new entries belong to a listed wallet at this height with a non-negative rate, and calls go only to listed wallets and txids |
| BumpFee.CyclePreservesValid | address/cmd/bumpfee/main.go:239-244 | a cycle keeps every entry attached to a listed wallet with a non-negative rate |
| BumpFee.DryRunWalletSendsNothing | address/cmd/bumpfee/main.go:288-292 | in a dry run no output of a wallet leads to a bumpfee call |
| BumpFee.DryRunCycleSendsNothing | address/cmd/bumpfee/main.go:269-292 | in a dry run a whole cycle makes no bumpfee call |
| BumpFee.BelowIncrementRepeats | address/cmd/bumpfee/main.go:294-296 | an aged entry whose capped rate is less than 1 above its rate is kept unchanged with no call, every cycle |
| BumpFee.AgedStaysAged | address/cmd/bumpfee/main.go:260 | once an entry passes the age test it passes it at every later height |
| BumpFee.ScenarioBelowIncrement | address/cmd/bumpfee/main.go:260-267 | interval 5, bump 2.0, cap 10.0, rate 9.5 tracked at 100: at height 105 nothing is sent and the table is unchanged |
| BumpFee.ScenarioBumped | address/cmd/bumpfee/main.go:260-287 | the same settings with rate 5.0: at height 106 one call asks for rate 7; a new txid removes the entry, a failure keeps it |
| BumpFee.ScenarioDryRun | address/cmd/bumpfee/main.go:288-292 | the same entry in a dry run: no call and the entry is removed |
| BumpFee.FailedScanSkipsOnlyThatWallet | address/cmd/bumpfee/main.go:189-193 | with wallets w1 and w2, a failed scan of w1 leaves the cycle equal to the pass over w2 alone |
| BumpFee.Monitor.constructor | address/cmd/bumpfee/main.go:140-151 | an empty table, height -1, and the listed wallets, or none when listwallets fails |
| BumpFee.Monitor.ProcessOutput | address/cmd/bumpfee/main.go:200-299 | the loop body updates the table and returns the outcome and call of OutputStep |
| BumpFee.Monitor.ProcessWallet | address/cmd/bumpfee/main.go:200-300 | the loop over a scan leaves the table and the calls of WalletPass |
| BumpFee.Monitor.ProcessWallets | address/cmd/bumpfee/main.go:180-301 | the loop over the wallets leaves the table and the calls of CyclePass, and does not touch the height |
| BumpFee.Monitor.RunCycle | address/cmd/bumpfee/main.go:158-302 | a failed or non-numeric block count changes nothing; otherwise the table and calls are those of CyclePass, the height becomes the last seen one, and the entries stay valid |
| NetworkChart.WithDefaults | address/cmd/networkchart/networkchart.go:42-55 | an empty URL, user or password gets its fixed default, NBlocks 0 becomes 120, set fields are kept |
| NetworkChart.WithDefaultsFixedPoint | address/cmd/networkchart/networkchart.go:42-55 | applying the defaults twice is applying them once; a configuration is unchanged iff every field is set |
| NetworkChart.ReadConfig | address/cmd/networkchart/networkchart.go:32-56 | read and decode errors are returned; otherwise the configuration with defaults |
| NetworkChart.ParseHexFrom | address/cmd/networkchart/networkchart.go:94 | the digit loop of ParseUint never yields more than 0xFFFFFFFF |
| NetworkChart.ParseUint32Hex | address/cmd/networkchart/networkchart.go:94 | the value parseBits uses, with the error dropped, is never above 0xFFFFFFFF; its value on digits and on bad input is in ParseUint32HexDigits and ParseUint32HexRejects |
| NetworkChart.ParseUint32HexDigits | address/cmd/networkchart/networkchart.go:94 | a non-empty string of hex digits reads as its value, saturated at 0xFFFFFFFF |
| NetworkChart.ParseUint32HexRejects | address/cmd/networkchart/networkchart.go:94 | a string of at most 8 characters with a non-hex character reads as 0, since the error is dropped |
| NetworkChart.Coefficient | address/cmd/networkchart/networkchart.go:95 | the low 24 bits |
| NetworkChart.Exponent | address/cmd/networkchart/networkchart.go:96 | the high 8 bits; exponent and coefficient recompose the value |
| NetworkChart.ParseBits | address/cmd/networkchart/networkchart.go:93-100 | for exponent ≥ 3 the target is coefficient · 256^(exponent−3) and never negative; below 3 only a zero coefficient gives a target, and any other value panics on the wrapped shift |
| NetworkChart.MaxTarget | address/cmd/networkchart/networkchart.go:103-104 | definition; GenesisBitsIsMaxTarget proves it equals the decoded genesis target |
| NetworkChart.GenesisBitsIsMaxTarget | address/cmd/networkchart/networkchart.go:102-104 | parseBits("1d00ffff") is exactly the difficulty numerator 0xFFFF · 2^(8·(0x1D−3)) |
| NetworkChart.Schedule | address/cmd/networkchart/networkchart.go:140 | the heights are i·N for i from 0 to totalBlocks / N, none for a negative total |
| NetworkChart.ScheduleIsMultiples | address/cmd/networkchart/networkchart.go:140 | a height is sampled iff it is a multiple of N between 0 and the block count, and in increasing order |
| NetworkChart.Collect | address/cmd/networkchart/networkchart.go:143-183 | definition of the rows the loop body produces per height; its properties are in CollectRows, and SampleHeights is proved equal to it |
| NetworkChart.CollectRows | address/cmd/networkchart/networkchart.go:140-183 | every row is for a scheduled height whose fetches all succeeded; without a panic every such height has a row, so a failure skips only its height |
| NetworkChart.SampleHeights | address/cmd/networkchart/networkchart.go:140-183 | the loop produces exactly Collect over the schedule |
| SendMany.BuildAmounts | address/cmd/sendmany/main.go:187-193 | the keys are exactly the addresses among the first AddressLimit entries, each mapped to the configured amount |
| SendMany.EntrySize | address/cmd/sendmany/main.go:221-243 | an output adds to the size only when its txid and its transaction's hex were both obtained |
| SendMany.TotalSize | address/cmd/sendmany/main.go:220-244 | definition; TotalSizeAppend proves it adds up over concatenation, TotalSizeIgnoresFailures that incomplete outputs add nothing, and UnconfirmedSize is proved equal to it |
| SendMany.TotalSizeAppend | address/cmd/sendmany/main.go:220-244 | the size of a concatenation of replies is the sum of their sizes, so it can be accumulated output by output |
| SendMany.TotalSizeIgnoresFailures | address/cmd/sendmany/main.go:221-243 | an output whose txid or hex is missing can be removed without changing the total |
| SendMany.UnconfirmedSize | address/cmd/sendmany/main.go:220-244 | the loop's total is the sum of len(hex)/2 over the complete outputs |
| SendMany.Gated | address/cmd/sendmany/main.go:247 | definition of the strict size gate; its effect is stated in WalletStep |
| SendMany.Counted | address/cmd/sendmany/main.go:266-275 | definition of a counted payout and the exit test; its effect is stated in WalletStep |
| SendMany.WalletStep | address/cmd/sendmany/main.go:199-292 | the count rises by exactly one iff the wallet is a name, passes the strict size gate and is paid or the run is dry; the process exits iff the new count reaches the maximum; a listunspent RPC error or a malformed sendmany reply is fatal |
| SendMany.Pass | address/cmd/sendmany/main.go:199-293 | a pass adds at most one per paid wallet, and exactly that many if it finishes; the count never exceeds the maximum and equals it on exit |
| SendMany.Passes | address/cmd/sendmany/main.go:195-296 | with the count at or above the maximum nothing runs; otherwise the count never exceeds the maximum, and the process exits iff it reaches it |
| SendMany.Sender.constructor | address/cmd/sendmany/main.go:167-178 | a failed or malformed listwallets reply is fatal; otherwise the count starts at 0 |
| SendMany.Sender.ProcessWallet | address/cmd/sendmany/main.go:199-292 | the loop body leaves the state of WalletStep |
| SendMany.Sender.RunPass | address/cmd/sendmany/main.go:199-293 | the wallet loop leaves the state of Pass |
| SendMany.Sender.Run | address/cmd/sendmany/main.go:195-296 | the outer loop leaves the state of Passes |
| Addresses.JoinAddresses | address/cmd/address/main.go:32-41 | the builder loop with its early break yields Joined |
| Addresses.Render | address/cmd/address/main.go:37 | definition of `%s` on the field; a missing field prints as `%!s(<nil>)` |
| Addresses.Joined | address/cmd/address/main.go:32-41 | definition; JoinAddresses is proved equal to it, and its properties are in JoinedUsesFirstEntries, JoinedTrailingSpace, JoinedSeparators and JoinedSplitsBack |
| Addresses.JoinedUsesFirstEntries | address/cmd/address/main.go:33-36 | entries after the 3000th do not change the result |
| Addresses.JoinedTrailingSpace | address/cmd/address/main.go:38-40 | with 1 to 2999 entries the string ends in a space |
| Addresses.JoinedSeparators | address/cmd/address/main.go:33-41 | with space-free addresses there is one space per entry below 3000 entries and exactly 2999 from 3000 on |
| Addresses.JoinedSplitsBack | address/cmd/address/main.go:32-41 | cutting the string at its spaces gives back the first 3000 addresses in file order, plus one empty field when there are fewer |
| Addresses.FormatCommand | address/cmd/address/main.go:13-47 | read and parse errors stop the program; otherwise it prints the full entry count and `tx "<joined>" 0.00001 4000` |
| WalletEdit.ContainsIffOccurs | address/cmd/walletedit/main.go:54 | strings.Contains holds iff the text occurs at some position, in both directions |
| WalletEdit.Contains | address/cmd/walletedit/main.go:54 | definition of strings.Contains; ContainsIffOccurs proves it holds iff the text occurs at some position |
| WalletEdit.Kept | address/cmd/walletedit/main.go:52-56 | definition of the filter; its properties are in KeptAppend, KeptShorter, KeptMembers, KeptAllMatch and KeptIdempotent |
| WalletEdit.KeptAppend | address/cmd/walletedit/main.go:52-61 | the filter works line by line: filtering a concatenation concatenates the filtered parts, so input order is kept |
| WalletEdit.KeptShorter | address/cmd/walletedit/main.go:54 | the output has at most as many lines as the input |
| WalletEdit.KeptMembers | address/cmd/walletedit/main.go:52-56 | a line is in the output iff it is an input line containing "label" |
| WalletEdit.KeptAllMatch | address/cmd/walletedit/main.go:54-55 | every output line contains "label" |
| WalletEdit.KeptIdempotent | address/cmd/walletedit/main.go:54-55 | filtering the output again changes nothing |
| WalletEdit.Text | address/cmd/walletedit/main.go:55 | each line followed by "\n", so the text is at least as long as the line count; TextAppend proves it adds up over concatenation |
| WalletEdit.TextAppend | address/cmd/walletedit/main.go:52-56 | the text of a concatenation of line lists is the concatenation of their texts, so it can be written line by line |
| WalletEdit.Succeeded | address/cmd/walletedit/main.go:55-59 | the number of writes that go through is the index of the first failing write, or all of them |
| WalletEdit.FilterLines | address/cmd/walletedit/main.go:48-65 | the output is each kept line followed by "\n", up to the first failed write; a write error happens iff some write fails, and the read error is reported only when every write succeeded |
| WalletEdit.Edit | address/cmd/walletedit/main.go:20-65 | a config, open or create failure writes nothing; otherwise the filter's output, which is every kept line when no write fails |

## Left out

- Every RPC call (HTTP POST, JSON encoding and decoding, Basic auth), YAML and JSON configuration decoding, and all logging. The RPC answers are inputs. This includes bumpfee's per-wallet age report (address/cmd/bumpfee/main.go:248-258), which changes no state. `lastBlockHeight` is kept as state, but only log messages read it (address/cmd/bumpfee/main.go:174-177 and 249).
- The infinite loops and `time.Sleep`. bumpfee is modelled one cycle at a time. sendmany's outer loop runs for as many passes as there are answers.
- The listunspent filters (minconf and maxconf 0, `minimumAmount` 0.00002) are applied by the node, so the model sees only the outputs it returns.
- BumpFee.EstimateFeerate: computed on exact reals, not float64. The float64 rounding of `|fee| * 1e8 / len * 2` and of the comparisons that follow is not modelled.
- BumpFee.Round: also on reals. The conversion of a float64 too large for `int` is not modelled.
- BumpFee.OutputStep: requires a non-empty hex string in a successful lookup. In Go an empty hex divides by zero and gives an infinite or NaN rate.
- The block count is a float64 truncated to an integer. The model takes the integer height.
- NetworkChart: `calculateDifficulty`'s big.Float division, the hash-rate and difficulty `%.3f` formatting, the CSV writing and the time formatting are left out. They are floating point and I/O.
- NetworkChart: the panics of the header type assertions (`header["bits"].(string)` and the others) are left out. A header is either fetched with its fields or it fails.
- NetworkChart.SampleHeights: requires NBlocks > 0. With a negative NBlocks the Go loop never ends, and with NBlocks 0 from the file the default 120 applies.
- NetworkChart.ParseUint32HexRejects: only stated for strings of up to 8 characters. A longer string can overflow, and so read as 0xFFFFFFFF, before its bad character is reached.
- SendMany: `ReadAddresses` (address/cmd/sendmany/main.go:112-125, 181-184) is left out, along with its fatal error. The addresses are an input.
- SendMany: the log-only loop over the outputs of a wallet above the size gate (address/cmd/sendmany/main.go:278-290) is left out.
- Addresses: the field is either missing (printed as `%!s(<nil>)`) or a string. The `%s` formatting of other JSON types is not modelled.
- WalletEdit: the scanner's splitting into lines, its 64 KiB token limit and the buffered writer's flushing are left out. The input is the sequence of lines the scanner returns and whether it stopped on an error. The output is the text handed to the writer.
- Strings are sequences of characters, where Go's `len`, `strings.Contains` and the scanner work on bytes. The two agree for the ASCII hex of transactions and for lines that are valid UTF-8; a line that is not valid UTF-8 is not modelled.
- The other commands of the repository (generate, newaddress, prioritisetransaction, uxtos) are not part of this model.

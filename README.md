# Fishing game: prize-pool weights and strategy draws

A Dafny model of the two services at the heart of the fishing game's back end.

- **The prize pool** (`backend/service/pool.go`, module `Pool` in `pool.dfy`).
  The pool is two hashes keyed by fish id: the fish records and their integer
  draw weights, which sum to 1,000,000 once the five system fishes are seeded.
  A player adds a fish with a description and an image. The fish's weight is
  2500 plus 100 per character of the trimmed description, counting at most 25
  characters. That weight is borrowed from the system fishes in a fixed order
  (empty, small, medium, large; the rare fish never lends), and no lender goes
  below its floor. The fish is then stored with exactly the borrowed weight.
  So a completed admission keeps the total at 1,000,000 and every floor
  respected. The store is the class `PoolStore`. The borrowing loop is the
  method `PlanBorrow`, proved equal to the recursive function `BorrowFrom`.
  The conservation, frame, floor, greedy and exact-amount lemmas are proved
  about `BorrowFrom`.
- **The strategy draw** (`backend/service/lottery.go`, module `Lottery` in
  `lottery.dfy`). The catch duration picks one of four strategies. A
  quicker catch gets a strategy earlier in the order high, medium, random,
  empty; the odds each strategy gives come from its configuration file, which
  is not part of this model. Every strategy is checked at start-up to sum to
  1,000,000. A draw takes a sample in [0, 1,000,000) and scans the strategy's
  weights with a running sum. It stops at the first entry whose running sum
  exceeds the sample, reads that entry's key as a decimal item id and returns
  that item. The draw then saves a record and credits the item's points to
  the player when there are any. The model proves three things about a
  checked strategy with non-negative weights: the scan never runs off the end, entry `k` wins for
  exactly the samples in [Prefix(k), Prefix(k+1)), and so it wins for exactly
  `weight` of the 1,000,000 samples. All three hold for every order in which
  Go's map iteration may visit the weights.

Supporting modules: `Wrappers` (`Option`, `Result`), `MapSum` (the sum of a
weight map, as a ghost function with insertion and update lemmas) and
`Decimal` (Go's `strconv.Atoi` on an `int` of 64 bits, and decimal
formatting with the round-trip lemma), and `IntOps` (`Min`, `Max`).

Randomness, clocks and UUIDs are parameters: the drawn sample, the random
image index, the new fish id, the draw id and the time are passed in. Three
calls to a collaborator have their outcome passed in as a flag: the final
save of `AddFish` (`saveOk`), and the record save and score increment of
`Draw` (`saveOk`, `rankingOk`). Every other Redis call is assumed to
succeed (see "Left out"). A strategy's weight map is a sequence, in the
order the scan visits it.

## Model

| member | source | states |
|---|---|---|
| Pool.InitialWeightsValid | backend/service/pool.go:141-147 | the seeded weights sum to 1,000,000 and every lender is at or above its floor |
| Pool.BorrowOrderValid | backend/service/pool.go:58-71 | the lender list has distinct ids and positive floors |
| Pool.IsSpace | backend/service/pool.go:274 | a character is white space exactly when it is one of the Latin-1 characters unicode.IsSpace lists (tab, newline, vertical tab, form feed, carriage return, space, U+0085, U+00A0) or one of the entries of the White_Space table above Latin-1 |
| Pool.TrimLeftSpec | backend/service/pool.go:274 | trimming the front removes a prefix made only of white space and stops at a non-space character |
| Pool.TrimRightSpec | backend/service/pool.go:274 | trimming the back removes a suffix made only of white space and stops at a non-space character |
| Pool.TrimSpace | backend/service/pool.go:274 | the result is the slice of the input left after removing the leading and the trailing white space (unicode.IsSpace); it neither starts nor ends with white space, and it is empty exactly when the input is all white space |
| Pool.CalculateWeight | backend/service/pool.go:273-277 | the weight lies in [2500, 5000]; it is 2500 + 100 * the trimmed length below 25 characters and 5000 from 25 characters on |
| Pool.BlankDescriptionWeight | backend/service/pool.go:273-277 | an empty or all-white-space description earns only the base weight 2500 |
| Pool.WeightMonotone | backend/service/pool.go:273-277 | a longer trimmed description never earns less weight |
| Pool.ImageURLInjective | backend/service/pool.go:210 | two image names never share a URL |
| Pool.RandomUserImage | backend/service/pool.go:175-191 | a random pick always succeeds with the URL of one of the allowed images |
| Pool.ChooseUserImage | backend/service/pool.go:194-216 | a named image succeeds if and only if it is allowed, with its URL, and fails with InvalidImageName otherwise; no name gives the URL of some allowed image |
| Pool.GetUserImageURL | backend/service/pool.go:194-216 | the linear search of the allowed images returns exactly ChooseUserImage |
| Pool.BorrowFrom | backend/service/pool.go:313-326 | with no demand nothing is borrowed; with a positive demand what is still needed afterwards lies between 0 and the demand, so the loop never borrows more than asked |
| Pool.PlanBorrow | backend/service/pool.go:304-326 | the copy-and-borrow loop ends with the weights and unmet demand of BorrowFrom over BorrowOrder |
| Pool.BorrowFrame | backend/service/pool.go:313-326 | borrowing keeps the set of ids and changes no weight outside the lender list |
| Pool.BorrowConserves | backend/service/pool.go:313-326 | the total weight drops by exactly the amount borrowed (need minus what is left) |
| Pool.BorrowAmount | backend/service/pool.go:313-331 | for positive demand the amount borrowed is min(need, total headroom above the floors) |
| Pool.BorrowFloors | backend/service/pool.go:318-324 | a lender at or below its floor is untouched; a lender above it ends between its floor and its old weight |
| Pool.BorrowGreedy | backend/service/pool.go:313-326 | a later lender is charged only when every earlier lender was drained to its floor |
| Pool.InsufficientMeansExhausted | backend/service/pool.go:329-331 | the borrow fails if and only if the lenders' total headroom is below the demand |
| Pool.FirstAdmissionFromEmpty | backend/service/pool.go:313-326 | in the seeded pool a 2700 demand is met by the empty fish alone, leaving it at 497300 |
| Pool.CascadeAtFloor | backend/service/pool.go:313-326 | when the empty fish is 1000 above its floor, a 2700 demand drains it to the floor and takes 1700 from the small fish |
| Pool.ChangedEntries | backend/service/pool.go:334-339 | the entries written are exactly those of the new weights that differ from the current ones, with their new values, and writing them over the current hash gives the new weights |
| Pool.BorrowWriteSet | backend/service/pool.go:334-339 | the fields written back are lenders only, and writing them over the current hash gives the planned weights |
| Pool.AdmitPreservesInvariant | backend/service/pool.go:244-257 | a funded admission that stores the fish with its weight keeps the total at 1,000,000 and every floor |
| Pool.PoolStore.InitializePool | backend/service/pool.go:85-172 | an already populated pool is left alone; otherwise the five system fishes and their weights are written, and a fresh pool then satisfies the pool invariant |
| Pool.PoolStore.WriteFishes | backend/service/pool.go:153-159 | writing the system fishes one after the other into the empty items hash leaves the records keyed by their ids, a later record replacing an earlier one |
| Pool.PoolStore.WriteWeights | backend/service/pool.go:161-164 | writing every seed weight, in any order, leaves the old hash overwritten by the seed weights |
| Pool.PoolStore.WriteChanged | backend/service/pool.go:334-339 | the write-back loop leaves the hash equal to the new weights and writes exactly the changed entries |
| Pool.PoolStore.GetPool | backend/service/pool.go:350-396 | returns the item count, all records, all weights and the sum of the weights |
| Pool.PoolStore.BorrowWeight | backend/service/pool.go:280-347 | failing demand leaves the hash untouched and reports what is still needed; otherwise the hash becomes the planned weights and only changed fields are written |
| Pool.PoolStore.AddFish | backend/service/pool.go:219-270 | an image error or insufficient weight changes nothing; a failed save leaves the borrowed weights committed and the total short by the fish's weight; success stores the user fish (250 points) at exactly its weight, keeps the total weight unchanged and keeps the pool invariant |
| Decimal.Atoi | backend/service/lottery.go:223-226 | a result is within the 64-bit range, comes from an optional sign and a non-empty run of decimal digits, and is the value they spell, negated after a minus sign |
| Decimal.AtoiAccepts | backend/service/lottery.go:223-226 | every optional sign followed by a non-empty digit run whose signed value fits in 64 bits is accepted with that value |
| Decimal.AtoiRejectsOutOfRange | backend/service/lottery.go:223-226 | a signed digit run whose value does not fit in 64 bits is refused |
| Decimal.AtoiFormatInt | backend/service/lottery.go:219-226 | every 64-bit id written in decimal reads back as itself |
| Lottery.SelectStrategyByDuration | backend/service/lottery.go:103-113 | up to 1000 ms gives high, up to 3000 medium, up to 5000 random, slower gives empty |
| Lottery.StrategyMonotone | backend/service/lottery.go:103-113 | a slower catch never gets a strategy earlier in the order high, medium, random, empty |
| Lottery.GetDurationFromContext | backend/service/lottery.go:116-139 | a nil context, a missing key, a value of another type or an unparsable string gives 10000; otherwise the number the value holds |
| Lottery.UnreadableDurationSelectsEmpty | backend/service/lottery.go:116-139 | a request whose duration cannot be read is drawn with the empty strategy |
| Lottery.LoadLotteryStrategies | backend/service/lottery.go:80-88 | loading succeeds if and only if every strategy sums to 1,000,000; a failure names a strategy that does not, with its sum |
| Lottery.ScanFrom | backend/service/lottery.go:218-236 | the scan stops at the first entry whose running sum exceeds the sample, and reports none when no running sum does |
| Lottery.ScanNeverExhausts | backend/service/lottery.go:238-239 | for a checked strategy every sample in [0, 1000000) stops the scan, so the fallback is never reached |
| Lottery.ScanFindsInterval | backend/service/lottery.go:218-236 | with non-negative weights entry k is chosen if and only if Prefix(k) <= sample < Prefix(k+1) |
| Lottery.SelectionProportional | backend/service/lottery.go:210-236 | of the 1,000,000 samples, exactly `weight` choose entry k, in any visiting order |
| Lottery.ItemsMapKeys | backend/service/lottery.go:94-100 | the items map holds exactly the ids of the pool's items |
| Lottery.ItemsMapOf | backend/service/lottery.go:94-100 | every item of the map is stored under its own id |
| Lottery.ItemsMapLastWins | backend/service/lottery.go:94-100 | when several items share an id, the last one is kept |
| Lottery.SelectByStrategy | backend/service/lottery.go:204-240 | an unknown strategy fails with StrategyNotFound; when the scan stops at an entry, a key that is not a decimal number fails with InvalidItemID, an id with no item fails with ItemNotFound, and otherwise the result is the item of that id; when the scan runs off the end, the result is the item with id 1, or NoFallbackItem if there is none; any item returned is one of the items map |
| Lottery.SampleDrawsItem | backend/service/lottery.go:204-236 | for a checked strategy, a sample in entry k's interval whose key spells a known item id draws that item |
| Lottery.LotteryService.BuildItemsMap | backend/service/lottery.go:94-100 | the items map becomes the pool's items inserted one after the other |
| Lottery.LotteryService.WeightedRandomSelectByStrategy | backend/service/lottery.go:204-240 | the running-sum loop returns exactly SelectByStrategy for the sample |
| Lottery.LotteryService.Draw | backend/service/lottery.go:142-201 | a failed selection makes no call; otherwise the record is saved first; after a successful save, a point-scoring item makes exactly one more call, a score increment of its points with reason "lottery_win_" + name, and an item without points makes none; failures of either call are reported; a returned result wins if and only if the item has points |
| Lottery.NewLotteryService | backend/service/lottery.go:28-48 | construction succeeds if and only if every strategy sums to 1,000,000, and the service then holds the pool, the strategies and the items map of the pool |

## Left out

- Redis itself: the two hashes are fields of `PoolStore`. JSON encoding of the records and weights is left out, and so is the `parseWeight` fallback and its parse errors. The pipelines are treated as all-or-nothing.
- Concurrency: two simultaneous `AddFish` calls can both read the same weights and overwrite each other's borrow. The model runs one operation at a time.
- Pool.PoolStore.AddFish: the UUID is a parameter, assumed fresh (not already an id in either hash), and the random image index is a parameter in range. The failure to draw a random number is left out.
- Pool.PoolStore.BorrowWeight: the read of the weights hash and the pipeline that writes the changed weights are assumed to succeed; their Redis errors are not modelled.
- Pool.PoolStore.GetPool: the two hash reads and the decoding of each record and weight are assumed to succeed; their errors are not modelled.
- Pool.PoolStore.InitializePool: Redis errors while reading or writing are not modelled. The existence check is modelled as "the items hash is non-empty".
- Lottery.LotteryService.Draw: the draw id, built from the clock in Go, and the time are parameters. Go reads the clock four times (twice for the draw id, once for the record, once for the response); the model uses one `now`. Saving the record to the history list (`saveLotteryRecord`) and `GetUserDrawHistory` are not part of this model. The ranking service's `IncrementScore` is an effect whose outcome is the `rankingOk` parameter.
- Lottery.LotteryService.WeightedRandomSelectByStrategy: the random sample is a parameter in [0, 1000000). The random generator's error path is left out. When the fallback item id 1 is missing, Go returns a nil item without an error and the draw then dereferences it. The model reports `NoFallbackItem` instead. `ScanNeverExhausts` shows this path cannot be reached with checked strategies.
- Lottery.SelectionProportional: proved only for non-negative weights. The start-up check accepts negative weights as long as the sum is 1,000,000, and then the odds are not proportional.
- Lottery.GetDurationFromContext: durations are reals. A string is represented with the result of `strconv.ParseFloat` attached, so float parsing itself, NaN and infinities are not modelled.
- Reading `configs/lottery_pool.json` and `configs/lottery_strategies.json` (file and JSON errors) is not modelled. `NewLotteryService` takes the parsed pool and strategies.
- A strategy's weights are a sequence, so duplicate keys are possible in the model although a Go map has none. Go picks a new iteration order every time the loop runs, so the same sample can pick different items on different draws; the model fixes one visiting order per strategy for every draw. Every lemma holds for any sequence, hence for every iteration order Go may pick.
- Go's `int` is taken to be 64 bits wide, so `Decimal.Atoi` accepts the 64-bit range. Sums of weights use unbounded integers; overflow of the running sums on absurd configurations is not modelled.
- Text lengths count code points. `calculateWeight` counts runes, and strings here are sequences of Unicode scalar values; invalid UTF-8 bytes (each read as U+FFFD in Go) are not modelled.
- The HTTP handlers, `main.go`, the ranking and user services, and the Redis configuration are outside this model. The pool service and the lottery service each use their own item type, and each is modelled on its own terms.

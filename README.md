# Revenue distribution ledgers and the 48-bit generator, in Dafny

This project models two revenue-distribution contracts and proves properties about them.
Both contracts pay holders of a stake their share of every revenue injected into the
contract. Each contract is written twice in the repository, once in C (compiled to
WebAssembly) and once in Java. On finite amounts and non-null addresses, the two versions of
each contract behave the same except for construction: the C version starts empty
(`constructContract`), while the Java version is built from an address -> share map. Each contract is modelled as one Dafny class.
`constructor ()` models the C construction; the static `FromShares` models the Java
constructor and returns `null` where Java reverts.

- **Naive (eager) ledger** (`NaiveDistribution.dfy`). It keeps a map from address to
  `{share, revenue}` and a running `totalShare`.
  - `changeShare` adjusts one holder's share.
  - `addRevenue` walks every holder and credits it `share / totalShare * amount`.
- **Optimized (lazy-accumulator) ledger** (`OptimizedDistribution.dfy`).
  - It keeps three globals: `totalStake`, `incrementPerRevenue` and `index`.
  - Each holder keeps its stake, what it has been paid so far, and a snapshot of the globals.
  - `addRevenue` only bumps `index`.
  - `changeShare` settles the one holder it touches, recalibrates the increment, commits the
    new stake and takes a fresh snapshot.
- **Relation between the two** (`Equivalence.dfy`). A lazy holder gets what the eager ledger
  would credit it, revenue by revenue, as long as nothing has changed since its snapshot.
  Nothing is claimed beyond that.
- **Concrete runs of both ledgers** (`Scenarios.dfy`). Among them is one where the lazy ledger
  pays out 160 for a revenue of 100. This happens because a holder is settled against the total
  it saw when it joined.
- **Generator** (`Random.dfy`). This is the `java.util.Random` linear congruential generator
  that seeds the neural network's weights: `initSeed`, `nextBits`, `nextDouble` and
  `nextDoubleRange`.

How the model represents the source's numbers and failures:

- **Doubles** are exact reals. There is one extra value, `NonFinite`, for the infinities and
  NaNs that the ledgers produce when they divide by a zero total (`Accounting.dfy`). Once a
  value is `NonFinite`, every result computed from it is `NonFinite` too.
- **Failures** are a `Status` result: `Revert` stands for both `EXIT_FAILURE` and
  `TxnRevertException`.
- **The generator's 64-bit integers** are `bv64` values, and multiplication wraps modulo 2^64.

The model reproduces three behaviours of the code exactly as written:

1. **Naive `changeShare` is not all-or-nothing.** It stores the new total before it checks
   whether the holder's own share would go negative. A rejection at that check therefore
   leaves the total changed, and the total no longer equals the sum of the shares.
   `NaiveDistribution.DistributionContract.ChangeShare` states this, and
   `Scenarios.PartialRevert` shows it on a concrete run.
2. **The optimized Phase 2 rescale branch divides by zero.** This branch runs only when the
   new total is 0, so it always divides by zero and makes the increment non-finite.
   `Scenarios.EmptyPool` follows the consequences.
3. **Settlement uses a stale total.** It divides by the total the holder saw at its own
   snapshot (`lastTotalStake`), not the current one. The lazy and eager ledgers agree only
   under the restricted conditions of `Equivalence.LazyMatchesEager`, and
   `Scenarios.StaleSnapshot` shows them disagreeing.

## Model

| member | source | states |
|---|---|---|
| Accounting.Plus | C-to-Wasm/revenue_distribution/NonOptimized/DistributionContract.c:116 | the sum of two doubles is finite exactly when both are, and then differs from the first by the second |
| Accounting.Minus | C-to-Wasm/revenue_distribution/Optimized/DistributionContract.c:87 | the index progress `index - lastIndex` is finite exactly when both indices are, and then adds back to the index |
| Accounting.Times | C-to-Wasm/revenue_distribution/Optimized/DistributionContract.c:129 | the product `incrementPerRevenue * amount` is finite exactly when both factors are |
| Accounting.Over | C-to-Wasm/revenue_distribution/NonOptimized/DistributionContract.c:116 | the model's quotient is finite exactly when both operands are finite and the divisor is not zero; every divisor the ledgers use is finite, where this agrees with doubles |
| NaiveDistribution.Lookup | C-to-Wasm/revenue_distribution/NonOptimized/DistributionContract.c:73-81 | the record `changeShare` starts from is the stored one, or a zero share with zero revenue for a new address |
| NaiveDistribution.Credited | C-to-Wasm/revenue_distribution/NonOptimized/DistributionContract.c:116 | crediting a holder keeps its share; its revenue stays finite exactly when it was finite and the total is not zero, and then grows by exactly that holder's increment |
| NaiveDistribution.Increment | C-to-Wasm/revenue_distribution/NonOptimized/DistributionContract.c:116 | one holder's credit is finite exactly when the total is not zero; then credit times total equals share times amount; it is non-negative for a positive total and non-negative share and amount |
| NaiveDistribution.Distributed | C-to-Wasm/revenue_distribution/NonOptimized/DistributionContract.c:110-118 | one distribution keeps the set of addresses and every share; it never lowers a revenue for a non-negative total, amount and share; with a zero total every revenue becomes non-finite |
| NaiveDistribution.IncrementsSumToAmount | C-to-Wasm/revenue_distribution/NonOptimized/DistributionContract.c:116 | when the total is the sum of the non-negative shares and positive, the credits of one distribution add up to exactly the amount |
| NaiveDistribution.DistributionIsExact | C-to-Wasm/revenue_distribution/NonOptimized/DistributionContract.c:110-118 | under the same conditions every holder is credited a non-negative amount, its revenue grows by exactly that amount, and the amounts add up to the revenue injected |
| NaiveDistribution.DistributionContract.constructor | C-to-Wasm/revenue_distribution/NonOptimized/DistributionContract.c:30-38 | a new contract has no holders and a zero total, and its total is the sum of the shares |
| NaiveDistribution.DistributionContract.FromShares | Java/src/main/java/src/revenue_distribution/non_optimized/DistributionContract.java:37-47 | reverts exactly when some share is not positive; otherwise every address gets its share and zero revenue, and the total is the sum of the shares |
| NaiveDistribution.DistributionContract.ChangeShare | C-to-Wasm/revenue_distribution/NonOptimized/DistributionContract.c:64-88 | succeeds exactly when the change is non-zero, the new total is non-negative and the holder's new share is non-negative; on success the total and only that holder's share (an absent holder counting as zero) move by the change; on failure no record changes, and the total is already updated when only the holder check failed, breaking "total = sum of shares" exactly on that path |
| NaiveDistribution.DistributionContract.AddRevenue | C-to-Wasm/revenue_distribution/NonOptimized/DistributionContract.c:97-102 | succeeds exactly when the amount is positive; failure changes nothing; success distributes the amount; the total, the shares and "total = sum of shares" are preserved, and no revenue decreases |
| NaiveDistribution.DistributionContract.DistributeRevenue | Java/src/main/java/src/revenue_distribution/non_optimized/DistributionContract.java:90-95 | the loop over the holders leaves the map equal to one distribution of the amount, with the total unchanged |
| OptimizedDistribution.Settlement | C-to-Wasm/revenue_distribution/Optimized/DistributionContract.c:87-88 | a holder without stake settles exactly zero |
| OptimizedDistribution.SettlementBounds | C-to-Wasm/revenue_distribution/Optimized/DistributionContract.c:87-88 | a well-formed holder never settles a negative amount, and settles a finite one while the index and its snapshot are finite, because its denominator is 10000 times a positive total |
| OptimizedDistribution.ResnapshotKeepsEntitlement | C-to-Wasm/revenue_distribution/Optimized/DistributionContract.c:87-101 | settling a holder and re-snapshotting it at the current index leaves unchanged what it would hold if settled now |
| OptimizedDistribution.Accrual | C-to-Wasm/revenue_distribution/Optimized/DistributionContract.c:87-88 | the lazy share of one revenue is non-negative and, for a holder with stake, times the snapshot total equals stake times amount |
| OptimizedDistribution.RevenueAccrues | C-to-Wasm/revenue_distribution/Optimized/DistributionContract.c:129 | revenue injected while the increment is 10000 raises a holder's pending settlement by exactly its accrual |
| OptimizedDistribution.HolderIn | C-to-Wasm/revenue_distribution/Optimized/DistributionContract.c:76-84 | on the plain holder map: a stored address yields its own record; a first-seen address starts with no stake, nothing settled and a snapshot of the current index |
| OptimizedDistribution.IncrementFor | C-to-Wasm/revenue_distribution/Optimized/DistributionContract.c:91-95 | after Phase 2 the increment is 10000 exactly when the new total is not zero, and non-finite otherwise (the rescale divides by that zero total); `DistributionContract.ChangeShare` proves the phase's code yields it |
| OptimizedDistribution.Committed | C-to-Wasm/revenue_distribution/Optimized/DistributionContract.c:96-103 | the committed record's stake moved by the change, and its snapshot is the post-update total, increment and index |
| OptimizedDistribution.NewcomerEntitlement | C-to-Wasm/revenue_distribution/Optimized/DistributionContract.c:78-80 | an address without stake or settled revenue is entitled to nothing |
| OptimizedDistribution.HolderStakeBound | C-to-Wasm/revenue_distribution/Optimized/DistributionContract.c:85 | under the invariant no holder's stake exceeds the total stake |
| OptimizedDistribution.ChangeKeepsInvariant | C-to-Wasm/revenue_distribution/Optimized/DistributionContract.c:85-103 | a successful change keeps the invariant: total = sum of stakes, increment 10000 unless the total fell to zero, every holder with stake snapshotted at increment 10000 with a total at least its stake |
| OptimizedDistribution.ChangeKeepsSettledTotals | C-to-Wasm/revenue_distribution/Optimized/DistributionContract.c:87-89 | a successful change never lowers any holder's settled total |
| OptimizedDistribution.ChangeKeepsEntitlements | C-to-Wasm/revenue_distribution/Optimized/DistributionContract.c:87-103 | while the index is finite, a successful change leaves what every address would hold if settled now unchanged |
| OptimizedDistribution.ChangeCommits | C-to-Wasm/revenue_distribution/Optimized/DistributionContract.c:85-105 | the committed state keeps the invariant, no settled total decreases, and entitlements are preserved while the index is finite |
| OptimizedDistribution.DistributionContract.HolderOf | C-to-Wasm/revenue_distribution/Optimized/DistributionContract.c:76-84 | a stored address starts from its record; a first-seen address starts from no stake, nothing settled, and a snapshot of the current total, increment and index (the positional initializer read in the Java field order) |
| OptimizedDistribution.DistributionContract.constructor | C-to-Wasm/revenue_distribution/Optimized/DistributionContract.c:32-44 | a new contract has no holders, total 0, increment 10000, index 1000000, and satisfies the invariant |
| OptimizedDistribution.DistributionContract.FromShares | Java/src/main/java/src/revenue_distribution/optimized/DistributionContract.java:63-77 | reverts exactly when some share is not positive; otherwise the total is the sum of the shares, the globals are at their initial values and every address gets its stake, nothing settled and a snapshot of the finished globals, so the invariant holds |
| OptimizedDistribution.DistributionContract.ChangeShare | C-to-Wasm/revenue_distribution/Optimized/DistributionContract.c:69-105 | succeeds exactly when the change is non-zero, the new total is non-negative and the holder's new stake is non-negative; a failure changes nothing; a success moves the total by the change, resets the increment to 10000 (or makes it non-finite when the total became zero), keeps the index, and replaces only the holder's record by its settled and re-snapshotted version; no settled total decreases and, with a finite index, no entitlement changes |
| OptimizedDistribution.DistributionContract.AddRevenue | C-to-Wasm/revenue_distribution/Optimized/DistributionContract.c:114-119 | succeeds exactly when the amount is positive; only the index changes, by increment times amount; at increment 10000 every holder's entitlement grows by its accrual |
| OptimizedDistribution.DistributionContract.DistributeRevenue | C-to-Wasm/revenue_distribution/Optimized/DistributionContract.c:127-130 | the index grows by increment times amount and never decreases; no holder and no other global changes |
| Equivalence.IndexAfter | C-to-Wasm/revenue_distribution/Optimized/DistributionContract.c:129 | after a run of revenues at increment 10000 the index has grown by 10000 times their sum |
| Equivalence.NaiveAccrual | C-to-Wasm/revenue_distribution/NonOptimized/DistributionContract.c:116 | the eager credits of a run are finite exactly when the total is not zero or the run is empty |
| Equivalence.LazyMatchesEager | C-to-Wasm/revenue_distribution/Optimized/DistributionContract.c:87-88 | after any run of revenues at increment 10000 since a holder's snapshot, its settlement equals the eager credits for the same stake over the snapshot total |
| Equivalence.RunRevenue | Java/src/main/java/src/revenue_distribution/optimized/DistributionContract.java:120-133 | feeding the same positive revenues to both ledgers, every eager holder's revenue grows by its eager credits, and for every holder whose lazy snapshot matches the eager share and total, by exactly its lazy settlement |
| Scenarios.EagerFairness | C-to-Wasm/revenue_distribution/NonOptimized/DistributionContract.c:116 | with shares 30 and 70, one distribution credits exactly 30% and 70% of the amount |
| Scenarios.SettlementAgrees | Java/src/main/java/src/revenue_distribution/optimized/DistributionContract.java:63-77 | built from {A: 40, B: 60}, after a revenue of 100 both ledgers give A exactly 40 |
| Scenarios.StaleSnapshot | C-to-Wasm/revenue_distribution/Optimized/DistributionContract.c:87-88 | when A joins with 40 before B joins with 60, a revenue of 100 gives A 40 eagerly but 100 lazily, B 60 in both |
| Scenarios.PartialRevert | C-to-Wasm/revenue_distribution/NonOptimized/DistributionContract.c:71-84 | A 10 and B 5, then a change of -12 to A reverts but leaves the total at 3 with the shares unchanged |
| Scenarios.EmptyPool | C-to-Wasm/revenue_distribution/Optimized/DistributionContract.c:91-95 | when the last holder leaves, the increment becomes non-finite, the next revenue makes the index non-finite, and a later joiner resets the increment but snapshots a non-finite index |
| Random.InitialSeed | C-to-Wasm/neural_network/Random.c:18-21 | the initial state is within 48 bits |
| Random.InitialSeedInverse | C-to-Wasm/neural_network/Random.c:19 | the caller's seed is recovered from the state up to its low 48 bits |
| Random.InitialSeedInjective | C-to-Wasm/neural_network/Random.c:19 | two seeds give the same state exactly when they agree on their low 48 bits |
| Random.NextSeed | C-to-Wasm/neural_network/Random.c:10 | every next state is within 48 bits |
| Random.ExtractBits | C-to-Wasm/neural_network/Random.c:12-15 | for widths 16 to 31 and any 48-bit state, the int32 `nextBits` returns (sign, mask, shift, truncation) is the state's top bits, below 2^bits |
| Random.FirstDraw | C-to-Wasm/neural_network/Random.c:29 | the 26-bit draw is the state shifted right by 22 and is below 2^26 |
| Random.SecondDraw | C-to-Wasm/neural_network/Random.c:30 | the 27-bit draw is the state shifted right by 21 and is below 2^27 |
| Random.Numerator | C-to-Wasm/neural_network/Random.c:29-31 | the numerator built from two draws is below 2^53 |
| Random.NumeratorSplits | C-to-Wasm/neural_network/Random.c:29-31 | the numerator keeps both draws: its bits above 27 are the first, its low 27 bits the second |
| Random.Fraction | C-to-Wasm/neural_network/Random.c:31 | the quotient by 2^53 lies in [0, 1) |
| Random.Stretch | C-to-Wasm/neural_network/Random.c:25 | for low < high the stretched value lies in [low, high); a zero fraction gives low |
| Random.NumeratorAt | C-to-Wasm/neural_network/Random.c:28-31 | the numerator `nextDouble` builds from the next two states is below 2^53 |
| Random.DoubleAt | C-to-Wasm/neural_network/Random.c:28-32 | the value `nextDouble` returns from a state lies in [0, 1) |
| Random.NumeratorAtBits | C-to-Wasm/neural_network/Random.c:28-31 | the numerator is the top 26 bits of the first new state followed by the top 27 bits of the second |
| Random.Generator.constructor | C-to-Wasm/neural_network/Random.c:18-21 | the generator starts at the scrambled 48-bit state of the seed |
| Random.Generator.NextBits | C-to-Wasm/neural_network/Random.c:9-16 | advances the state by exactly one step (the second write of the seed stores the same value) and returns the extracted bits of the new state |
| Random.Generator.NextDouble | C-to-Wasm/neural_network/Random.c:28-32 | advances the state by exactly two steps and returns the fraction those two states determine |
| Random.Generator.NextDoubleRange | C-to-Wasm/neural_network/Random.c:23-26 | advances the state by exactly two steps and, for low < high, returns a value in [low, high) |

## Left out

- NULL contracts and addresses are not modelled: addresses are string values and a contract is always allocated.
- The hash map library and memory handling are not modelled. This covers hashing, comparison, `calloc`/`free`, `destroyContract`, and keeping the caller's address pointer. The holder table is a Dafny `map`, and the order in which the C and Java loops visit holders does not matter to the result.
- Floating-point rounding is not modelled: amounts are exact reals. The `isfinite` checks of a new total vanish because a finite real plus a finite real is finite. Infinity and NaN are merged into `NonFinite`.
- NaN or infinite `change` and `amount` arguments are outside the model, which works on reals. On them the C and Java versions disagree: C tests `amount <= 0`, which is false for NaN, so it distributes a NaN amount, while Java tests `amount > 0` and reverts. A null address is likewise rejected by C but accepted as a map key by Java.
- Accounting.Over: a finite number divided by an infinity is a finite zero in doubles, but `NonFinite` here. No ledger reaches that case: the naive divisor is the finite total, and the settlement divisor is 10000 times a positive total for every holder with stake.
- When the index has become non-finite, the model does not say whether later arithmetic gives an infinity or a NaN.
- The neural-network code, the benchmark harnesses and the MNIST loader are not part of this model.
- The model follows the code where the ledgers' prose descriptions promise more. Naive `changeShare` is not all-or-nothing. An empty address is not rejected. A zero total gives non-finite values rather than a dedicated error.
- Random.Generator.NextBits: requires `bits <= 47`, so that the shift amounts in the C expression are in range; `nextDouble` only asks for 26 and 27.
- Random.ExtractBits: its contract covers widths 16 to 31 only; outside that range the int32 conversion can keep mask bits.
- Random.NextSeed: the product is taken to wrap modulo 2^64, as WebAssembly's `i64.mul` does; in C this signed overflow is undefined.
- Random.NextSeed: that the next state depends only on the low 48 bits of the seed is not proved.
- Random.Fraction: returns the exact quotient. The double conversion and division in the source are exact for numerators below 2^53, but that argument is not proved here.
- Random.Stretch: exact real arithmetic; the rounding of `(high - low) * d + low` in doubles is not modelled, so its upper bound may not hold in the source for some inputs.
- Equivalence.RunRevenue: covers runs of positive revenues on ledgers with a positive total only; a rejected `addRevenue` changes nothing and is covered by `AddRevenue` itself.
- OptimizedDistribution.Settlement: its own contract states only the zero-stake case; non-negativity and finiteness are in `SettlementBounds`, and growth per revenue is in `RevenueAccrues`.
- OptimizedDistribution.DistributionContract.ChangeShare: the entitlement guarantee is stated only while the index is finite. The rescale branch makes the increment non-finite; once revenue has been injected at a non-finite increment, the index is non-finite and every holder with stake settles a non-finite amount (a holder without stake still settles exactly 0).

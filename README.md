# Quantum Trading Bot: position sizing and entropy pool

A Dafny model of the two pieces of logic in `Trading_Bot.py` that are not glue
around foreign libraries:

- **AdaptiveKelly** (module `Kelly`, `kelly.dfy`). A risk-profile name selects a
  Kelly multiplier from a fixed table: conservative 0.25, moderate 0.5,
  aggressive 1.0, and 0.5 for any other name. `calculate(p, b)` returns the
  Kelly fraction `(p·(b+1) − 1)/b`, scaled by the multiplier and floored at
  0.01. The model computes over `real`, so the arithmetic is exact. The
  object is a datatype, because its multiplier is set once and never changed.
  A zero payoff ratio is the error `DivisionByZero`, which is Python's
  ZeroDivisionError.
- **EntropyHarvester** (module `Entropy`, `entropy.dfy`). A class holding `pool`
  (a byte sequence) and `lastRefresh` (a timestamp in microseconds). Each pass
  of the `feed` loop appends a chunk from the quantum source and then a
  chunk from `os.urandom`. The code passes 64 to each source, and `os.urandom(64)` returns 64 bytes. If strictly more than five minutes have passed since the
  last refresh, the pass replaces the pool with its 32-byte SHA3-256 digest
  (FIPS 202, section 6.1) and resets the refresh time.
  - The pure function `Step` specifies one pass. `FeedStep` is that pass on the object.
  - `Replay` folds `Step` over a finite run of passes. `Feed` is the loop run over such a sequence.

Parameters stand in for the outside world. `Harvest` carries the bytes from
both random sources and the clock reading for one pass. The digest is a
parameter of type `Digest256`: any total function whose output is 32 bytes
long. Because it is a function, whitening is deterministic.

`calculate` checks neither of its arguments. Its only failure is the
ZeroDivisionError for a zero ratio (Trading_Bot.py:102), and that is the one
error `Calculate` models. A negative ratio, or a probability outside [0, 1],
simply goes through the formula.

## Model

| member | source | states |
|---|---|---|
| `Kelly.ProfileMultiplier` | Trading_Bot.py:92-99 | every profile lookup, including the fallback for an unknown name, gives a multiplier m with 0 < m ≤ 1 |
| `Kelly.FromProfile` | Trading_Bot.py:98-99 | the constructor's multiplier is one of the table's values or the fallback 0.5 |
| `Kelly.ProfileLookup` | Trading_Bot.py:92-99 | the lookup gives 0.25, 0.5 and 1.0 for "conservative", "moderate" and "aggressive", and 0.5 for every other name |
| `Kelly.DefaultIsModerate` | Trading_Bot.py:98-99 | constructing with the default profile gives multiplier 0.5 |
| `Kelly.ProfilesOrdered` | Trading_Bot.py:92-96 | conservative's multiplier is below moderate's, which is below aggressive's |
| `Kelly.RawKelly` | Trading_Bot.py:102 | the raw fraction r solves r·b = p·(b+1) − 1 |
| `Kelly.Calculate` | Trading_Bot.py:101-103 | the result is an error exactly when b = 0, and otherwise a fraction of at least 0.01 |
| `Kelly.CalculateIsClampedKelly` | Trading_Bot.py:102-103 | for b ≠ 0 the result is max(0.01, raw·m): exactly raw·m when raw·m ≥ 0.01, exactly 0.01 otherwise |
| `Kelly.EdgeSign` | Trading_Bot.py:102 | for b > 0 the raw fraction is positive if and only if p·(b+1) > 1 |
| `Kelly.NoEdgeGivesFloor` | Trading_Bot.py:102-103 | for b > 0 and p·(b+1) ≤ 1 every multiplier gives exactly 0.01 |
| `Kelly.WorkedExampleModerate` | Trading_Bot.py:102-103 | p = 0.6, b = 2 under "moderate" gives raw 0.4 and result 0.2 |
| `Kelly.LosingEdgeGivesFloor` | Trading_Bot.py:102-103 | p = 0.1, b = 1 gives raw −0.8 and result 0.01 for every profile name |
| `Kelly.ZeroRatioFails` | Trading_Bot.py:102 | b = 0 is a division by zero for every profile and probability |
| `Kelly.MonotoneInProbability` | Trading_Bot.py:102-103 | for fixed b > 0 the result is non-decreasing in p |
| `Kelly.MonotoneInMultiplier` | Trading_Bot.py:99-103 | for fixed odds a larger multiplier never gives a smaller result |
| `Kelly.ProfilesSizeInOrder` | Trading_Bot.py:92-103 | for any odds, conservative ≤ moderate ≤ aggressive |
| `Kelly.NeverExceedsUnscaled` | Trading_Bot.py:99-103 | the result never exceeds max(0.01, raw): scaling never adds exposure |
| `Kelly.AggressiveIsFullKelly` | Trading_Bot.py:95-103 | the aggressive profile gives exactly max(0.01, raw) |
| `Entropy.Whitens` | Trading_Bot.py:36 | the whitening test: strictly more than five minutes since the last refresh |
| `Entropy.WhiteningStaysDue` | Trading_Bot.py:36 | once a refresh is due at some instant, it is due at every later instant for the same last refresh |
| `Entropy.Step` | Trading_Bot.py:34-38 | after a pass the pool is 32 bytes long when more than five minutes have passed, and otherwise longer by the two chunks' lengths; the refresh time becomes now on whitening and is otherwise unchanged |
| `Entropy.StepWithoutWhitening` | Trading_Bot.py:34-36 | a pass without whitening keeps the old pool as a prefix, followed by the quantum chunk and then the urandom chunk, and keeps the refresh time; with 64 bytes from each source the pool grows by exactly 128 bytes |
| `Entropy.StepWhitening` | Trading_Bot.py:34-38 | a whitening pass leaves exactly the digest of old pool ++ quantum ++ urandom, 32 bytes, with the refresh time set to now |
| `Entropy.WhiteningBoundary` | Trading_Bot.py:36 | exactly five minutes after the last refresh a pass does not whiten; one microsecond later it does |
| `Entropy.WhitenedPoolIsDeterministic` | Trading_Bot.py:37 | after whitening, the pool depends only on the prior pool and the bytes just fed, not on the timestamps |
| `Entropy.Replay` | Trading_Bot.py:33-39 | a finite run of the loop is its passes applied in order; after at least one pass with 64-byte chunks the pool holds at least 32 bytes |
| `Entropy.ReplayWithoutWhitening` | Trading_Bot.py:33-36 | while five minutes have not passed, a run of passes appends every chunk in arrival order and keeps the refresh time |
| `Entropy.ReplaySplit` | Trading_Bot.py:33-39 | running hs1 and then hs2 gives the same state as running hs1 ++ hs2 |
| `Entropy.EntropyHarvester.constructor` | Trading_Bot.py:28-30 | a new harvester has an empty pool and was last refreshed at construction time |
| `Entropy.EntropyHarvester.FeedStep` | Trading_Bot.py:34-38 | one pass changes the object's state exactly as `Step` does; the pool grows by the two chunks' lengths or becomes 32 bytes |
| `Entropy.EntropyHarvester.Feed` | Trading_Bot.py:32-39 | running the loop over a finite sequence of passes leaves the state that `Replay` gives |

## Left out

- IEEE-754 behaviour of `calculate`: the model computes over exact reals, so rounding and overflow are not represented.
- Input validation that the code does not perform. A negative ratio or an out-of-range probability is computed through the formula, as in the code.
- The random sources `quantumrandom.binary` and `os.urandom`, and the clock `datetime.now`: their outputs are parameters of each pass. The model accepts chunks of any length, because the byte count `quantumrandom.binary(64)` returns is set by that library, which is not part of this model. The lemmas that count 128 bytes per pass assume both chunks are 64 bytes long.
- Failures of the two random sources: an exception in `quantumrandom.binary` (a network request) or in `os.urandom` ends the `feed` task. A failure at line 35 leaves the quantum chunk already appended, and the pool is then never whitened again. The model has no failure path for either source.
- SHA3-256 internals: the digest is a parameter, constrained only to its 32-byte output length.
- The two clock readings in one pass, one for the test and one for the new refresh time, are modelled as a single instant.
- The infinite `while True` loop, its `asyncio.sleep(0.01)`, and concurrency between `feed` and the pool's readers: only finite runs of passes are modelled.
- The docstring's claim of NIST SP 800-90B compliance: the code implements no health tests or entropy estimators, so there is nothing to model.
- `FIXEngine`: it consists of calls into the quickfix library, plus Logon tags 553/554 filled from environment variables through an undefined `_encrypt`.
- `MT5Bridge`: MetaTrader 5 terminal initialisation and order sending are I/O.
- `QuantumTradingSystem`: it spawns an asyncio task and runs an empty loop, and it calls an undefined `_emergency_shutdown`.
- The missing `os` and `hashlib` imports, which would fail at run time. The model treats both as available.

/**
  The entropy pool of Trading_Bot.py (class EntropyHarvester). Each pass of
  the `feed` loop appends a chunk from a quantum source and then a chunk from
  the operating system's generator (the code passes 64 to each source;
  `os.urandom(64)` returns 64 bytes); when
  strictly more than five minutes have passed since the last refresh, the pool
  is replaced by its 32-byte SHA3-256 digest and the refresh time is reset.

  The random sources, the clock and the digest are parameters: SHA3-256
  (FIPS 202, section 6.1) is any total function with 32-byte output. The
  chunks may have any length; the lemmas that count 128 bytes per pass apply
  when each chunk is 64 bytes long. Timestamps are integers
  counting microseconds, the resolution of Python's datetime.
 */
module Entropy {

  type Byte = bv8

  /** The argument the code passes to each source per pass. */
  const ChunkSize: nat := 64

  /** The length of a SHA3-256 digest. */
  const DigestSize: nat := 32

  /** timedelta(minutes=5), in microseconds. */
  const RefreshInterval: int := 5 * 60 * 1000000

  /** A SHA3-256 digest value. */
  type Digest = d: seq<Byte> | |d| == DigestSize witness seq(32, i => 0 as Byte)

  /** A digest function with SHA3-256's output length. */
  type Digest256 = seq<Byte> -> Digest

  /** The harvester's state: the pool and the time of the last refresh. */
  datatype PoolState = PoolState(pool: seq<Byte>, lastRefresh: int)

  /** What one pass of the loop reads from the outside world. */
  datatype Harvest = Harvest(quantum: seq<Byte>, urandom: seq<Byte>, now: int)

  /** Both chunks of a pass are 64 bytes long. */
  predicate WellFormed(h: Harvest)
  {
    |h.quantum| == ChunkSize && |h.urandom| == ChunkSize
  }

  predicate AllWellFormed(hs: seq<Harvest>)
  {
    forall i :: 0 <= i < |hs| ==> WellFormed(hs[i])
  }

  /** The whitening test: the time since the last refresh is strictly more than five minutes. */
  predicate Whitens(lastRefresh: int, now: int)
  {
    now - lastRefresh > RefreshInterval
  }

  /** One pass of the `feed` loop body (without its sleep). */
  function Step(s: PoolState, h: Harvest, sha3: Digest256): (t: PoolState)
    ensures |t.pool| ==
      if Whitens(s.lastRefresh, h.now) then DigestSize else |s.pool| + |h.quantum| + |h.urandom|
    ensures t.lastRefresh == (if Whitens(s.lastRefresh, h.now) then h.now else s.lastRefresh)
  {
    var fed := s.pool + h.quantum + h.urandom;
    if Whitens(s.lastRefresh, h.now) then PoolState(sha3(fed), h.now)
    else PoolState(fed, s.lastRefresh)
  }

  /** The bytes a sequence of passes appends, in order. */
  function Fed(hs: seq<Harvest>): (bytes: seq<Byte>)
    ensures AllWellFormed(hs) ==> |bytes| == 2 * ChunkSize * |hs|
  {
    if hs == [] then []
    else Fed(hs[..|hs| - 1]) + (hs[|hs| - 1].quantum + hs[|hs| - 1].urandom)
  }

  /** A finite run of the `feed` loop: the passes applied one after another. */
  function Replay(s: PoolState, hs: seq<Harvest>, sha3: Digest256): (t: PoolState)
    ensures AllWellFormed(hs) && hs != [] ==> |t.pool| >= DigestSize
  {
    if hs == [] then s
    else Step(Replay(s, hs[..|hs| - 1], sha3), hs[|hs| - 1], sha3)
  }

  // ---------------------------------------------------------------------------
  // One pass
  // ---------------------------------------------------------------------------

  /**
    A pass that does not whiten keeps the old pool as a prefix, then the
    quantum chunk, then the urandom chunk, and leaves the refresh time alone;
    with 64-byte chunks, the pool grows by 128.
   */
  lemma StepWithoutWhitening(s: PoolState, h: Harvest, sha3: Digest256)
    requires !Whitens(s.lastRefresh, h.now)
    ensures var t := Step(s, h, sha3);
      && t.pool[..|s.pool|] == s.pool
      && t.pool[|s.pool|..|s.pool| + |h.quantum|] == h.quantum
      && t.pool[|s.pool| + |h.quantum|..] == h.urandom
      && t.lastRefresh == s.lastRefresh
      && t == PoolState(s.pool + (h.quantum + h.urandom), s.lastRefresh)
      && (WellFormed(h) ==> |t.pool| == |s.pool| + 2 * ChunkSize)
  {
    var t := Step(s, h, sha3);
    assert t.pool == s.pool + h.quantum + h.urandom;
    assert s.pool + h.quantum + h.urandom == s.pool + (h.quantum + h.urandom);
  }

  /** A pass that whitens leaves exactly the digest of the old pool and both new chunks, stamped now. */
  lemma StepWhitening(s: PoolState, h: Harvest, sha3: Digest256)
    requires Whitens(s.lastRefresh, h.now)
    ensures Step(s, h, sha3) == PoolState(sha3(s.pool + h.quantum + h.urandom), h.now)
    ensures |Step(s, h, sha3).pool| == DigestSize
  {
  }

  /** Exactly five minutes after the last refresh, a pass does not whiten; one microsecond later it does. */
  lemma WhiteningBoundary(s: PoolState, h: Harvest, sha3: Digest256)
    ensures h.now == s.lastRefresh + RefreshInterval ==>
      Step(s, h, sha3) == PoolState(s.pool + h.quantum + h.urandom, s.lastRefresh)
    ensures h.now == s.lastRefresh + RefreshInterval + 1 ==>
      Step(s, h, sha3) == PoolState(sha3(s.pool + h.quantum + h.urandom), h.now)
  {
  }

  /** Once a refresh is due it stays due as the clock advances, until a pass performs it. */
  lemma WhiteningStaysDue(lastRefresh: int, now: int, later: int)
    requires Whitens(lastRefresh, now) && now <= later
    ensures Whitens(lastRefresh, later)
  {
  }

  /**
    The pool after a whitening pass depends only on the prior pool and the
    bytes fed in that pass: not on when the pool was last refreshed.
   */
  lemma WhitenedPoolIsDeterministic(s1: PoolState, s2: PoolState, h1: Harvest, h2: Harvest, sha3: Digest256)
    requires Whitens(s1.lastRefresh, h1.now) && Whitens(s2.lastRefresh, h2.now)
    requires s1.pool == s2.pool && h1.quantum == h2.quantum && h1.urandom == h2.urandom
    ensures Step(s1, h1, sha3).pool == Step(s2, h2, sha3).pool
  {
  }

  // ---------------------------------------------------------------------------
  // Runs of the loop
  // ---------------------------------------------------------------------------

  /**
    Until five minutes have passed, the loop only appends: the pool is the old
    pool followed by every chunk in arrival order, and the refresh time stays.
   */
  lemma {:induction false} ReplayWithoutWhitening(s: PoolState, hs: seq<Harvest>, sha3: Digest256)
    requires forall i :: 0 <= i < |hs| ==> !Whitens(s.lastRefresh, hs[i].now)
    ensures Replay(s, hs, sha3) == PoolState(s.pool + Fed(hs), s.lastRefresh)
  {
    if hs != [] {
      var init := hs[..|hs| - 1];
      var last := hs[|hs| - 1];
      forall i | 0 <= i < |init| ensures !Whitens(s.lastRefresh, init[i].now) {
        assert init[i] == hs[i];
      }
      ReplayWithoutWhitening(s, init, sha3);
      StepWithoutWhitening(Replay(s, init, sha3), last, sha3);
      assert s.pool + (Fed(init) + (last.quantum + last.urandom))
          == (s.pool + Fed(init)) + (last.quantum + last.urandom);
    }
  }

  /**
    Running the loop over hs1 and then hs2 is the same as running it over
    hs1 + hs2: the pool's history is the fold of its passes, whatever the
    point at which one starts observing it.
   */
  lemma {:induction false} ReplaySplit(s: PoolState, hs1: seq<Harvest>, hs2: seq<Harvest>, sha3: Digest256)
    ensures Replay(s, hs1 + hs2, sha3) == Replay(Replay(s, hs1, sha3), hs2, sha3)
    decreases |hs2|
  {
    if hs2 == [] {
      assert hs1 + hs2 == hs1;
    } else {
      var init := hs2[..|hs2| - 1];
      ReplaySplit(s, hs1, init, sha3);
      var all := hs1 + hs2;
      assert all[..|all| - 1] == hs1 + init;
      assert all[|all| - 1] == hs2[|hs2| - 1];
    }
  }

  // ---------------------------------------------------------------------------
  // The harvester object
  // ---------------------------------------------------------------------------

  class EntropyHarvester {
    var pool: seq<Byte>
    var lastRefresh: int

    function State(): PoolState
      reads this
    {
      PoolState(pool, lastRefresh)
    }

    /** `__init__`: an empty pool, refreshed at construction time. */
    constructor (now: int)
      ensures pool == [] && lastRefresh == now
    {
      pool := [];
      lastRefresh := now;
    }

    /** One pass of the `feed` loop body: extend with both chunks, then whiten if due. */
    method FeedStep(h: Harvest, sha3: Digest256)
      modifies this
      ensures State() == Step(old(State()), h, sha3)
      ensures |pool| == old(|pool|) + |h.quantum| + |h.urandom| || |pool| == DigestSize
    {
      pool := pool + h.quantum;
      pool := pool + h.urandom;
      if Whitens(lastRefresh, h.now) {
        pool := sha3(pool);
        lastRefresh := h.now;
      }
    }

    /** The `feed` loop run over a finite sequence of passes. */
    method Feed(hs: seq<Harvest>, sha3: Digest256)
      modifies this
      ensures State() == Replay(old(State()), hs, sha3)
    {
      var i := 0;
      while i < |hs|
        invariant 0 <= i <= |hs|
        invariant State() == Replay(old(State()), hs[..i], sha3)
      {
        assert hs[..i + 1][..i] == hs[..i];
        FeedStep(hs[i], sha3);
        i := i + 1;
      }
      assert hs[..|hs|] == hs;
    }
  }
}

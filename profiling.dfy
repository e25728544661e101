/**
 * The arithmetic of the profiling run: how many dummy sequences are used,
 * how the token budget is split over them, which warm-up LoRA adapter each
 * one gets, how many dummy KV-cache blocks are reserved and the dummy slot
 * mapping that tiles one block's slots over every token.
 */
module Profiling {
  import opened Wrappers
  import opened SeqUtil
  import opened ModelInputs

  /** Block size of the dummy KV cache used by the profiling run. */
  const DummyBlockSize: nat := 128

  /** The path every warm-up LoRA request points at; nothing is loaded from it. */
  const WarmupLoraPath: string := "/not/a/real/path"

  /** The profiling run samples with top-p 0.99 and top-k one below the vocabulary size. */
  const ProfileTopP: real := 0.99

  datatype ProfileError =
    | NoDummyLoras          // `idx % len([])` when LoRA is on with no adapter slots
    | EmptyPrefillBatch     // `max([])` over the prefill sequence lengths
    | MissingAttnMetadata   // the prepared input has no attention metadata to attach to
    | MissingInputTokens    // the prepared input has no token list to size the slots by
    | DummyLayoutUnset      // the dummy cache is asked for before its block layout was set

  // ---------------------------------------------------------------------
  // Integer helpers
  // ---------------------------------------------------------------------

  function Min(a: int, b: int): int { if a <= b then a else b }

  function Max(a: int, b: int): int { if a >= b then a else b }

  /** `math.ceil(a / b)` for non-negative integers: the least multiple count covering `a`. */
  function CeilDiv(a: nat, b: nat): (r: nat)
    requires b > 0
    ensures a <= r * b < a + b
  {
    var r := (a + b - 1) / b;
    assert a + b - 1 == r * b + (a + b - 1) % b;
    r
  }

  lemma MulMonotone(p: nat, q: nat, b: nat)
    requires p <= q
    ensures p * b <= q * b
  {
    assert q * b == p * b + (q - p) * b;
  }

  lemma ModSmall(k: nat, m: nat)
    requires k < m
    ensures k % m == k
  {
  }

  /** The covering count is unique: any `x` with `a <= x * b < a + b` is `CeilDiv(a, b)`. */
  lemma {:induction false} CeilDivUnique(a: nat, b: nat, x: nat)
    requires b > 0
    requires a <= x * b < a + b
    ensures x == CeilDiv(a, b)
  {
    var c := CeilDiv(a, b);
    assert (c + 1) * b == c * b + b;
    assert (x + 1) * b == x * b + b;
    if x > c {
      MulMonotone(c + 1, x, b);
    } else if x < c {
      MulMonotone(x + 1, c, b);
    }
  }

  /** Python's `str` of a non-negative integer: decimal digits, no leading zero. */
  function NatToString(n: nat): (s: string)
    ensures |s| >= 1
    ensures forall i :: 0 <= i < |s| ==> '0' <= s[i] <= '9'
    ensures n >= 10 ==> s[0] != '0'
    decreases n
  {
    if n < 10 then [('0' as int + n) as char]
    else NatToString(n / 10) + [('0' as int + n % 10) as char]
  }

  /** Reading a decimal string back, the inverse of `NatToString`. */
  function ParseDecimal(s: string): int
  {
    if s == [] then 0
    else ParseDecimal(s[..|s| - 1]) * 10 + (s[|s| - 1] as int - '0' as int)
  }

  lemma {:induction false} DecimalRoundTrip(n: nat)
    ensures ParseDecimal(NatToString(n)) == n
    decreases n
  {
    var s := NatToString(n);
    if n < 10 {
      assert s[..|s| - 1] == [];
    } else {
      assert s[..|s| - 1] == NatToString(n / 10);
      DecimalRoundTrip(n / 10);
    }
  }

  /** Distinct group ids give distinct request ids and distinct adapter names. */
  lemma NatToStringInjective(a: nat, b: nat)
    requires a != b
    ensures NatToString(a) != NatToString(b)
  {
    DecimalRoundTrip(a);
    DecimalRoundTrip(b);
  }

  // ---------------------------------------------------------------------
  // Number of dummy sequences
  // ---------------------------------------------------------------------

  /**
   * The multi-modal clamp: with `maxMmTokens > 0` the sequence count is cut
   * to as many sequences as the budget holds multi-modal payloads for, and
   * raised to 1 (the boolean reports the warning) when that is below 1.
   */
  function ProfileSeqCount(maxNumSeqs: nat, budget: nat, maxMmTokens: int): (r: (nat, bool))
    ensures maxMmTokens <= 0 ==> r == (maxNumSeqs, false)
    ensures maxMmTokens > 0 ==> r.0 >= 1
    ensures r.1 <==> maxMmTokens > 0 && (maxNumSeqs == 0 || budget < maxMmTokens)
    ensures r.1 ==> r.0 == 1
    ensures maxMmTokens > 0 && !r.1 ==>
      r.0 <= maxNumSeqs && r.0 * maxMmTokens <= budget
      && (r.0 == maxNumSeqs || budget < (r.0 + 1) * maxMmTokens)
  {
    if maxMmTokens > 0 then
      var fit := budget / maxMmTokens;
      assert budget == fit * maxMmTokens + budget % maxMmTokens;
      assert (fit + 1) * maxMmTokens == fit * maxMmTokens + maxMmTokens;
      var clamped := Min(maxNumSeqs, fit);
      if clamped < 1 then (1, true)
      else
        MulMonotone(clamped, fit, maxMmTokens);
        (clamped, false)
    else (maxNumSeqs, false)
  }

  // ---------------------------------------------------------------------
  // Splitting the token budget
  // ---------------------------------------------------------------------

  /** The length of dummy sequence `i` of `n`: an even share, plus one for the first `budget % n`. */
  function DummySeqLen(budget: nat, n: nat, i: nat): nat
    requires n > 0
  {
    budget / n + (if i < budget % n then 1 else 0)
  }

  /** The lengths of all dummy sequences, in order. */
  function DummySeqLens(budget: nat, n: nat): (r: seq<nat>)
    ensures |r| == n
  {
    seq(n, (i: int) requires 0 <= i < n => DummySeqLen(budget, n, i))
  }

  /** The dummy lengths never increase and stay within one token of each other. */
  lemma DummySeqLensBalanced(budget: nat, n: nat, i: nat, j: nat)
    requires i <= j < n
    ensures var lens := DummySeqLens(budget, n); lens[j] <= lens[i] <= lens[j] + 1
  {
  }

  function Sum(xs: seq<nat>): nat
  {
    if xs == [] then 0 else Sum(xs[..|xs| - 1]) + xs[|xs| - 1]
  }

  /** `max(max_seq_len, seq_len)` folded from 0: at least every entry, and 0 or one of them. */
  function MaxFromZero(xs: seq<nat>): (m: nat)
    ensures forall i :: 0 <= i < |xs| ==> xs[i] <= m
    ensures m == 0 || m in xs
  {
    if xs == [] then 0 else Max(MaxFromZero(xs[..|xs| - 1]), xs[|xs| - 1])
  }

  lemma {:induction false} DummySeqLensPrefixSum(budget: nat, n: nat, k: nat)
    requires 0 < n && k <= n
    ensures Sum(DummySeqLens(budget, n)[..k]) == k * (budget / n) + Min(k, budget % n)
  {
    if k > 0 {
      var lens := DummySeqLens(budget, n);
      var q, rem := budget / n, budget % n;
      assert lens[..k][..k - 1] == lens[..k - 1];
      assert Sum(lens[..k]) == Sum(lens[..k - 1]) + DummySeqLen(budget, n, k - 1);
      DummySeqLensPrefixSum(budget, n, k - 1);
      assert k * q == (k - 1) * q + q;
      assert Min(k, rem) == Min(k - 1, rem) + (if k - 1 < rem then 1 else 0);
    }
  }

  /** The dummy sequences use exactly the whole token budget. */
  lemma DummySeqLensSum(budget: nat, n: nat)
    requires n > 0
    ensures Sum(DummySeqLens(budget, n)) == budget
  {
    var lens := DummySeqLens(budget, n);
    assert lens[..n] == lens;
    DummySeqLensPrefixSum(budget, n, n);
    assert budget == n * (budget / n) + budget % n;
  }

  /** The longest dummy sequence has `ceil(budget / n)` tokens. */
  lemma DummyMaxSeqLen(budget: nat, n: nat)
    requires n > 0
    ensures MaxFromZero(DummySeqLens(budget, n)) == CeilDiv(budget, n)
  {
    var lens := DummySeqLens(budget, n);
    var m := MaxFromZero(lens);
    assert m == lens[0] by {
      if m != 0 {
        var j :| 0 <= j < n && lens[j] == m;
        DummySeqLensBalanced(budget, n, 0, j);
      } else {
        assert lens[0] <= m;
      }
    }
    var q, rem := budget / n, budget % n;
    assert budget == q * n + rem;
    assert (q + 1) * n == q * n + n;
    CeilDivUnique(budget, n, lens[0]);
  }

  // ---------------------------------------------------------------------
  // Warm-up LoRA requests
  // ---------------------------------------------------------------------

  /** The warm-up adapter with id `loraId` (ids start at 1). */
  function DummyLoraRequest(loraId: nat): LoraRequest
  {
    LoraRequest("warmup_" + NatToString(loraId), loraId, WarmupLoraPath)
  }

  function DummyLoraRequests(maxLoras: nat): (r: seq<LoraRequest>)
    ensures |r| == maxLoras
  {
    seq(maxLoras, (idx: int) requires 0 <= idx < maxLoras => DummyLoraRequest(idx + 1))
  }

  /** No two warm-up adapters share a name or an id. */
  lemma DummyLoraRequestsDistinct(maxLoras: nat, i: nat, j: nat)
    requires i < maxLoras && j < maxLoras && i != j
    ensures DummyLoraRequests(maxLoras)[i].loraName != DummyLoraRequests(maxLoras)[j].loraName
    ensures DummyLoraRequests(maxLoras)[i].loraIntId != DummyLoraRequests(maxLoras)[j].loraIntId
  {
    var a, b := NatToString(i + 1), NatToString(j + 1);
    NatToStringInjective(i + 1, j + 1);
    assert ("warmup_" + a)[7..] == a;
    assert ("warmup_" + b)[7..] == b;
  }

  /**
   * The adapter assigned to each of the `maxNumSeqs` (unclamped) sequences,
   * round robin over the warm-up adapters; empty with LoRA off. The modulus
   * by an empty adapter list is the error case.
   */
  function LorasPerSeq(loraEnabled: bool, maxLoras: nat, maxNumSeqs: nat): (r: Result<seq<LoraRequest>, ProfileError>)
    ensures r.Failure? <==> loraEnabled && maxLoras == 0 && maxNumSeqs > 0
    ensures r.Success? ==> |r.value| == if loraEnabled then maxNumSeqs else 0
    ensures r.Success? ==> forall idx :: 0 <= idx < |r.value| ==>
      maxLoras > 0 && r.value[idx].loraIntId == idx % maxLoras + 1
    ensures r.Success? ==> forall idx :: 0 <= idx < |r.value| ==>
      maxLoras > 0 && r.value[idx] == DummyLoraRequests(maxLoras)[idx % maxLoras]
  {
    if !loraEnabled then Success([])
    else if maxNumSeqs == 0 then Success([])
    else if maxLoras == 0 then Failure(NoDummyLoras)
    else
      var loras := DummyLoraRequests(maxLoras);
      Success(seq(maxNumSeqs, (idx: int) requires 0 <= idx < maxNumSeqs => loras[idx % maxLoras]))
  }

  /** With at least as many sequences as adapters, every warm-up adapter is used. */
  lemma {:induction false} RoundRobinCoversAll(maxLoras: nat, maxNumSeqs: nat)
    requires 0 < maxLoras <= maxNumSeqs
    ensures LorasPerSeq(true, maxLoras, maxNumSeqs).Success?
    ensures forall l :: l in LorasPerSeq(true, maxLoras, maxNumSeqs).value <==> l in DummyLoraRequests(maxLoras)
  {
    var loras := DummyLoraRequests(maxLoras);
    assert LorasPerSeq(true, maxLoras, maxNumSeqs).Success?;
    var per := LorasPerSeq(true, maxLoras, maxNumSeqs).value;
    forall l | l in loras ensures l in per {
      var k :| 0 <= k < maxLoras && loras[k] == l;
      ModSmall(k, maxLoras);
      assert per[k] == l;
    }
    forall l | l in per ensures l in loras {
      var k :| 0 <= k < |per| && per[k] == l;
      assert per[k] == loras[k % maxLoras];
    }
  }

  /**
   * The clamped count never indexes past the per-sequence adapter list: it is
   * either empty or at least as long as the number of dummy sequences.
   */
  lemma PerSeqLoraInRange(loraEnabled: bool, maxLoras: nat, maxNumSeqs: nat, budget: nat, maxMmTokens: int)
    requires LorasPerSeq(loraEnabled, maxLoras, maxNumSeqs).Success?
    ensures var per := LorasPerSeq(loraEnabled, maxLoras, maxNumSeqs).value;
      per == [] || ProfileSeqCount(maxNumSeqs, budget, maxMmTokens).0 <= |per|
  {
  }

  // ---------------------------------------------------------------------
  // The dummy batch
  // ---------------------------------------------------------------------

  /** The metadata of dummy sequence group `g`: a prompt with id `str(g)`, no block table. */
  function DummySeqGroup(budget: nat, n: nat, g: nat, vocabSize: int, perSeq: seq<LoraRequest>): SeqGroupMetadata
    requires g < n
    requires perSeq == [] || n <= |perSeq|
  {
    SeqGroupMetadata(
      NatToString(g), true, [g], DummySeqLen(budget, n, g),
      SamplingParams(ProfileTopP, vocabSize - 1), None,
      if perSeq != [] then Some(perSeq[g]) else None)
  }

  /**
   * The loop of the profiling run over the dummy groups: builds each group's
   * metadata and accumulates the total and the longest length. The total is
   * the whole budget, the longest `ceil(budget / n)`.
   */
  method DummyBatch(budget: nat, n: nat, vocabSize: int, perSeq: seq<LoraRequest>)
    returns (seqs: seq<SeqGroupMetadata>, batchSize: nat, maxSeqLen: nat)
    requires perSeq == [] || n <= |perSeq|
    ensures |seqs| == n
    ensures forall g :: 0 <= g < n ==> seqs[g] == DummySeqGroup(budget, n, g, vocabSize, perSeq)
    ensures batchSize == if n == 0 then 0 else budget
    ensures maxSeqLen == if n == 0 then 0 else CeilDiv(budget, n)
  {
    seqs, batchSize, maxSeqLen := [], 0, 0;
    for g := 0 to n
      invariant |seqs| == g
      invariant forall k :: 0 <= k < g ==> seqs[k] == DummySeqGroup(budget, n, k, vocabSize, perSeq)
      invariant batchSize == TokensSoFar(budget, n, g)
      invariant maxSeqLen == LongestSoFar(budget, n, g)
    {
      var seqLen := DummySeqLen(budget, n, g);
      DummyBatchStep(budget, n, g);
      batchSize := batchSize + seqLen;
      maxSeqLen := Max(maxSeqLen, seqLen);
      seqs := seqs + [DummySeqGroup(budget, n, g, vocabSize, perSeq)];
    }
    DummyBatchTotals(budget, n);
  }

  /** The tokens of the first `g` dummy sequences. */
  function TokensSoFar(budget: nat, n: nat, g: nat): nat
    requires g <= n
  {
    Sum(DummySeqLens(budget, n)[..g])
  }

  /** The longest of the first `g` dummy sequences, or 0. */
  function LongestSoFar(budget: nat, n: nat, g: nat): nat
    requires g <= n
  {
    MaxFromZero(DummySeqLens(budget, n)[..g])
  }

  /** One step of `DummyBatch`: the running total and maximum take in sequence `g`. */
  lemma DummyBatchStep(budget: nat, n: nat, g: nat)
    requires g < n
    ensures TokensSoFar(budget, n, g + 1) == TokensSoFar(budget, n, g) + DummySeqLen(budget, n, g)
    ensures LongestSoFar(budget, n, g + 1) == Max(LongestSoFar(budget, n, g), DummySeqLen(budget, n, g))
  {
    var lens := DummySeqLens(budget, n);
    assert lens[..g + 1][..g] == lens[..g];
  }

  /** After all `n` sequences the total is the budget and the maximum its ceiling share. */
  lemma DummyBatchTotals(budget: nat, n: nat)
    ensures TokensSoFar(budget, n, n) == if n == 0 then 0 else budget
    ensures LongestSoFar(budget, n, n) == if n == 0 then 0 else CeilDiv(budget, n)
  {
    var lens := DummySeqLens(budget, n);
    assert lens[..n] == lens;
    if n > 0 {
      DummySeqLensSum(budget, n);
      DummyMaxSeqLen(budget, n);
    }
  }

  /** Dummy groups carry pairwise distinct request ids, all prompts. */
  lemma DummySeqGroupIds(budget: nat, n: nat, vocabSize: int, perSeq: seq<LoraRequest>, g: nat, h: nat)
    requires g < n && h < n && g != h
    requires perSeq == [] || n <= |perSeq|
    ensures DummySeqGroup(budget, n, g, vocabSize, perSeq).requestId
         != DummySeqGroup(budget, n, h, vocabSize, perSeq).requestId
    ensures DummySeqGroup(budget, n, g, vocabSize, perSeq).isPrompt
  {
    NatToStringInjective(g, h);
  }

  /** `dummy_block_num`: enough 128-slot blocks for every dummy sequence at the longest length. */
  function DummyBlockNum(n: nat, maxSeqLen: nat): nat
  {
    n * CeilDiv(maxSeqLen, DummyBlockSize)
  }

  /** The reserved blocks hold `n` sequences of the longest length, hence the whole budget. */
  lemma DummyBlocksCoverBudget(budget: nat, n: nat)
    requires n > 0
    ensures n * CeilDiv(budget, n) >= budget
    ensures DummyBlockNum(n, CeilDiv(budget, n)) * DummyBlockSize >= n * CeilDiv(budget, n)
  {
    var m := CeilDiv(budget, n);
    var c := CeilDiv(m, DummyBlockSize);
    assert c * DummyBlockSize >= m;
    MulMonotone(m, c * DummyBlockSize, n);
    assert DummyBlockNum(n, m) * DummyBlockSize == n * (c * DummyBlockSize);
  }

  // ---------------------------------------------------------------------
  // Dummy KV-cache layout
  // ---------------------------------------------------------------------

  /**
   * The dummy slot mapping: the `while warm_up_len > 0` loop appends whole
   * blocks of slots 0..127 and then the truncated last block, so token `i`
   * lands in slot `i % 128`.
   */
  method DummySlotMapping(numTokens: nat) returns (slots: seq<int>)
    ensures |slots| == numTokens
    ensures forall i :: 0 <= i < numTokens ==> slots[i] == i % DummyBlockSize
  {
    var slot := seq(DummyBlockSize, (i: int) => i);
    slots := [];
    var warmUpLen: nat := numTokens;
    while warmUpLen > 0
      invariant |slots| + warmUpLen == numTokens
      invariant |slots| % DummyBlockSize == 0 || warmUpLen == 0
      invariant forall i :: 0 <= i < |slots| ==> slots[i] == i % DummyBlockSize
    {
      if warmUpLen > DummyBlockSize {
        SlotTile(slots, slot, DummyBlockSize);
        slots := slots + slot;
        warmUpLen := warmUpLen - DummyBlockSize;
      } else {
        SlotTile(slots, slot, warmUpLen);
        slots := slots + slot[..warmUpLen];
        warmUpLen := 0;
      }
    }
  }

  lemma SlotTile(slots: seq<int>, slot: seq<int>, k: nat)
    requires |slots| % DummyBlockSize == 0
    requires forall i :: 0 <= i < |slots| ==> slots[i] == i % DummyBlockSize
    requires slot == seq(DummyBlockSize, (i: int) => i) && k <= DummyBlockSize
    ensures forall i :: 0 <= i < |slots| + k ==> (slots + slot[..k])[i] == i % DummyBlockSize
  {
    forall i | |slots| <= i < |slots| + k
      ensures (slots + slot[..k])[i] == i % DummyBlockSize
    {
      var t := |slots| / DummyBlockSize;
      assert |slots| == t * DummyBlockSize;
      assert i == t * DummyBlockSize + (i - |slots|);
    }
  }

  /** The dummy block table: one all-zero row of `cols` entries per sequence. */
  function ZeroBlockTable(rows: nat, cols: nat): (r: seq<seq<int>>)
    ensures |r| == rows
    ensures forall i :: 0 <= i < rows ==> |r[i]| == cols && forall j :: 0 <= j < cols ==> r[i][j] == 0
  {
    seq(rows, _ => Zeros(cols))
  }
}

/**
 * What `build` promises about its output, stated over the specification
 * functions of the `Builder` module.
 */
module BuilderProperties {
  import opened Wrappers
  import opened SeqUtil
  import opened ModelInputs
  import opened InterDataModel
  import opened Builder

  // ---------------------------------------------------------------------------
  // Flat lists
  // ---------------------------------------------------------------------------

  /** Gathering two batches one after the other is gathering their concatenation. */
  lemma GatherAppend<T>(xs: seq<SeqGroupState>, ys: seq<SeqGroupState>, f: SeqGroupState -> seq<T>)
    ensures Gather(xs + ys, f) == Gather(xs, f) + Gather(ys, f)
  {
    var a := seq(|xs|, i requires 0 <= i < |xs| => f(xs[i]));
    var b := seq(|ys|, i requires 0 <= i < |ys| => f(ys[i]));
    assert seq(|xs + ys|, i requires 0 <= i < |xs + ys| => f((xs + ys)[i])) == a + b;
    FlattenAppend(a, b);
  }

  /** The token list is every record's tokens in order: a batch split in two gives the two halves. */
  lemma TokensInOrder(xs: seq<SeqGroupState>, ys: seq<SeqGroupState>)
    ensures Tokens(xs + ys) == Tokens(xs) + Tokens(ys)
  {
    GatherAppend(xs, ys, TokensOf);
  }

  /** The token list is as long as all sub-sequence token lists together. */
  lemma {:induction false} TokensLength(rs: seq<SeqGroupState>)
    ensures |Tokens(rs)| == TokenCount(rs)
  {
    if rs != [] {
      var n := |rs| - 1;
      TokensLength(rs[..n]);
      GatherPrefixStep(rs, TokensOf, n);
      assert rs[..n + 1] == rs;
      FlattenLength(rs[n].lists.inputTokens);
    }
  }

  /** `seq_lens` and `query_lens` keep the records' order. */
  lemma LensInOrder(xs: seq<SeqGroupState>, ys: seq<SeqGroupState>)
    ensures AllSeqLens(xs + ys) == AllSeqLens(xs) + AllSeqLens(ys)
    ensures AllQueryLens(xs + ys) == AllQueryLens(xs) + AllQueryLens(ys)
  {
    GatherAppend(xs, ys, SeqLensOf);
    GatherAppend(xs, ys, QueryLensOf);
  }

  // ---------------------------------------------------------------------------
  // Request map, decode maximum, adapters
  // ---------------------------------------------------------------------------

  /** The map has one key per record's request id and no other. */
  lemma {:induction false} RequestMapKeys(rs: seq<SeqGroupState>)
    ensures RequestMap(rs).Keys == set i | 0 <= i < |rs| :: rs[i].info.requestId
  {
    if rs != [] {
      var n := |rs| - 1;
      RequestMapKeys(rs[..n]);
      assert forall i :: 0 <= i < n ==> rs[..n][i] == rs[i];
    }
  }

  /** A request id maps to the `seq_ids` of the last record carrying it. */
  lemma {:induction false} RequestMapLastWins(rs: seq<SeqGroupState>, i: nat)
    requires i < |rs|
    requires forall j :: i < j < |rs| ==> rs[j].info.requestId != rs[i].info.requestId
    ensures rs[i].info.requestId in RequestMap(rs)
    ensures RequestMap(rs)[rs[i].info.requestId] == rs[i].info.seqIds
  {
    var n := |rs| - 1;
    if i < n {
      RequestMapLastWins(rs[..n], i);
    }
  }

  /**
   * `max_decode_seq_len` is 0 or one of the decode records' `seq_lens`, and no
   * decode record's `seq_lens` entry exceeds it.
   */
  lemma {:induction false} MaxDecodeSeqLenIsMax(rs: seq<SeqGroupState>)
    requires DecodeSeqLensPresent(rs)
    ensures forall i, k :: 0 <= i < |rs| && !rs[i].info.isPrompt && 0 <= k < |rs[i].lists.seqLens| ==>
              rs[i].lists.seqLens[k] <= MaxDecodeSeqLen(rs)
    ensures MaxDecodeSeqLen(rs) == 0 ||
              exists i :: 0 <= i < |rs| && !rs[i].info.isPrompt && MaxDecodeSeqLen(rs) in rs[i].lists.seqLens
  {
    if rs != [] {
      var n := |rs| - 1;
      assert DecodeSeqLensPresent(rs[..n]);
      MaxDecodeSeqLenIsMax(rs[..n]);
      assert forall i :: 0 <= i < n ==> rs[..n][i] == rs[i];
    }
  }

  /** With no decode record the maximum stays at its starting value 0. */
  lemma {:induction false} MaxDecodeSeqLenNoDecode(rs: seq<SeqGroupState>)
    requires forall i :: 0 <= i < |rs| ==> rs[i].info.isPrompt
    ensures DecodeSeqLensPresent(rs) && MaxDecodeSeqLen(rs) == 0
  {
    if rs != [] {
      MaxDecodeSeqLenNoDecode(rs[..|rs| - 1]);
    }
  }

  /** `lora_requests`: exactly the requests some record carries. */
  lemma {:induction false} LoraUnionMembers(rs: seq<SeqGroupState>, x: LoraRequest)
    ensures x in LoraUnion(rs) <==> exists i :: 0 <= i < |rs| && x in rs[i].adapters.loraRequests
  {
    if rs != [] {
      var n := |rs| - 1;
      LoraUnionMembers(rs[..n], x);
      assert forall i :: 0 <= i < n ==> rs[..n][i] == rs[i];
    }
  }

  /** `prompt_adapter_requests`: exactly the non-`None` requests of the records. */
  lemma {:induction false} PromptAdapterSetMembers(rs: seq<SeqGroupState>, x: PromptAdapterRequest)
    ensures x in PromptAdapterSet(rs) <==> exists i :: 0 <= i < |rs| && rs[i].extras.promptAdapterRequest == Some(x)
  {
    if rs != [] {
      var n := |rs| - 1;
      PromptAdapterSetMembers(rs[..n], x);
      assert forall i :: 0 <= i < n ==> rs[..n][i] == rs[i];
    }
  }

  /** The multi-modal batch holds the records' non-`None` payloads in order. */
  lemma {:induction false} MultiModalItemsInOrder(xs: seq<SeqGroupState>, ys: seq<SeqGroupState>)
    ensures MultiModalItems(xs + ys) == MultiModalItems(xs) + MultiModalItems(ys)
    decreases |ys|
  {
    if ys == [] {
      assert xs + ys == xs;
    } else {
      var n := |ys| - 1;
      assert (xs + ys)[..|xs + ys| - 1] == xs + ys[..n];
      MultiModalItemsInOrder(xs, ys[..n]);
    }
  }

  /** Each record's payload, when present, is an item of the batch. */
  lemma {:induction false} MultiModalItemsMembers(rs: seq<SeqGroupState>, x: MultiModalKwargs)
    ensures x in MultiModalItems(rs) <==> exists i :: 0 <= i < |rs| && rs[i].extras.multiModalKwargs == Some(x)
  {
    if rs != [] {
      var n := |rs| - 1;
      MultiModalItemsMembers(rs[..n], x);
      assert forall i :: 0 <= i < n ==> rs[..n][i] == rs[i];
    }
  }

  // ---------------------------------------------------------------------------
  // Rotary positions
  // ---------------------------------------------------------------------------

  /** Sum over the lists of their lengths after right padding to `m`. */
  function PaddedTotal(pss: seq<seq<int>>, m: int): nat
  {
    if pss == [] then 0
    else PaddedTotal(pss[..|pss| - 1], m) + (if |pss[|pss| - 1]| < m then m else |pss[|pss| - 1]|)
  }

  /** Every padded list has length `max(own length, m)`, so the flattened whole has their sum. */
  lemma {:induction false} PadEachLength(pss: seq<seq<int>>, m: int)
    ensures |Flatten(PadEach(pss, m))| == PaddedTotal(pss, m)
  {
    if pss != [] {
      var n := |pss| - 1;
      PadEachLength(pss[..n], m);
      assert PadEach(pss, m)[..n] == PadEach(pss[..n], m);
    }
  }

  /**
   * A record without rotary axes gives all three axes the same padded
   * positions; one with them gives axis `idx` its own padded axis `idx`. In
   * both cases each sub-sequence adds `max(own length, m)` entries.
   */
  lemma ContributionShape(l: PerSeqLists, idx: nat, m: int)
    requires idx < 3 && MropeAxesPresent(l)
    ensures l.mropeInputPositions.None? ==>
              Contribution(l, idx, m) == Contribution(l, 0, m) &&
              |Contribution(l, idx, m)| == PaddedTotal(l.inputPositions, m)
    ensures l.mropeInputPositions.Some? ==>
              |Contribution(l, idx, m)| == PaddedTotal(AxisOf(l.mropeInputPositions.value, idx), m)
  {
    match l.mropeInputPositions
    case None => PadEachLength(l.inputPositions, m);
    case Some(ms) => PadEachLength(AxisOf(ms, idx), m);
  }

  /**
   * After the three passes a record without rotary axes has every position
   * list padded to `m`; one with rotary axes has axes 0, 1 and 2 of every
   * sub-sequence padded to `m` and any further axis untouched. Nothing else in
   * its lists changes.
   */
  lemma PassesPadEveryAxis(l: PerSeqLists, m: int)
    requires MropeAxesPresent(l)
    ensures Passed(l, 3, m).mropeInputPositions.None? == l.mropeInputPositions.None?
    ensures l.mropeInputPositions.None? ==> Passed(l, 3, m) == l.(inputPositions := PadEach(l.inputPositions, m))
    ensures l.mropeInputPositions.Some? ==>
              var ms := l.mropeInputPositions.value;
              var ms' := Passed(l, 3, m).mropeInputPositions.value;
              && Passed(l, 3, m) == l.(mropeInputPositions := Some(ms'))
              && |ms'| == |ms|
              && forall s :: 0 <= s < |ms| ==>
                   |ms'[s]| == |ms[s]| &&
                   forall k :: 0 <= k < |ms[s]| ==> ms'[s][k] == if k < 3 then PadTo(ms[s][k], m) else ms[s][k]
  {
    var p1 := PadPass(l, 0, m);
    var p2 := PadPass(p1, 1, m);
    assert Passed(l, 1, m) == p1;
    assert Passed(l, 2, m) == p2;
    assert Passed(l, 3, m) == PadPass(p2, 2, m);
    if l.mropeInputPositions.None? {
      PadEachIdempotent(l.inputPositions, m);
    }
  }

  // ---------------------------------------------------------------------------
  // A mixed batch
  // ---------------------------------------------------------------------------

  /** A batch whose lookups succeed builds its position data as `PositionsOf` says. */
  lemma BuildPositionsOf(rs: seq<SeqGroupState>, cfg: BuilderConfig)
    requires rs != [] && AllMropeAxesPresent(rs) && (AnyMrope(rs) ==> FirstPositionsPresent(rs))
    requires DecodeSeqLensPresent(rs)
    ensures BuildSpec(rs, cfg).Success?
    ensures BuildSpec(rs, cfg).value.inputPositions == Some(PositionsOf(rs))
  {
  }

  /** A single position list padded to 5 entries, flattened. */
  lemma PadOneTo5(p: seq<int>)
    requires |p| <= 5
    ensures Flatten(PadEach([p], 5)) == p + Zeros(5 - |p|)
  {
    assert PadEach([p], 5) == [p + Zeros(5 - |p|)];
    assert Flatten([p + Zeros(5 - |p|)]) == Flatten([]) + (p + Zeros(5 - |p|));
  }

  /** Axis `idx` of the batch of `MixedBatchPositions`: `p`, then `w`, the decode record's axis `idx`, then zeros. */
  lemma MixedBatchAxis(a: PerSeqLists, b: PerSeqLists, p: seq<int>, sub: seq<seq<int>>, idx: nat)
    requires a.inputPositions == [p] && |p| == 5 && a.mropeInputPositions == None
    requires b.mropeInputPositions == Some([sub]) && |sub| == 3 && idx < 3 && |sub[idx]| == 1
    ensures MropeAxesPresent(a) && MropeAxesPresent(b)
    ensures Axis([a, b], idx, 5) == p + sub[idx] + [0, 0, 0, 0]
  {
    var w := sub[idx];
    PadOneTo5(p);
    assert Zeros(0) == [];
    assert Contribution(a, idx, 5) == p;
    assert AxisOf([sub], idx) == [w];
    PadOneTo5(w);
    assert Zeros(4) == [0, 0, 0, 0];
    assert Contribution(b, idx, 5) == w + [0, 0, 0, 0];
    assert Contributions([a, b], idx, 5) == [p] + [w + [0, 0, 0, 0]];
    FlattenAppend([p], [w + [0, 0, 0, 0]]);
    assert Flatten([p]) == Flatten([]) + p;
    assert Flatten([w + [0, 0, 0, 0]]) == Flatten([]) + (w + [0, 0, 0, 0]);
  }

  /** The three axes of the batch of `MixedBatchPositions`. */
  lemma MixedBatchAxes(a: PerSeqLists, b: PerSeqLists, p: seq<int>, sub: seq<seq<int>>)
    requires a.inputPositions == [p] && |p| == 5 && a.mropeInputPositions == None
    requires b.mropeInputPositions == Some([sub]) && |sub| == 3
    requires forall k :: 0 <= k < 3 ==> |sub[k]| == 1
    ensures MropeAxesPresent(a) && MropeAxesPresent(b)
    ensures MropeAxes([a, b], 5) == [p + sub[0] + [0, 0, 0, 0], p + sub[1] + [0, 0, 0, 0], p + sub[2] + [0, 0, 0, 0]]
  {
    MixedBatchAxis(a, b, p, sub, 0);
    MixedBatchAxis(a, b, p, sub, 1);
    MixedBatchAxis(a, b, p, sub, 2);
  }

  /** With rotary axes somewhere in the batch, the position data are its three rotary axes. */
  lemma PositionsOfThreeAxes(rs: seq<SeqGroupState>)
    requires rs != [] && AllMropeAxesPresent(rs) && AnyMrope(rs) && FirstPositionsPresent(rs)
    ensures PositionsOf(rs) == ThreeAxis(MropeAxes(ListsOf(rs), MaxPosLen(rs)))
  {
  }

  /** `max_pos_len` of two records is the larger of their first position counts. */
  lemma MaxPosLenOfTwo(a: SeqGroupState, b: SeqGroupState)
    requires a.lists.inputPositions != [] && b.lists.inputPositions != []
    ensures FirstPositionsPresent([a, b])
    ensures var la, lb := |a.lists.inputPositions[0]|, |b.lists.inputPositions[0]|;
            MaxPosLen([a, b]) == if la < lb then lb else la
  {
    assert FirstPositionLens([a, b]) == [|a.lists.inputPositions[0]|, |b.lists.inputPositions[0]|];
  }

  /**
   * A prefill record whose one sub-sequence has the five positions `p` and no
   * rotary axes, followed by a decode record whose one sub-sequence has one
   * position and one-entry rotary axes `sub`: `max_pos_len` is 5, and the
   * decode record's axes are padded to 5 as well, so each of the three axes
   * has 10 entries: `p`, then the decode record's own axis entry, then four
   * zeros.
   */
  lemma MixedBatchPositions(a: SeqGroupState, b: SeqGroupState, p: seq<int>, sub: seq<seq<int>>)
    requires a.lists.inputPositions == [p] && |p| == 5 && a.lists.mropeInputPositions == None
    requires |b.lists.inputPositions| == 1 && |b.lists.inputPositions[0]| == 1
    requires b.lists.mropeInputPositions == Some([sub]) && |sub| == 3
    requires forall k :: 0 <= k < 3 ==> |sub[k]| == 1
    ensures AllMropeAxesPresent([a, b]) && AnyMrope([a, b]) && FirstPositionsPresent([a, b])
    ensures PositionsOf([a, b]) == ThreeAxis([p + sub[0] + [0, 0, 0, 0], p + sub[1] + [0, 0, 0, 0], p + sub[2] + [0, 0, 0, 0]])
  {
    var rs := [a, b];
    assert AnyMrope(rs) by {
      assert rs[1].lists.mropeInputPositions.Some?;
    }
    MaxPosLenOfTwo(a, b);
    assert MaxPosLen(rs) == 5;
    PositionsOfThreeAxes(rs);
    assert ListsOf(rs) == [a.lists, b.lists];
    MixedBatchAxes(a.lists, b.lists, p, sub);
  }
}

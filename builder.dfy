/**
 * `ModelInputForNPUBuilder.build`: folds the ordered per-request records into
 * one model input. Tokens and single-axis positions are flattened in order;
 * when any record carries rotary axes ("mrope") every record is expanded to
 * three axes, each sub-sequence right-padded with zeros to the first
 * sub-sequence's position count maximised over the records, and the padding
 * is written back into the records.
 */
module Builder {
  import opened Wrappers
  import opened SeqUtil
  import opened ModelInputs
  import opened InterDataModel

  /** The builder's own settings that `build` reads. */
  datatype BuilderConfig = BuilderConfig(
    enableLora: bool,
    enablePromptAdapter: bool,
    decodeOnly: bool,
    finishedRequestsIds: Option<seq<string>>)

  /**
   * The exceptions `build` lets escape: an `IndexError` from reading the first
   * position list of a record that has none, and a `ValueError` from `max` of
   * the empty `seq_lens` of a decode record.
   */
  datatype BuildError = PositionIndexError | EmptyDecodeSeqLens

  // ---------------------------------------------------------------------------
  // Flat lists
  // ---------------------------------------------------------------------------

  /** `flatten_2d_lists([f(d) for d in records])`: each record's list, in order. */
  function Gather<T>(rs: seq<SeqGroupState>, f: SeqGroupState -> seq<T>): seq<T>
  {
    Flatten(seq(|rs|, i requires 0 <= i < |rs| => f(rs[i])))
  }

  /** A record's tokens: its sub-sequences' token lists, in order. */
  function TokensOf(r: SeqGroupState): seq<int>
  {
    Flatten(r.lists.inputTokens)
  }

  /** A record's single-axis positions: its sub-sequences' position lists, in order. */
  function PositionsOfRecord(r: SeqGroupState): seq<int>
  {
    Flatten(r.lists.inputPositions)
  }

  function SeqLensOf(r: SeqGroupState): seq<int>
  {
    r.lists.seqLens
  }

  function QueryLensOf(r: SeqGroupState): seq<int>
  {
    r.lists.queryLens
  }

  function LoraIndexOf(r: SeqGroupState): seq<int>
  {
    Flatten(r.adapters.loraIndexMapping)
  }

  function LoraPromptOf(r: SeqGroupState): seq<int>
  {
    Flatten(r.adapters.loraPromptMapping)
  }

  function PromptAdapterIndexOf(r: SeqGroupState): seq<int>
  {
    r.adapters.promptAdapterIndexMapping
  }

  function PromptAdapterPromptOf(r: SeqGroupState): seq<int>
  {
    r.adapters.promptAdapterPromptMapping
  }

  /** The batch's tokens. */
  function Tokens(rs: seq<SeqGroupState>): seq<int>
  {
    Gather(rs, TokensOf)
  }

  /** Sum over the records of their sub-sequence token counts. */
  function TokenCount(rs: seq<SeqGroupState>): nat
  {
    if rs == [] then 0 else TokenCount(rs[..|rs| - 1]) + TotalLen(rs[|rs| - 1].lists.inputTokens)
  }

  /** The single-axis positions. */
  function FlatPositions(rs: seq<SeqGroupState>): seq<int>
  {
    Gather(rs, PositionsOfRecord)
  }

  /** `seq_lens`: the records' `seq_lens` lists, concatenated in order. */
  function AllSeqLens(rs: seq<SeqGroupState>): seq<int>
  {
    Gather(rs, SeqLensOf)
  }

  /** `query_lens`: the records' `query_lens` lists, concatenated in order. */
  function AllQueryLens(rs: seq<SeqGroupState>): seq<int>
  {
    Gather(rs, QueryLensOf)
  }

  /** Every decode record has a non-empty `seq_lens`, so `max` of it is defined. */
  predicate DecodeSeqLensPresent(rs: seq<SeqGroupState>)
  {
    forall i :: 0 <= i < |rs| && !rs[i].info.isPrompt ==> rs[i].lists.seqLens != []
  }

  /** `max_decode_seq_len`: the running maximum over decode records of `max(seq_lens)`, from 0. */
  function MaxDecodeSeqLen(rs: seq<SeqGroupState>): int
    requires DecodeSeqLensPresent(rs)
  {
    if rs == [] then 0
    else
      var prev := MaxDecodeSeqLen(rs[..|rs| - 1]);
      var last := rs[|rs| - 1];
      if last.info.isPrompt then prev
      else if MaxOf(last.lists.seqLens) > prev then MaxOf(last.lists.seqLens) else prev
  }

  /** `{data.request_id: data.seq_ids for data in ...}`: a later record overrides an earlier one. */
  function RequestMap(rs: seq<SeqGroupState>): map<string, seq<int>>
  {
    if rs == [] then map[]
    else RequestMap(rs[..|rs| - 1])[rs[|rs| - 1].info.requestId := rs[|rs| - 1].info.seqIds]
  }

  // ---------------------------------------------------------------------------
  // Adapters and multi-modal payloads
  // ---------------------------------------------------------------------------

  /** The union of the records' LoRA request sets. */
  function LoraUnion(rs: seq<SeqGroupState>): set<LoraRequest>
  {
    if rs == [] then {} else LoraUnion(rs[..|rs| - 1]) + rs[|rs| - 1].adapters.loraRequests
  }

  /** The records' prompt-adapter requests, `None` left out. */
  function PromptAdapterSet(rs: seq<SeqGroupState>): set<PromptAdapterRequest>
  {
    if rs == [] then {}
    else
      var last := rs[|rs| - 1].extras.promptAdapterRequest;
      PromptAdapterSet(rs[..|rs| - 1]) + (if last.Some? then {last.value} else {})
  }

  /** The records' multi-modal payloads, `None` left out, in order. */
  function MultiModalItems(rs: seq<SeqGroupState>): seq<MultiModalKwargs>
  {
    if rs == [] then []
    else
      var last := rs[|rs| - 1].extras.multiModalKwargs;
      MultiModalItems(rs[..|rs| - 1]) + (if last.Some? then [last.value] else [])
  }

  /** The LoRA mapping when LoRA is enabled: both mappings flattened twice, prefill unless decode-only. */
  function LoraMappingOf(rs: seq<SeqGroupState>, cfg: BuilderConfig): Option<LoraMapping>
  {
    if !cfg.enableLora then None
    else Some(LoraMapping(Gather(rs, LoraIndexOf), Gather(rs, LoraPromptOf), !cfg.decodeOnly))
  }

  /** The prompt-adapter mapping when prompt adapters are enabled: both mappings flattened. */
  function PromptAdapterMappingOf(rs: seq<SeqGroupState>, cfg: BuilderConfig): Option<PromptAdapterMapping>
  {
    if !cfg.enablePromptAdapter then None
    else Some(PromptAdapterMapping(Gather(rs, PromptAdapterIndexOf), Gather(rs, PromptAdapterPromptOf)))
  }

  // ---------------------------------------------------------------------------
  // Rotary ("mrope") positions
  // ---------------------------------------------------------------------------

  /** Some record carries rotary axes, so the whole batch uses three axes. */
  predicate AnyMrope(rs: seq<SeqGroupState>)
  {
    exists i :: 0 <= i < |rs| && rs[i].lists.mropeInputPositions.Some?
  }

  /** Every sub-sequence of a record's rotary array has the three axes the padding loop indexes. */
  predicate MropeAxesPresent(l: PerSeqLists)
  {
    l.mropeInputPositions.Some? ==>
      forall s :: 0 <= s < |l.mropeInputPositions.value| ==> 3 <= |l.mropeInputPositions.value[s]|
  }

  predicate AllMropeAxesPresent(rs: seq<SeqGroupState>)
  {
    forall i :: 0 <= i < |rs| ==> MropeAxesPresent(rs[i].lists)
  }

  /** `input_positions[0]` exists for every record. */
  predicate FirstPositionsPresent(rs: seq<SeqGroupState>)
  {
    forall i :: 0 <= i < |rs| ==> rs[i].lists.inputPositions != []
  }

  /** `[len(d.input_positions[0]) for d in ...]` */
  function FirstPositionLens(rs: seq<SeqGroupState>): (r: seq<int>)
    requires FirstPositionsPresent(rs)
    ensures |r| == |rs| && forall i :: 0 <= i < |rs| ==> r[i] == |rs[i].lists.inputPositions[0]|
  {
    seq(|rs|, i requires 0 <= i < |rs| && FirstPositionsPresent(rs) => |rs[i].lists.inputPositions[0]|)
  }

  /** `max_pos_len`: only each record's first sub-sequence is measured. */
  function MaxPosLen(rs: seq<SeqGroupState>): int
    requires rs != [] && FirstPositionsPresent(rs)
  {
    MaxOf(FirstPositionLens(rs))
  }

  /** Each list right-padded with zeros to `m`. */
  function PadEach(pss: seq<seq<int>>, m: int): (r: seq<seq<int>>)
    ensures |r| == |pss| && forall s :: 0 <= s < |pss| ==> r[s] == PadTo(pss[s], m)
  {
    seq(|pss|, s requires 0 <= s < |pss| => PadTo(pss[s], m))
  }

  /** Axis `idx` of every sub-sequence's rotary array. */
  function AxisOf(ms: seq<seq<seq<int>>>, idx: nat): (r: seq<seq<int>>)
    requires forall s :: 0 <= s < |ms| ==> idx < |ms[s]|
    ensures |r| == |ms| && forall s :: 0 <= s < |ms| ==> r[s] == ms[s][idx]
  {
    seq(|ms|, s requires 0 <= s < |ms| && idx < |ms[s]| => ms[s][idx])
  }

  /** One sub-sequence's rotary array with axis `idx` right-padded to `m`. */
  function PadSubAxis(sub: seq<seq<int>>, idx: nat, m: int): seq<seq<int>>
    requires idx < |sub|
  {
    sub[idx := PadTo(sub[idx], m)]
  }

  /** Every sub-sequence's rotary array with axis `idx` right-padded to `m`. */
  function PadAxis(ms: seq<seq<seq<int>>>, idx: nat, m: int): (r: seq<seq<seq<int>>>)
    requires forall s :: 0 <= s < |ms| ==> idx < |ms[s]|
    ensures |r| == |ms| && forall s :: 0 <= s < |ms| ==> r[s] == PadSubAxis(ms[s], idx, m)
  {
    seq(|ms|, s requires 0 <= s < |ms| && idx < |ms[s]| => PadSubAxis(ms[s], idx, m))
  }

  /**
   * What one record appends to axis `idx`: without rotary axes its padded
   * position lists, the same for every axis; with them, axis `idx` of each
   * sub-sequence, padded.
   */
  function Contribution(l: PerSeqLists, idx: nat, m: int): seq<int>
    requires idx < 3 && MropeAxesPresent(l)
  {
    match l.mropeInputPositions
    case None => Flatten(PadEach(l.inputPositions, m))
    case Some(ms) => Flatten(PadEach(AxisOf(ms, idx), m))
  }

  /** Every record's contribution to axis `idx`, in order. */
  function Contributions(ls: seq<PerSeqLists>, idx: nat, m: int): (r: seq<seq<int>>)
    requires idx < 3 && forall i :: 0 <= i < |ls| ==> MropeAxesPresent(ls[i])
    ensures |r| == |ls| && forall i :: 0 <= i < |ls| ==> r[i] == Contribution(ls[i], idx, m)
  {
    seq(|ls|, i requires 0 <= i < |ls| && idx < 3 && MropeAxesPresent(ls[i]) => Contribution(ls[i], idx, m))
  }

  /** Rotary axis `idx` of the batch. */
  function Axis(ls: seq<PerSeqLists>, idx: nat, m: int): seq<int>
    requires idx < 3 && forall i :: 0 <= i < |ls| ==> MropeAxesPresent(ls[i])
  {
    Flatten(Contributions(ls, idx, m))
  }

  /** A record's lists after pass `idx` of the padding loop, which pads the lists it reads in place. */
  function PadPass(l: PerSeqLists, idx: nat, m: int): (r: PerSeqLists)
    requires idx < 3 && MropeAxesPresent(l)
    ensures MropeAxesPresent(r)
  {
    match l.mropeInputPositions
    case None => l.(inputPositions := PadEach(l.inputPositions, m))
    case Some(ms) => l.(mropeInputPositions := Some(PadAxis(ms, idx, m)))
  }

  /** A record's lists after the first `n` passes. */
  function Passed(l: PerSeqLists, n: nat, m: int): (r: PerSeqLists)
    requires n <= 3 && MropeAxesPresent(l)
    ensures MropeAxesPresent(r)
  {
    if n == 0 then l else PadPass(Passed(l, n - 1, m), n - 1, m)
  }

  /** The lists of every record of a batch. */
  function ListsOf(rs: seq<SeqGroupState>): (r: seq<PerSeqLists>)
    ensures |r| == |rs| && forall i :: 0 <= i < |rs| ==> r[i] == rs[i].lists
  {
    seq(|rs|, i requires 0 <= i < |rs| => rs[i].lists)
  }

  /** The three rotary axes of a batch. */
  function MropeAxes(ls: seq<PerSeqLists>, m: int): (r: seq<seq<int>>)
    requires forall i :: 0 <= i < |ls| ==> MropeAxesPresent(ls[i])
    ensures |r| == 3 && forall idx :: 0 <= idx < 3 ==> r[idx] == Axis(ls, idx, m)
  {
    [Axis(ls, 0, m), Axis(ls, 1, m), Axis(ls, 2, m)]
  }

  /** The position data of a batch whose position lookups succeed. */
  function PositionsOf(rs: seq<SeqGroupState>): Positions
    requires rs != [] && AllMropeAxesPresent(rs)
    requires AnyMrope(rs) ==> FirstPositionsPresent(rs)
  {
    if AnyMrope(rs) then ThreeAxis(MropeAxes(ListsOf(rs), MaxPosLen(rs)))
    else SingleAxis(FlatPositions(rs))
  }

  /**
   * The records' lists as `build` leaves them: padded in place when the batch
   * uses three axes. Nothing else of a record changes.
   */
  function ListsAfterBuild(rs: seq<SeqGroupState>): (r: seq<PerSeqLists>)
    requires AllMropeAxesPresent(rs)
    ensures |r| == |rs|
  {
    if rs != [] && AnyMrope(rs) && FirstPositionsPresent(rs) then
      var m := MaxPosLen(rs);
      seq(|rs|, i requires 0 <= i < |rs| && AllMropeAxesPresent(rs) => Passed(rs[i].lists, 3, m))
    else ListsOf(rs)
  }

  // ---------------------------------------------------------------------------
  // The whole build
  // ---------------------------------------------------------------------------

  /** The model input of a non-empty batch whose lookups all succeed. */
  function BuiltInput(rs: seq<SeqGroupState>, cfg: BuilderConfig): ModelInput
    requires rs != [] && AllMropeAxesPresent(rs)
    requires AnyMrope(rs) ==> FirstPositionsPresent(rs)
  {
    var seqLens := AllSeqLens(rs);
    var queryLens := AllQueryLens(rs);
    ModelInput(
      inputTokens := Some(Tokens(rs)),
      inputPositions := Some(PositionsOf(rs)),
      attnMetadata := Some(AttnMetadata(seqLens, queryLens, None, None, None)),
      seqLens := Some(seqLens),
      queryLens := Some(queryLens),
      loraMapping := LoraMappingOf(rs, cfg),
      loraRequests := Some(if cfg.enableLora then LoraUnion(rs) else {}),
      multiModalKwargs := Some(MultiModalBatch(MultiModalItems(rs))),
      requestIdsToSeqIds := Some(RequestMap(rs)),
      finishedRequestsIds := cfg.finishedRequestsIds,
      promptAdapterMapping := PromptAdapterMappingOf(rs, cfg),
      promptAdapterRequests := Some(if cfg.enablePromptAdapter then PromptAdapterSet(rs) else {}),
      virtualEngine := 0,
      samplingMetadata := None,
      isPrompt := None,
      asyncCallback := None)
  }

  /**
   * `build`: the default input for an empty batch; otherwise the first failing
   * lookup in source order, or the built input.
   */
  function BuildSpec(rs: seq<SeqGroupState>, cfg: BuilderConfig): (r: Result<ModelInput, BuildError>)
    requires AllMropeAxesPresent(rs)
    ensures r == Success(DefaultModelInput) <==> rs == []
  {
    if rs == [] then Success(DefaultModelInput)
    else if AnyMrope(rs) && !FirstPositionsPresent(rs) then Failure(PositionIndexError)
    else if !DecodeSeqLensPresent(rs) then Failure(EmptyDecodeSeqLens)
    else Success(BuiltInput(rs, cfg))
  }

  // ---------------------------------------------------------------------------
  // The padding loops
  // ---------------------------------------------------------------------------

  /** Flattening one more list of a prefix appends that list. */
  lemma FlattenPrefixStep(xss: seq<seq<int>>, k: nat)
    requires k < |xss|
    ensures Flatten(xss[..k + 1]) == Flatten(xss[..k]) + xss[k]
  {
    assert xss[..k + 1][..k] == xss[..k];
  }

  /** Gathering one more record of a prefix appends that record's list. */
  lemma GatherPrefixStep<T>(rs: seq<SeqGroupState>, f: SeqGroupState -> seq<T>, k: nat)
    requires k < |rs|
    ensures Gather(rs[..k + 1], f) == Gather(rs[..k], f) + f(rs[k])
  {
    var xss := seq(|rs[..k + 1]|, i requires 0 <= i < |rs[..k + 1]| => f(rs[..k + 1][i]));
    assert xss[..k] == seq(|rs[..k]|, i requires 0 <= i < |rs[..k]| => f(rs[..k][i]));
  }

  /**
   * The innermost loop for a record without rotary axes: pad each position list
   * in place and append it to the axis being built.
   */
  method PadPositionsInto(ps: seq<seq<int>>, m: int, axis: seq<int>)
    returns (padded: seq<seq<int>>, axis': seq<int>)
    ensures padded == PadEach(ps, m)
    ensures axis' == axis + Flatten(PadEach(ps, m))
  {
    ghost var target := PadEach(ps, m);
    padded := ps;
    axis' := axis;
    for s := 0 to |ps|
      invariant |padded| == |ps|
      invariant forall k :: 0 <= k < s ==> padded[k] == PadTo(ps[k], m)
      invariant forall k :: s <= k < |ps| ==> padded[k] == ps[k]
      invariant axis' == axis + Flatten(target[..s])
    {
      var p := padded[s] + Zeros(m - |padded[s]|);
      padded := padded[s := p];
      PadEachStep(ps, m, s, axis, axis', p);
      axis' := axis' + p;
    }
    assert target[..|ps|] == target;
  }

  /** One step of `PadPositionsInto`: appending padded list `s` extends the prefix. */
  lemma PadEachStep(ps: seq<seq<int>>, m: int, s: nat, axis: seq<int>, axis': seq<int>, p: seq<int>)
    requires s < |ps|
    requires axis' == axis + Flatten(PadEach(ps, m)[..s])
    requires p == ps[s] + Zeros(m - |ps[s]|)
    ensures axis' + p == axis + Flatten(PadEach(ps, m)[..s + 1])
  {
    var t := PadEach(ps, m);
    assert t[s] == p;
    FlattenPrefixStep(t, s);
    AppendAssoc(axis, Flatten(t[..s]), p);
  }

  /**
   * The innermost loop for a record with rotary axes: pad axis `idx` of each
   * sub-sequence in place and append it to the axis being built.
   */
  method PadAxisInto(ms: seq<seq<seq<int>>>, idx: nat, m: int, axis: seq<int>)
    returns (padded: seq<seq<seq<int>>>, axis': seq<int>)
    requires forall s :: 0 <= s < |ms| ==> idx < |ms[s]|
    ensures padded == PadAxis(ms, idx, m)
    ensures axis' == axis + Flatten(PadEach(AxisOf(ms, idx), m))
  {
    ghost var target := PadEach(AxisOf(ms, idx), m);
    padded := ms;
    axis' := axis;
    for s := 0 to |ms|
      invariant |padded| == |ms|
      invariant forall k :: 0 <= k < s ==> padded[k] == PadSubAxis(ms[k], idx, m)
      invariant forall k :: s <= k < |ms| ==> padded[k] == ms[k]
      invariant axis' == axis + Flatten(target[..s])
    {
      var sub := padded[s];
      var p := sub[idx] + Zeros(m - |sub[idx]|);
      padded := padded[s := sub[idx := p]];
      AxisStep(ms, idx, m, s, target, axis, axis', p);
      axis' := axis' + p;
    }
    assert target[..|ms|] == target;
  }

  /** One step of `PadAxisInto`: appending the padded axis of sub-sequence `s` extends the prefix. */
  lemma AxisStep(ms: seq<seq<seq<int>>>, idx: nat, m: int, s: nat, target: seq<seq<int>>, axis: seq<int>, axis': seq<int>, p: seq<int>)
    requires s < |ms| && idx < |ms[s]|
    requires forall s :: 0 <= s < |ms| ==> idx < |ms[s]|
    requires target == PadEach(AxisOf(ms, idx), m)
    requires axis' == axis + Flatten(target[..s])
    requires p == ms[s][idx] + Zeros(m - |ms[s][idx]|)
    ensures axis' + p == axis + Flatten(target[..s + 1])
  {
    assert target[s] == p;
    FlattenPrefixStep(target, s);
    AppendAssoc(axis, Flatten(target[..s]), p);
  }

  /** Padding a rotary axis other than `idx` leaves axis `idx` as it was. */
  lemma AxisOfPadOther(ms: seq<seq<seq<int>>>, k: nat, idx: nat, m: int)
    requires k != idx
    requires forall s :: 0 <= s < |ms| ==> k < |ms[s]| && idx < |ms[s]|
    ensures AxisOf(PadAxis(ms, k, m), idx) == AxisOf(ms, idx)
  {
  }

  /** Padding a list of position lists twice to the same length is padding it once. */
  lemma PadEachIdempotent(pss: seq<seq<int>>, m: int)
    ensures PadEach(PadEach(pss, m), m) == PadEach(pss, m)
  {
    forall s | 0 <= s < |pss|
      ensures PadTo(PadTo(pss[s], m), m) == PadTo(pss[s], m)
    {
      PadToIdempotent(pss[s], m);
    }
  }

  /**
   * The earlier passes of the padding loop do not change what a record
   * contributes to a later axis, so every axis can be read off the records as
   * they were before `build`.
   */
  lemma {:induction false} ContributionStable(l: PerSeqLists, n: nat, idx: nat, m: int)
    requires n <= idx < 3 && MropeAxesPresent(l)
    ensures Passed(l, n, m).mropeInputPositions.Some? == l.mropeInputPositions.Some?
    ensures Contribution(Passed(l, n, m), idx, m) == Contribution(l, idx, m)
  {
    if n > 0 {
      ContributionStable(l, n - 1, idx, m);
      var p := Passed(l, n - 1, m);
      match p.mropeInputPositions
      case None =>
        PadEachIdempotent(p.inputPositions, m);
      case Some(ms) =>
        AxisOfPadOther(ms, n - 1, idx, m);
    }
  }

  // ---------------------------------------------------------------------------
  // The padding loops over the records
  // ---------------------------------------------------------------------------

  /** No record object occurs twice in the builder's list. */
  predicate Distinct(list: seq<InterData>)
  {
    forall i, j :: 0 <= i < j < |list| ==> list[i] != list[j]
  }

  /** One step of `BuildAxis`: appending record `i`'s contribution extends the prefix. */
  lemma ContributionStep(ls: seq<PerSeqLists>, idx: nat, m: int, i: nat, axis: seq<int>, c: seq<int>)
    requires idx < 3 && i < |ls| && forall k :: 0 <= k < |ls| ==> MropeAxesPresent(ls[k])
    requires axis == Flatten(Contributions(ls, idx, m)[..i])
    requires c == Contribution(ls[i], idx, m)
    ensures axis + c == Flatten(Contributions(ls, idx, m)[..i + 1])
  {
    FlattenPrefixStep(Contributions(ls, idx, m), i);
  }

  /**
   * One record's share of pass `idx`: pad the position lists it reads in
   * place and append them to axis `idx`.
   */
  method PadRecord(d: InterData, idx: nat, m: int, axis: seq<int>) returns (axis': seq<int>)
    requires idx < 3 && MropeAxesPresent(d.lists)
    modifies d`lists
    ensures d.lists == PadPass(old(d.lists), idx, m)
    ensures axis' == axis + Contribution(old(d.lists), idx, m)
  {
    var l := d.lists;
    match l.mropeInputPositions
    case None =>
      var padded;
      padded, axis' := PadPositionsInto(l.inputPositions, m, axis);
      d.lists := l.(inputPositions := padded);
    case Some(ms) =>
      var padded;
      padded, axis' := PadAxisInto(ms, idx, m, axis);
      d.lists := l.(mropeInputPositions := Some(padded));
  }

  /** Every record has been through the first `n` passes. */
  ghost predicate AllPassed(list: seq<InterData>, ls: seq<PerSeqLists>, n: nat, m: int)
    requires n <= 3 && |ls| == |list| && forall k :: 0 <= k < |ls| ==> MropeAxesPresent(ls[k])
    reads set k | 0 <= k < |list| :: list[k]
  {
    forall k :: 0 <= k < |list| ==> list[k].lists == Passed(ls[k], n, m)
  }

  /** Records before `i` have been through pass `idx`, the others not yet. */
  ghost predicate PassProgress(list: seq<InterData>, ls: seq<PerSeqLists>, idx: nat, m: int, i: nat)
    requires idx < 3 && |ls| == |list| && forall k :: 0 <= k < |ls| ==> MropeAxesPresent(ls[k])
    reads set k | 0 <= k < |list| :: list[k]
  {
    forall k :: 0 <= k < |list| ==> list[k].lists == Passed(ls[k], if k < i then idx + 1 else idx, m)
  }

  /** Record `i`'s turn in pass `idx`: it is padded and its contribution appended. */
  method PadRecordAt(list: seq<InterData>, i: nat, idx: nat, m: int, ghost ls: seq<PerSeqLists>, axis: seq<int>)
    returns (axis': seq<int>)
    requires Distinct(list) && idx < 3 && |ls| == |list| && i < |list|
    requires forall k :: 0 <= k < |ls| ==> MropeAxesPresent(ls[k])
    requires PassProgress(list, ls, idx, m, i)
    requires axis == Flatten(Contributions(ls, idx, m)[..i])
    modifies {list[i]}`lists
    ensures PassProgress(list, ls, idx, m, i + 1)
    ensures axis' == Flatten(Contributions(ls, idx, m)[..i + 1])
  {
    ContributionStable(ls[i], idx, idx, m);
    ghost var c := Contribution(list[i].lists, idx, m);
    axis' := PadRecord(list[i], idx, m, axis);
    ContributionStep(ls, idx, m, i, axis, c);
  }

  /**
   * Pass `idx` of the padding loop over the records, in order. `ls` are the
   * records' lists before the first pass.
   */
  method BuildAxis(list: seq<InterData>, idx: nat, m: int, ghost ls: seq<PerSeqLists>)
    returns (axis: seq<int>)
    requires Distinct(list) && idx < 3 && |ls| == |list|
    requires forall i :: 0 <= i < |ls| ==> MropeAxesPresent(ls[i])
    requires AllPassed(list, ls, idx, m)
    modifies set i | 0 <= i < |list| :: list[i]`lists
    ensures AllPassed(list, ls, idx + 1, m)
    ensures axis == Axis(ls, idx, m)
  {
    axis := [];
    for i := 0 to |list|
      invariant PassProgress(list, ls, idx, m, i)
      invariant axis == Flatten(Contributions(ls, idx, m)[..i])
    {
      axis := PadRecordAt(list, i, idx, m, ls, axis);
    }
    assert Contributions(ls, idx, m)[..|list|] == Contributions(ls, idx, m);
  }

  /**
   * The three passes of the padding loop. `ls` are the records' lists before
   * `build`; the axes are built from them, and each record ends padded by all
   * three passes.
   */
  method BuildMropeAxes(list: seq<InterData>, m: int, ghost ls: seq<PerSeqLists>)
    returns (axes: seq<seq<int>>)
    requires Distinct(list) && |ls| == |list|
    requires forall i :: 0 <= i < |ls| ==> MropeAxesPresent(ls[i])
    requires forall i :: 0 <= i < |list| ==> list[i].lists == ls[i]
    modifies set i | 0 <= i < |list| :: list[i]`lists
    ensures axes == MropeAxes(ls, m)
    ensures forall i :: 0 <= i < |list| ==> list[i].lists == Passed(ls[i], 3, m)
  {
    ghost var target := MropeAxes(ls, m);
    axes := [];
    for idx := 0 to 3
      invariant axes == target[..idx]
      invariant AllPassed(list, ls, idx, m)
    {
      var axis := BuildAxis(list, idx, m, ls);
      TakeSnoc(target, idx);
      axes := axes + [axis];
    }
    assert target[..3] == target;
  }

  /**
   * The `seq_lens` loop: concatenates the records' `seq_lens` and keeps the
   * running maximum over decode records; fails where `max` meets an empty list.
   */
  method CollectSeqLens(rs: seq<SeqGroupState>) returns (seqLens: seq<int>, maxDecode: int, ok: bool)
    ensures ok <==> DecodeSeqLensPresent(rs)
    ensures ok ==> seqLens == AllSeqLens(rs) && maxDecode == MaxDecodeSeqLen(rs)
  {
    seqLens := [];
    maxDecode := 0;
    for i := 0 to |rs|
      invariant DecodeSeqLensPresent(rs[..i])
      invariant seqLens == AllSeqLens(rs[..i])
      invariant maxDecode == MaxDecodeSeqLen(rs[..i])
    {
      assert rs[..i + 1][..i] == rs[..i];
      GatherPrefixStep(rs, SeqLensOf, i);
      seqLens := seqLens + rs[i].lists.seqLens;
      if !rs[i].info.isPrompt {
        if rs[i].lists.seqLens == [] {
          ok := false;
          return;
        }
        var top := MaxOf(rs[i].lists.seqLens);
        maxDecode := if maxDecode >= top then maxDecode else top;
      }
    }
    assert rs[..|rs|] == rs;
    ok := true;
  }

  /** The records' current attributes. */
  function Snapshots(list: seq<InterData>): (r: seq<SeqGroupState>)
    reads set i | 0 <= i < |list| :: list[i]
    ensures |r| == |list| && forall i :: 0 <= i < |list| ==> r[i] == list[i].Snapshot()
  {
    seq(|list|, i requires 0 <= i < |list| reads set j | 0 <= j < |list| :: list[j] => list[i].Snapshot())
  }

  /**
   * The three padded axes of a batch in which some record carries rotary
   * axes; the records' lists are left padded.
   */
  method MropePositions(list: seq<InterData>, rs: seq<SeqGroupState>) returns (positions: Positions)
    requires Distinct(list) && |rs| == |list| && AllMropeAxesPresent(rs)
    requires forall i :: 0 <= i < |list| ==> list[i].lists == rs[i].lists
    requires rs != [] && AnyMrope(rs) && FirstPositionsPresent(rs)
    modifies set i | 0 <= i < |list| :: list[i]`lists
    ensures positions == PositionsOf(rs)
    ensures forall i :: 0 <= i < |list| ==> list[i].lists == Passed(rs[i].lists, 3, MaxPosLen(rs))
  {
    var m := MaxOf(FirstPositionLens(rs));
    var axes := BuildMropeAxes(list, m, ListsOf(rs));
    positions := ThreeAxis(axes);
  }

  /**
   * The position part of `build` for a non-empty batch: three padded axes
   * when some record carries rotary axes (failing, before any padding, when a
   * record has no first position list), the single flat axis otherwise.
   */
  method BuildPositions(list: seq<InterData>, rs: seq<SeqGroupState>) returns (r: Result<Positions, BuildError>)
    requires Distinct(list) && rs == Snapshots(list) && rs != [] && AllMropeAxesPresent(rs)
    modifies set i | 0 <= i < |list| :: list[i]`lists
    ensures r.Failure? <==> AnyMrope(rs) && !FirstPositionsPresent(rs)
    ensures r.Failure? ==> r.error == PositionIndexError
    ensures r.Success? ==> r.value == PositionsOf(rs)
    ensures forall i :: 0 <= i < |list| ==> list[i].lists == ListsAfterBuild(rs)[i]
  {
    if !AnyMrope(rs) {
      return Success(SingleAxis(FlatPositions(rs)));
    }
    if !FirstPositionsPresent(rs) {
      return Failure(PositionIndexError);
    }
    var positions := MropePositions(list, rs);
    r := Success(positions);
  }

  /**
   * `build` over the builder's records: the result is `BuildSpec` of the
   * records as they were, and the records are left padded as
   * `ListsAfterBuild` says, including when a decode record's empty
   * `seq_lens` fails the build after the padding.
   */
  method Build(list: seq<InterData>, cfg: BuilderConfig) returns (r: Result<ModelInput, BuildError>)
    requires Distinct(list)
    requires forall i :: 0 <= i < |list| ==> MropeAxesPresent(list[i].lists)
    modifies set i | 0 <= i < |list| :: list[i]`lists
    ensures r == BuildSpec(old(Snapshots(list)), cfg)
    ensures forall i :: 0 <= i < |list| ==> list[i].lists == ListsAfterBuild(old(Snapshots(list)))[i]
  {
    var rs := Snapshots(list);
    var tokens := Tokens(rs);
    if rs == [] {
      return Success(DefaultModelInput);
    }
    var positions := BuildPositions(list, rs);
    if positions.Failure? {
      return Failure(positions.error);
    }
    var seqLens, maxDecode, ok := CollectSeqLens(rs);
    if !ok {
      return Failure(EmptyDecodeSeqLens);
    }
    var queryLens := AllQueryLens(rs);
    r := Success(ModelInput(
      inputTokens := Some(tokens),
      inputPositions := Some(positions.value),
      attnMetadata := Some(AttnMetadata(seqLens, queryLens, None, None, None)),
      seqLens := Some(seqLens),
      queryLens := Some(queryLens),
      loraMapping := LoraMappingOf(rs, cfg),
      loraRequests := Some(if cfg.enableLora then LoraUnion(rs) else {}),
      multiModalKwargs := Some(MultiModalBatch(MultiModalItems(rs))),
      requestIdsToSeqIds := Some(RequestMap(rs)),
      finishedRequestsIds := cfg.finishedRequestsIds,
      promptAdapterMapping := PromptAdapterMappingOf(rs, cfg),
      promptAdapterRequests := Some(if cfg.enablePromptAdapter then PromptAdapterSet(rs) else {}),
      virtualEngine := 0,
      samplingMetadata := None,
      isPrompt := None,
      asyncCallback := None));
  }
}

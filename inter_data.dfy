/**
 * `InterDataForSeqGroup`: the per-request record the batch builder folds.
 * It holds parallel per-sub-sequence lists and is either freshly constructed
 * or reset in place for reuse (a general reset and a fast single-sequence one).
 *
 * Every list or set keyword argument behaves the same when it is `None` and
 * when it is empty (`x or []` on construction, `if x:` on reset), so the
 * arguments are plain sequences and sets, the empty one standing for both.
 */
module InterDataModel {
  import opened Wrappers
  import opened SeqUtil
  import opened ModelInputs

  /** The keyword arguments of the constructor (without `reinit` and `reinit_use_defaults`). */
  datatype SeqGroupArgs = SeqGroupArgs(
    requestId: string,
    seqIds: seq<int>,
    isPrompt: bool,
    blockTables: Option<map<int, seq<int>>>,
    computedBlockNums: seq<int>,
    nSeqs: int,
    inputTokens: seq<seq<int>>,
    inputPositions: seq<seq<int>>,
    tokenTypes: seq<seq<int>>,
    mropeInputPositions: seq<seq<seq<int>>>,
    seqLens: seq<int>,
    origSeqLens: seq<int>,
    queryLens: seq<int>,
    contextLens: seq<int>,
    currSlidingWindowBlocks: seq<int>,
    loraIndexMapping: seq<seq<int>>,
    loraPromptMapping: seq<seq<int>>,
    loraRequests: set<LoraRequest>,
    promptAdapterIndexMapping: seq<int>,
    promptAdapterPromptMapping: seq<int>,
    promptAdapterRequest: Option<PromptAdapterRequest>,
    multiModalKwargs: Option<MultiModalKwargs>,
    multiModalPlaceholderMaps: Option<map<string, PlaceholderMap>>,
    prefixCacheHit: bool,
    encoderSeqLen: int)

  /** Which request and sub-sequences the record describes, and its scheduling facts. */
  datatype RequestInfo = RequestInfo(
    requestId: string,
    seqIds: seq<int>,
    isPrompt: bool,
    blockTables: Option<map<int, seq<int>>>,
    computedBlockNums: seq<int>,
    nSeqs: int,
    encoderSeqLen: int)

  /** The parallel lists, one entry per sub-sequence, and the optional rotary axes. */
  datatype PerSeqLists = PerSeqLists(
    inputTokens: seq<seq<int>>,
    inputPositions: seq<seq<int>>,
    tokenTypes: seq<seq<int>>,
    mropeInputPositions: Option<seq<seq<seq<int>>>>,
    seqLens: seq<int>,
    origSeqLens: seq<int>,
    queryLens: seq<int>,
    contextLens: seq<int>,
    currSlidingWindowBlocks: seq<int>)

  /** LoRA and prompt-adapter state. */
  datatype AdapterState = AdapterState(
    loraIndexMapping: seq<seq<int>>,
    loraPromptMapping: seq<seq<int>>,
    loraRequests: set<LoraRequest>,
    promptAdapterIndexMapping: seq<int>,
    promptAdapterPromptMapping: seq<int>)

  /** The prompt-adapter request, the multi-modal payload and its placeholders, and the prefix-cache flag. */
  datatype RequestExtras = RequestExtras(
    promptAdapterRequest: Option<PromptAdapterRequest>,
    multiModalKwargs: Option<MultiModalKwargs>,
    multiModalPlaceholderMaps: Option<map<string, PlaceholderMap>>,
    prefixCacheHit: bool)

  /** The value of every field of one record. */
  datatype SeqGroupState = SeqGroupState(
    info: RequestInfo,
    lists: PerSeqLists,
    adapters: AdapterState,
    extras: RequestExtras)

  /** One entry per sub-sequence in every parallel list; three axes per sub-sequence when rotary axes are present. */
  predicate ListsFit(l: PerSeqLists, n: nat)
  {
    && |l.inputTokens| == n && |l.inputPositions| == n && |l.tokenTypes| == n
    && |l.seqLens| == n && |l.origSeqLens| == n && |l.queryLens| == n
    && |l.contextLens| == n && |l.currSlidingWindowBlocks| == n
    && (l.mropeInputPositions.Some? ==>
          |l.mropeInputPositions.value| == n &&
          forall k :: 0 <= k < n ==> |l.mropeInputPositions.value[k]| == 3)
  }

  /** The record invariant: `n_seqs` counts the sub-sequences and every parallel list fits them. */
  predicate WellShaped(s: SeqGroupState)
  {
    s.info.nSeqs == |s.info.seqIds| && ListsFit(s.lists, |s.info.seqIds|)
  }

  /** `[[] for _ in range(n)]` */
  function EmptyLists(n: nat): (r: seq<seq<int>>)
    ensures |r| == n && forall i :: 0 <= i < n ==> r[i] == []
  {
    seq(n, _ => [])
  }

  /** The lists `__post_init__` leaves: empty token data and zero lengths per sub-sequence. */
  function FreshLists(n: nat): PerSeqLists
  {
    PerSeqLists(EmptyLists(n), EmptyLists(n), EmptyLists(n), None,
                Zeros(n), Zeros(n), Zeros(n), Zeros(n), Zeros(n))
  }

  /** The fields as the constructor assigns them before `__post_init__` runs. */
  function ConstructorAssigned(a: SeqGroupArgs): SeqGroupState
  {
    SeqGroupState(
      RequestInfo(a.requestId, a.seqIds, a.isPrompt, a.blockTables, a.computedBlockNums,
                  |a.seqIds|, a.encoderSeqLen),
      PerSeqLists(a.inputTokens, a.inputPositions, a.tokenTypes,
                  if a.mropeInputPositions == [] then None else Some(a.mropeInputPositions),
                  a.seqLens, a.origSeqLens, a.queryLens, a.contextLens, a.currSlidingWindowBlocks),
      AdapterState(a.loraIndexMapping, a.loraPromptMapping, a.loraRequests,
                   a.promptAdapterIndexMapping, a.promptAdapterPromptMapping),
      RequestExtras(a.promptAdapterRequest, a.multiModalKwargs, a.multiModalPlaceholderMaps, a.prefixCacheHit))
  }

  /** `__post_init__`: re-derives `n_seqs` and resets the per-sub-sequence lists and LoRA mappings. */
  function PostInitState(s: SeqGroupState): SeqGroupState
  {
    var n := |s.info.seqIds|;
    s.(info := s.info.(nSeqs := n),
       lists := FreshLists(n),
       adapters := s.adapters.(loraIndexMapping := [], loraPromptMapping := []))
  }

  /**
   * Fresh construction. Whatever lists were passed, the record has one empty
   * token, position and token-type list and a zero in every length list per
   * sub-sequence, no rotary axes and empty LoRA mappings; the LoRA request set
   * and the prompt-adapter mappings passed in are kept.
   */
  function FreshState(a: SeqGroupArgs): (r: SeqGroupState)
    ensures WellShaped(r)
    ensures r.info == RequestInfo(a.requestId, a.seqIds, a.isPrompt, a.blockTables, a.computedBlockNums,
                                  |a.seqIds|, a.encoderSeqLen)
    ensures r.extras == RequestExtras(a.promptAdapterRequest, a.multiModalKwargs,
                                      a.multiModalPlaceholderMaps, a.prefixCacheHit)
    ensures forall i :: 0 <= i < r.info.nSeqs ==>
              r.lists.inputTokens[i] == [] && r.lists.inputPositions[i] == [] &&
              r.lists.tokenTypes[i] == [] &&
              r.lists.seqLens[i] == 0 && r.lists.origSeqLens[i] == 0 && r.lists.queryLens[i] == 0 &&
              r.lists.contextLens[i] == 0 && r.lists.currSlidingWindowBlocks[i] == 0
    ensures r.lists.mropeInputPositions == None
    ensures r.adapters.loraIndexMapping == [] && r.adapters.loraPromptMapping == []
    ensures r.adapters.loraRequests == a.loraRequests
    ensures r.adapters.promptAdapterIndexMapping == a.promptAdapterIndexMapping
    ensures r.adapters.promptAdapterPromptMapping == a.promptAdapterPromptMapping
  {
    PostInitState(ConstructorAssigned(a))
  }

  /** `a` and `b` differ at most in the per-sub-sequence lists and the LoRA mappings. */
  predicate SameBarPerSeqLists(a: SeqGroupArgs, b: SeqGroupArgs)
  {
    a.(inputTokens := b.inputTokens, inputPositions := b.inputPositions, tokenTypes := b.tokenTypes,
       mropeInputPositions := b.mropeInputPositions,
       seqLens := b.seqLens, origSeqLens := b.origSeqLens, queryLens := b.queryLens,
       contextLens := b.contextLens, currSlidingWindowBlocks := b.currSlidingWindowBlocks,
       loraIndexMapping := b.loraIndexMapping, loraPromptMapping := b.loraPromptMapping) == b
  }

  /** Fresh construction discards the lists passed in: `__post_init__` overwrites them. */
  lemma FreshDiscardsPassedLists(a: SeqGroupArgs, b: SeqGroupArgs)
    requires SameBarPerSeqLists(a, b)
    ensures FreshState(a) == FreshState(b)
  {
  }

  /**
   * `for i in range(n): xss[i].clear()`: the first `n` entries emptied; on a
   * list shorter than `n` every entry is emptied before the loop runs past
   * the end.
   */
  function ClearFirst(xss: seq<seq<int>>, n: nat): (r: seq<seq<int>>)
  {
    seq(|xss|, i requires 0 <= i < |xss| => if i < n then [] else xss[i])
  }

  /** `for i in range(n): xs[i] = 0`, likewise on a list shorter than `n`. */
  function ZeroFirst(xs: seq<int>, n: nat): (r: seq<int>)
  {
    seq(|xs|, i requires 0 <= i < |xs| => if i < n then 0 else xs[i])
  }

  /**
   * `if arg: field = arg` / `else: for i in range(n): field[i].clear()`:
   * the supplied list when there is one, else the current one with its first
   * `n` entries emptied.
   */
  function TakenOrCleared(arg: seq<seq<int>>, cur: seq<seq<int>>, n: nat): seq<seq<int>>
  {
    if arg != [] then arg else ClearFirst(cur, n)
  }

  /**
   * `if arg: field = arg` / `else: for i in range(n): field[i] = 0`:
   * the supplied list when there is one, else the current one with its first
   * `n` entries zeroed.
   */
  function TakenOrZeroed(arg: seq<int>, cur: seq<int>, n: nat): seq<int>
  {
    if arg != [] then arg else ZeroFirst(cur, n)
  }

  /** The clearing loop or zeroing loop indexes past the end of a list it has to clear. */
  predicate TooShort<T>(arg: seq<T>, cur: seq<T>, n: nat)
  {
    |arg| == 0 && |cur| < n
  }

  /**
   * The clearing loop of the general reset, on one list of lists; `ok` is
   * false when the loop raises `IndexError` after clearing every entry.
   */
  method TakeOrClear(arg: seq<seq<int>>, cur: seq<seq<int>>, n: nat) returns (r: seq<seq<int>>, ok: bool)
    ensures r == TakenOrCleared(arg, cur, n)
    ensures ok <==> !TooShort(arg, cur, n)
  {
    if arg != [] {
      return arg, true;
    }
    r := cur;
    var i := 0;
    while i < n
      invariant 0 <= i <= n && i <= |cur| && |r| == |cur|
      invariant forall k :: 0 <= k < |cur| ==> r[k] == if k < i then [] else cur[k]
    {
      if i == |r| {
        return r, false;
      }
      r := r[i := []];
      i := i + 1;
    }
    ok := true;
  }

  /** The zeroing loop of the general reset, on one list of lengths. */
  method TakeOrZero(arg: seq<int>, cur: seq<int>, n: nat) returns (r: seq<int>, ok: bool)
    ensures r == TakenOrZeroed(arg, cur, n)
    ensures ok <==> !TooShort(arg, cur, n)
  {
    if arg != [] {
      return arg, true;
    }
    r := cur;
    var i := 0;
    while i < n
      invariant 0 <= i <= n && i <= |cur| && |r| == |cur|
      invariant forall k :: 0 <= k < |cur| ==> r[k] == if k < i then 0 else cur[k]
    {
      if i == |r| {
        return r, false;
      }
      r := r[i := 0];
      i := i + 1;
    }
    ok := true;
  }

  /** No list supplied: what the fast reset, which ignores its list arguments, works from. */
  const NoLists := PerSeqLists([], [], [], None, [], [], [], [], [])

  /** The per-sub-sequence lists passed to a reset, as one record. */
  function GivenLists(a: SeqGroupArgs): PerSeqLists
  {
    PerSeqLists(a.inputTokens, a.inputPositions, a.tokenTypes, None,
                a.seqLens, a.origSeqLens, a.queryLens, a.contextLens, a.currSlidingWindowBlocks)
  }

  /**
   * Both resets visit the lists in one order: input tokens, input positions,
   * token types, (the rotary axes dropped), seq_lens, orig_seq_lens,
   * query_lens, context_lens, sliding-window blocks. This is the position in
   * that order of the first list the reset indexes past the end of (which
   * raises `IndexError`), or 8 when there is none.
   */
  function FirstShortList(l: PerSeqLists, args: PerSeqLists, n: nat): (j: nat)
    ensures j <= 8
  {
    if TooShort(args.inputTokens, l.inputTokens, n) then 0
    else if TooShort(args.inputPositions, l.inputPositions, n) then 1
    else if TooShort(args.tokenTypes, l.tokenTypes, n) then 2
    else if TooShort(args.seqLens, l.seqLens, n) then 3
    else if TooShort(args.origSeqLens, l.origSeqLens, n) then 4
    else if TooShort(args.queryLens, l.queryLens, n) then 5
    else if TooShort(args.contextLens, l.contextLens, n) then 6
    else if TooShort(args.currSlidingWindowBlocks, l.currSlidingWindowBlocks, n) then 7
    else 8
  }

  /**
   * The lists once the reset has handled lists `0` to `last` of that order:
   * each of those is the supplied list or has its first `n` entries emptied or
   * zeroed, the later ones are as they were.
   */
  function ListsThrough(l: PerSeqLists, args: PerSeqLists, n: nat, last: nat): PerSeqLists
  {
    PerSeqLists(
      TakenOrCleared(args.inputTokens, l.inputTokens, n),
      if 1 <= last then TakenOrCleared(args.inputPositions, l.inputPositions, n) else l.inputPositions,
      if 2 <= last then TakenOrCleared(args.tokenTypes, l.tokenTypes, n) else l.tokenTypes,
      if 3 <= last then None else l.mropeInputPositions,
      if 3 <= last then TakenOrZeroed(args.seqLens, l.seqLens, n) else l.seqLens,
      if 4 <= last then TakenOrZeroed(args.origSeqLens, l.origSeqLens, n) else l.origSeqLens,
      if 5 <= last then TakenOrZeroed(args.queryLens, l.queryLens, n) else l.queryLens,
      if 6 <= last then TakenOrZeroed(args.contextLens, l.contextLens, n) else l.contextLens,
      if 7 <= last then TakenOrZeroed(args.currSlidingWindowBlocks, l.currSlidingWindowBlocks, n)
      else l.currSlidingWindowBlocks)
  }

  /** `simple_reinit` indexes entry 0 of each per-sub-sequence list. */
  predicate SimpleResetDefined(l: PerSeqLists)
  {
    && 1 <= |l.inputTokens| && 1 <= |l.inputPositions| && 1 <= |l.tokenTypes|
    && 1 <= |l.seqLens| && 1 <= |l.origSeqLens| && 1 <= |l.queryLens|
    && 1 <= |l.contextLens| && 1 <= |l.currSlidingWindowBlocks|
  }

  /** The lists after `simple_reinit`: entry 0 emptied or zeroed, rotary axes dropped. */
  function SimpleResetLists(l: PerSeqLists): PerSeqLists
    requires SimpleResetDefined(l)
  {
    PerSeqLists(
      l.inputTokens[0 := []], l.inputPositions[0 := []], l.tokenTypes[0 := []], None,
      l.seqLens[0 := 0], l.origSeqLens[0 := 0], l.queryLens[0 := 0],
      l.contextLens[0 := 0], l.currSlidingWindowBlocks[0 := 0])
  }

  /**
   * The fast reset is the general one for a single sub-sequence with no list
   * supplied: it fails on the first empty list, and otherwise clears entry 0
   * of each list.
   */
  lemma SimpleResetIsGeneral(l: PerSeqLists)
    ensures SimpleResetDefined(l) <==> FirstShortList(l, NoLists, 1) == 8
    ensures SimpleResetDefined(l) ==> SimpleResetLists(l) == ListsThrough(l, NoLists, 1, 7)
  {
    if SimpleResetDefined(l) {
      var r := ListsThrough(l, NoLists, 1, 7);
      assert r.inputTokens == l.inputTokens[0 := []];
      assert r.inputPositions == l.inputPositions[0 := []];
      assert r.tokenTypes == l.tokenTypes[0 := []];
      assert r.seqLens == l.seqLens[0 := 0];
      assert r.origSeqLens == l.origSeqLens[0 := 0];
      assert r.queryLens == l.queryLens[0 := 0];
      assert r.contextLens == l.contextLens[0 := 0];
      assert r.currSlidingWindowBlocks == l.currSlidingWindowBlocks[0 := 0];
    }
  }

  /** The adapter state after `simple_reinit`: every mapping and request set emptied. */
  const ClearedAdapters := AdapterState([], [], {}, [], [])

  /** The general reset needs each list it clears or zeroes by index to be long enough. */
  predicate GeneralResetDefined(l: PerSeqLists, a: SeqGroupArgs, n: nat)
  {
    && (a.inputTokens == [] ==> n <= |l.inputTokens|)
    && (a.inputPositions == [] ==> n <= |l.inputPositions|)
    && (a.tokenTypes == [] ==> n <= |l.tokenTypes|)
    && (a.seqLens == [] ==> n <= |l.seqLens|)
    && (a.origSeqLens == [] ==> n <= |l.origSeqLens|)
    && (a.queryLens == [] ==> n <= |l.queryLens|)
    && (a.contextLens == [] ==> n <= |l.contextLens|)
    && (a.currSlidingWindowBlocks == [] ==> n <= |l.currSlidingWindowBlocks|)
  }

  /** The lists after a general reset that raised nothing: every list handled. */
  function GeneralResetLists(l: PerSeqLists, a: SeqGroupArgs, n: nat): PerSeqLists
  {
    ListsThrough(l, GivenLists(a), n, 7)
  }

  /**
   * The clearing and zeroing loops of the general reset, list by list, in the
   * source's order; the first list too short stops the reset, with the lists
   * before it and its own entries already handled.
   */
  method GeneralReset(l: PerSeqLists, a: SeqGroupArgs, n: nat) returns (r: PerSeqLists, ok: bool)
    ensures ok <==> GeneralResetDefined(l, a, n)
    ensures ok <==> FirstShortList(l, GivenLists(a), n) == 8
    ensures r == ListsThrough(l, GivenLists(a), n, FirstShortList(l, GivenLists(a), n))
  {
    r := l;
    var tokens, positions, types: seq<seq<int>>;
    var lens: seq<int>;
    tokens, ok := TakeOrClear(a.inputTokens, l.inputTokens, n);
    r := r.(inputTokens := tokens);
    if !ok { return; }
    positions, ok := TakeOrClear(a.inputPositions, l.inputPositions, n);
    r := r.(inputPositions := positions);
    if !ok { return; }
    types, ok := TakeOrClear(a.tokenTypes, l.tokenTypes, n);
    r := r.(tokenTypes := types);
    if !ok { return; }
    r := r.(mropeInputPositions := None);
    lens, ok := TakeOrZero(a.seqLens, l.seqLens, n);
    r := r.(seqLens := lens);
    if !ok { return; }
    lens, ok := TakeOrZero(a.origSeqLens, l.origSeqLens, n);
    r := r.(origSeqLens := lens);
    if !ok { return; }
    lens, ok := TakeOrZero(a.queryLens, l.queryLens, n);
    r := r.(queryLens := lens);
    if !ok { return; }
    lens, ok := TakeOrZero(a.contextLens, l.contextLens, n);
    r := r.(contextLens := lens);
    if !ok { return; }
    lens, ok := TakeOrZero(a.currSlidingWindowBlocks, l.currSlidingWindowBlocks, n);
    r := r.(currSlidingWindowBlocks := lens);
  }

  /** Why a reset raised: the `seq_ids` length assertion, or an index past the end of a list. */
  datatype ReinitError = SeqIdsLengthMismatch | ListTooShort

  /** The fast path is taken for a single sub-sequence when defaults are requested. */
  predicate TakesSimplePath(a: SeqGroupArgs, useDefaults: bool)
  {
    useDefaults && |a.seqIds| == 1
  }

  /**
   * What a reset needs so that it raises nothing: when the new `seq_ids` list
   * has the old length (else an assertion fails and nothing changes), every list
   * it clears or zeroes by index is long enough.
   */
  predicate ReinitDefined(s: SeqGroupState, a: SeqGroupArgs, useDefaults: bool)
  {
    var n := |s.info.seqIds|;
    |a.seqIds| == n ==>
      if TakesSimplePath(a, useDefaults) then SimpleResetDefined(s.lists)
      else GeneralResetDefined(s.lists, a, n)
  }

  /** The request fields after a reset: all taken from the arguments, `n_seqs` recounted. */
  function ReinitInfo(a: SeqGroupArgs): RequestInfo
  {
    RequestInfo(a.requestId, a.seqIds, a.isPrompt, a.blockTables, a.computedBlockNums,
                |a.seqIds|, a.encoderSeqLen)
  }

  /** The per-sub-sequence lists after a reset of a record with `n` sub-sequences. */
  function ReinitLists(l: PerSeqLists, a: SeqGroupArgs, useDefaults: bool): PerSeqLists
    requires TakesSimplePath(a, useDefaults) ==> SimpleResetDefined(l)
  {
    if TakesSimplePath(a, useDefaults) then SimpleResetLists(l)
    else GeneralResetLists(l, a, |a.seqIds|)
  }

  /** The adapter state after a reset. */
  function ReinitAdapters(a: SeqGroupArgs, useDefaults: bool): AdapterState
  {
    if TakesSimplePath(a, useDefaults) then ClearedAdapters
    else AdapterState(a.loraIndexMapping, a.loraPromptMapping, a.loraRequests,
                      a.promptAdapterIndexMapping, a.promptAdapterPromptMapping)
  }

  /** The multi-modal fields and prefix-cache flag after a reset, all taken from the arguments. */
  function ReinitExtras(a: SeqGroupArgs): RequestExtras
  {
    RequestExtras(a.promptAdapterRequest, a.multiModalKwargs, a.multiModalPlaceholderMaps, a.prefixCacheHit)
  }

  /** `r` is `cur` with the entries of the first `n` sub-sequences emptied and every other entry kept. */
  predicate EntriesCleared(r: seq<seq<int>>, cur: seq<seq<int>>, n: nat)
  {
    |r| == |cur| && forall i :: 0 <= i < |cur| ==> r[i] == if i < n then [] else cur[i]
  }

  /** `r` is `cur` with the entries of the first `n` sub-sequences zeroed and every other entry kept. */
  predicate EntriesZeroed(r: seq<int>, cur: seq<int>, n: nat)
  {
    |r| == |cur| && forall i :: 0 <= i < |cur| ==> r[i] == if i < n then 0 else cur[i]
  }

  /** A list of lists after the general reset: the supplied one, else the old one cleared per sub-sequence. */
  predicate ClearedUnlessGiven(r: seq<seq<int>>, arg: seq<seq<int>>, cur: seq<seq<int>>, n: nat)
  {
    if arg != [] then r == arg else EntriesCleared(r, cur, n)
  }

  /** A list of lengths after the general reset: the supplied one, else the old one zeroed per sub-sequence. */
  predicate ZeroedUnlessGiven(r: seq<int>, arg: seq<int>, cur: seq<int>, n: nat)
  {
    if arg != [] then r == arg else EntriesZeroed(r, cur, n)
  }

  /**
   * In-place reset (`reinit=True`) that raises nothing. The request fields
   * come from the arguments, the rotary axes always go and `n_seqs` ends equal
   * to the number of sub-sequences. On the general path each list takes the
   * argument when one is supplied and otherwise has its entry for every
   * sub-sequence emptied or zeroed, and the adapter state is taken from the
   * arguments; the fast path empties or zeroes entry 0 of each list, keeps the
   * other entries, and clears the adapter state.
   */
  function ReinitState(s: SeqGroupState, a: SeqGroupArgs, useDefaults: bool): (r: SeqGroupState)
    requires |a.seqIds| == |s.info.seqIds| && ReinitDefined(s, a, useDefaults)
    ensures r.info == RequestInfo(a.requestId, a.seqIds, a.isPrompt, a.blockTables, a.computedBlockNums,
                                  |a.seqIds|, a.encoderSeqLen)
    ensures r.lists.mropeInputPositions == None
    ensures !TakesSimplePath(a, useDefaults) ==>
      var n := |a.seqIds|;
      && ClearedUnlessGiven(r.lists.inputTokens, a.inputTokens, s.lists.inputTokens, n)
      && ClearedUnlessGiven(r.lists.inputPositions, a.inputPositions, s.lists.inputPositions, n)
      && ClearedUnlessGiven(r.lists.tokenTypes, a.tokenTypes, s.lists.tokenTypes, n)
      && ZeroedUnlessGiven(r.lists.seqLens, a.seqLens, s.lists.seqLens, n)
      && ZeroedUnlessGiven(r.lists.origSeqLens, a.origSeqLens, s.lists.origSeqLens, n)
      && ZeroedUnlessGiven(r.lists.queryLens, a.queryLens, s.lists.queryLens, n)
      && ZeroedUnlessGiven(r.lists.contextLens, a.contextLens, s.lists.contextLens, n)
      && ZeroedUnlessGiven(r.lists.currSlidingWindowBlocks, a.currSlidingWindowBlocks,
                           s.lists.currSlidingWindowBlocks, n)
      && r.adapters == AdapterState(a.loraIndexMapping, a.loraPromptMapping, a.loraRequests,
                                    a.promptAdapterIndexMapping, a.promptAdapterPromptMapping)
    ensures TakesSimplePath(a, useDefaults) ==>
      && EntriesCleared(r.lists.inputTokens, s.lists.inputTokens, 1)
      && EntriesCleared(r.lists.inputPositions, s.lists.inputPositions, 1)
      && EntriesCleared(r.lists.tokenTypes, s.lists.tokenTypes, 1)
      && EntriesZeroed(r.lists.seqLens, s.lists.seqLens, 1)
      && EntriesZeroed(r.lists.origSeqLens, s.lists.origSeqLens, 1)
      && EntriesZeroed(r.lists.queryLens, s.lists.queryLens, 1)
      && EntriesZeroed(r.lists.contextLens, s.lists.contextLens, 1)
      && EntriesZeroed(r.lists.currSlidingWindowBlocks, s.lists.currSlidingWindowBlocks, 1)
      && r.adapters == ClearedAdapters
    ensures r.extras == RequestExtras(a.promptAdapterRequest, a.multiModalKwargs,
                                      a.multiModalPlaceholderMaps, a.prefixCacheHit)
  {
    SeqGroupState(ReinitInfo(a), ReinitLists(s.lists, a, useDefaults),
                  ReinitAdapters(a, useDefaults), ReinitExtras(a))
  }

  /** The lists a reset takes from its arguments: none on the fast path. */
  function SuppliedLists(a: SeqGroupArgs, useDefaults: bool): PerSeqLists
  {
    if TakesSimplePath(a, useDefaults) then NoLists else GivenLists(a)
  }

  /** A reset raises `IndexError` exactly when it reaches a list too short for the sub-sequences. */
  lemma ReinitDefinedIffNoShortList(s: SeqGroupState, a: SeqGroupArgs, useDefaults: bool)
    requires |a.seqIds| == |s.info.seqIds|
    ensures ReinitDefined(s, a, useDefaults) <==>
      FirstShortList(s.lists, SuppliedLists(a, useDefaults), |a.seqIds|) == 8
  {
    if TakesSimplePath(a, useDefaults) {
      SimpleResetIsGeneral(s.lists);
    }
  }

  /**
   * The record after a reset that raised `IndexError` on a list too short for
   * the sub-sequences: the request fields are assigned, with `n_seqs` as
   * passed rather than recounted; the lists up to and including the short one
   * are handled, the later lists, the adapter state and the extras are as they
   * were.
   */
  function ReinitFailedState(s: SeqGroupState, a: SeqGroupArgs, useDefaults: bool): (r: SeqGroupState)
    requires |a.seqIds| == |s.info.seqIds| && !ReinitDefined(s, a, useDefaults)
    ensures r.info == RequestInfo(a.requestId, a.seqIds, a.isPrompt, a.blockTables, a.computedBlockNums,
                                  a.nSeqs, a.encoderSeqLen)
    ensures r.adapters == s.adapters && r.extras == s.extras
    ensures ClearedUnlessGiven(r.lists.inputTokens, SuppliedLists(a, useDefaults).inputTokens,
                               s.lists.inputTokens, |a.seqIds|)
    ensures r.lists.currSlidingWindowBlocks == s.lists.currSlidingWindowBlocks
            || TooShort(SuppliedLists(a, useDefaults).currSlidingWindowBlocks, s.lists.currSlidingWindowBlocks, |a.seqIds|)
  {
    ReinitDefinedIffNoShortList(s, a, useDefaults);
    var args := SuppliedLists(a, useDefaults);
    var n := |a.seqIds|;
    SeqGroupState(ReinitInfo(a).(nSeqs := a.nSeqs), ListsThrough(s.lists, args, n, FirstShortList(s.lists, args, n)),
                  s.adapters, s.extras)
  }

  /** Every per-sub-sequence list argument is either absent or has one entry per sub-sequence. */
  predicate ListArgsFit(a: SeqGroupArgs)
  {
    var n := |a.seqIds|;
    && (a.inputTokens == [] || |a.inputTokens| == n)
    && (a.inputPositions == [] || |a.inputPositions| == n)
    && (a.tokenTypes == [] || |a.tokenTypes| == n)
    && (a.seqLens == [] || |a.seqLens| == n)
    && (a.origSeqLens == [] || |a.origSeqLens| == n)
    && (a.queryLens == [] || |a.queryLens| == n)
    && (a.contextLens == [] || |a.contextLens| == n)
    && (a.currSlidingWindowBlocks == [] || |a.currSlidingWindowBlocks| == n)
  }

  /** A reset keeps the record invariant as long as the lists it is handed fit. */
  lemma ReinitKeepsWellShaped(s: SeqGroupState, a: SeqGroupArgs, useDefaults: bool)
    requires WellShaped(s) && |a.seqIds| == |s.info.seqIds| && ListArgsFit(a)
    ensures ReinitDefined(s, a, useDefaults)
    ensures WellShaped(ReinitState(s, a, useDefaults))
  {
    var n := |a.seqIds|;
    if TakesSimplePath(a, useDefaults) {
      assert ReinitLists(s.lists, a, useDefaults) == SimpleResetLists(s.lists);
    } else {
      assert ReinitLists(s.lists, a, useDefaults) == ListsThrough(s.lists, GivenLists(a), n, 7);
    }
  }

  /** No per-sub-sequence list, mapping or LoRA request is supplied. */
  predicate NoListArgs(a: SeqGroupArgs)
  {
    && a.inputTokens == [] && a.inputPositions == [] && a.tokenTypes == []
    && a.seqLens == [] && a.origSeqLens == [] && a.queryLens == []
    && a.contextLens == [] && a.currSlidingWindowBlocks == []
    && a.loraIndexMapping == [] && a.loraPromptMapping == [] && a.loraRequests == {}
    && a.promptAdapterIndexMapping == [] && a.promptAdapterPromptMapping == []
  }

  /**
   * Resetting a well-shaped record without supplying lists gives exactly the
   * record fresh construction would give from the same arguments.
   */
  lemma {:induction false} ResetMatchesFresh(s: SeqGroupState, a: SeqGroupArgs, useDefaults: bool)
    requires WellShaped(s) && |a.seqIds| == |s.info.seqIds| && NoListArgs(a)
    ensures ReinitDefined(s, a, useDefaults)
    ensures ReinitState(s, a, useDefaults) == FreshState(a)
  {
    var n := |a.seqIds|;
    if TakesSimplePath(a, useDefaults) {
      SimpleResetIsFresh(s, a);
      assert a.(loraRequests := {}, promptAdapterIndexMapping := [], promptAdapterPromptMapping := []) == a;
    } else {
      assert ClearFirst(s.lists.inputTokens, n) == EmptyLists(n);
      assert ClearFirst(s.lists.inputPositions, n) == EmptyLists(n);
      assert ClearFirst(s.lists.tokenTypes, n) == EmptyLists(n);
      assert ZeroFirst(s.lists.seqLens, n) == Zeros(n);
      assert ZeroFirst(s.lists.origSeqLens, n) == Zeros(n);
      assert ZeroFirst(s.lists.queryLens, n) == Zeros(n);
      assert ZeroFirst(s.lists.contextLens, n) == Zeros(n);
      assert ZeroFirst(s.lists.currSlidingWindowBlocks, n) == Zeros(n);
    }
  }

  /**
   * The fast reset of a one-sub-sequence record ignores any lists supplied, as
   * fresh construction does, but always empties the LoRA request set and the
   * prompt-adapter mappings, which fresh construction takes from its arguments.
   */
  lemma {:induction false} SimpleResetIsFresh(s: SeqGroupState, a: SeqGroupArgs)
    requires WellShaped(s) && |a.seqIds| == |s.info.seqIds| == 1
    ensures ReinitDefined(s, a, true)
    ensures ReinitState(s, a, true) ==
      FreshState(a.(loraRequests := {}, promptAdapterIndexMapping := [], promptAdapterPromptMapping := []))
  {
    assert SimpleResetLists(s.lists) == FreshLists(1);
  }

  /**
   * One `InterDataForSeqGroup` object. Its attributes are held in four
   * records, following the groups the constructor's parameter list is laid out
   * in (sequence-group metadata, token and length lists, LoRA and
   * prompt-adapter inputs, and the rest); every update of an attribute replaces
   * that attribute in its record.
   */
  class InterData {
    var info: RequestInfo
    var lists: PerSeqLists
    var adapters: AdapterState
    var extras: RequestExtras

    /** The current value of every attribute. */
    function Snapshot(): SeqGroupState
      reads this
    {
      SeqGroupState(info, lists, adapters, extras)
    }

    /** Fresh construction (`reinit=False`), ending in `__post_init__`. */
    constructor (a: SeqGroupArgs)
      ensures Snapshot() == FreshState(a)
    {
      var s := ConstructorAssigned(a);
      info := s.info;
      lists := s.lists;
      adapters := s.adapters;
      extras := s.extras;
      new;
      PostInit();
    }

    /** `__post_init__` */
    method PostInit()
      modifies this
      ensures Snapshot() == PostInitState(old(Snapshot()))
    {
      info := info.(nSeqs := |info.seqIds|);
      lists := FreshLists(info.nSeqs);
      adapters := adapters.(loraIndexMapping := [], loraPromptMapping := []);
    }

    /**
     * `simple_reinit`: empties or zeroes entry 0 of each list in turn and then
     * clears the adapter state; an empty list raises `IndexError` (`ok` false)
     * with the lists before it already handled and the adapters untouched.
     */
    method SimpleReinit() returns (ok: bool)
      modifies this
      ensures ok <==> SimpleResetDefined(old(lists))
      ensures ok ==> lists == SimpleResetLists(old(lists)) && adapters == ClearedAdapters
      ensures !ok ==> lists == ListsThrough(old(lists), NoLists, 1, FirstShortList(old(lists), NoLists, 1))
                      && adapters == old(adapters)
      ensures info == old(info) && extras == old(extras)
    {
      SimpleResetIsGeneral(lists);
      ghost var l := lists;
      if |lists.inputTokens| == 0 { return false; }
      lists := lists.(inputTokens := lists.inputTokens[0 := []]);
      if |lists.inputPositions| == 0 { return false; }
      lists := lists.(inputPositions := lists.inputPositions[0 := []]);
      if |lists.tokenTypes| == 0 { return false; }
      lists := lists.(tokenTypes := lists.tokenTypes[0 := []]);
      lists := lists.(mropeInputPositions := None);
      if |lists.seqLens| == 0 { return false; }
      lists := lists.(seqLens := lists.seqLens[0 := 0]);
      if |lists.origSeqLens| == 0 { return false; }
      lists := lists.(origSeqLens := lists.origSeqLens[0 := 0]);
      if |lists.queryLens| == 0 { return false; }
      lists := lists.(queryLens := lists.queryLens[0 := 0]);
      if |lists.contextLens| == 0 { return false; }
      lists := lists.(contextLens := lists.contextLens[0 := 0]);
      if |lists.currSlidingWindowBlocks| == 0 { return false; }
      lists := lists.(currSlidingWindowBlocks := lists.currSlidingWindowBlocks[0 := 0]);
      adapters := adapters.(loraIndexMapping := [], loraPromptMapping := [], loraRequests := {});
      adapters := adapters.(promptAdapterIndexMapping := [], promptAdapterPromptMapping := []);
      ok := true;
    }

    /** `self.seq_ids[i] = seq_id` for every index: the list object is kept, its elements replaced. */
    method OverwriteSeqIds(newIds: seq<int>)
      requires |newIds| == |info.seqIds|
      modifies this
      ensures info == old(info).(seqIds := newIds)
      ensures lists == old(lists) && adapters == old(adapters) && extras == old(extras)
    {
      var i := 0;
      while i < |newIds|
        invariant 0 <= i <= |newIds| == |info.seqIds|
        invariant info == old(info).(seqIds := newIds[..i] + old(info).seqIds[i..])
        invariant lists == old(lists) && adapters == old(adapters) && extras == old(extras)
      {
        SpliceStep(newIds, old(info).seqIds, i);
        info := info.(seqIds := info.seqIds[i := newIds[i]]);
        i := i + 1;
      }
      assert newIds[..i] + old(info).seqIds[i..] == newIds;
    }

    /** The list branch of the general reset; `ok` is false when a list is too short. */
    method ResetLists(a: SeqGroupArgs) returns (ok: bool)
      modifies this
      ensures info == old(info) && adapters == old(adapters) && extras == old(extras)
      ensures ok <==> GeneralResetDefined(old(lists), a, |info.seqIds|)
      ensures lists == ListsThrough(old(lists), GivenLists(a), |info.seqIds|,
                                    FirstShortList(old(lists), GivenLists(a), |info.seqIds|))
    {
      lists, ok := GeneralReset(lists, a, |info.seqIds|);
    }

    /** The adapter branch of the general reset: take each supplied mapping or set, else clear it. */
    method ResetAdapters(a: SeqGroupArgs)
      modifies this
      ensures adapters == AdapterState(a.loraIndexMapping, a.loraPromptMapping, a.loraRequests,
                                       a.promptAdapterIndexMapping, a.promptAdapterPromptMapping)
      ensures info == old(info) && lists == old(lists) && extras == old(extras)
    {
      if a.loraIndexMapping != [] {
        adapters := adapters.(loraIndexMapping := a.loraIndexMapping);
      } else {
        adapters := adapters.(loraIndexMapping := []);
      }
      if a.loraPromptMapping != [] {
        adapters := adapters.(loraPromptMapping := a.loraPromptMapping);
      } else {
        adapters := adapters.(loraPromptMapping := []);
      }
      if a.loraRequests != {} {
        adapters := adapters.(loraRequests := a.loraRequests);
      } else {
        adapters := adapters.(loraRequests := {});
      }
      if a.promptAdapterIndexMapping != [] {
        adapters := adapters.(promptAdapterIndexMapping := a.promptAdapterIndexMapping);
      } else {
        adapters := adapters.(promptAdapterIndexMapping := []);
      }
      if a.promptAdapterPromptMapping != [] {
        adapters := adapters.(promptAdapterPromptMapping := a.promptAdapterPromptMapping);
      } else {
        adapters := adapters.(promptAdapterPromptMapping := []);
      }
    }

    /**
     * Reset in place (`reinit=True`). Fails with nothing changed when the new
     * `seq_ids` list does not have the old length (the assertion); fails part
     * way, as `ReinitFailedState` says, when a list it clears or zeroes by
     * index is too short (`IndexError`); otherwise resets as `ReinitState`
     * says.
     */
    method Reinit(a: SeqGroupArgs, useDefaults: bool) returns (err: Option<ReinitError>)
      modifies this
      ensures err == Some(SeqIdsLengthMismatch) <==> |old(info.seqIds)| != |a.seqIds|
      ensures err == Some(SeqIdsLengthMismatch) ==> Snapshot() == old(Snapshot())
      ensures err == Some(ListTooShort) <==>
        |old(info.seqIds)| == |a.seqIds| && !ReinitDefined(old(Snapshot()), a, useDefaults)
      ensures err == Some(ListTooShort) ==> Snapshot() == ReinitFailedState(old(Snapshot()), a, useDefaults)
      ensures err.None? ==> Snapshot() == ReinitState(old(Snapshot()), a, useDefaults)
    {
      if |info.seqIds| != |a.seqIds| {
        return Some(SeqIdsLengthMismatch);
      }
      OverwriteSeqIds(a.seqIds);
      info := info.(requestId := a.requestId, isPrompt := a.isPrompt, blockTables := a.blockTables,
                    computedBlockNums := a.computedBlockNums, nSeqs := a.nSeqs,
                    encoderSeqLen := a.encoderSeqLen);
      var ok;
      if |info.seqIds| == 1 && useDefaults {
        ok := SimpleReinit();
      } else {
        ok := ResetLists(a);
        if ok {
          ResetAdapters(a);
        }
      }
      if !ok {
        return Some(ListTooShort);
      }
      extras := RequestExtras(a.promptAdapterRequest, a.multiModalKwargs,
                              a.multiModalPlaceholderMaps, a.prefixCacheHit);
      info := info.(nSeqs := |info.seqIds|);
      err := None;
    }
  }
}

/**
 * The values that flow between the batch builder and the execution path:
 * adapter requests and mappings, attention and sampling metadata (opaque
 * beyond the fields this core reads or sets) and the model input record.
 */
module ModelInputs {
  import opened Wrappers

  /** A LoRA adapter request; the profiling run fabricates `warmup_<id>` ones. */
  datatype LoraRequest = LoraRequest(loraName: string, loraIntId: int, loraPath: string)

  /** A prompt-adapter request, identified by its adapter id. */
  datatype PromptAdapterRequest = PromptAdapterRequest(adapterId: int)

  /** One request's multi-modal keyword arguments; merged by an external batching call. */
  datatype MultiModalKwargs = MultiModalKwargs(payloadId: int)

  /** Placeholder ranges of one modality; opaque here. */
  datatype PlaceholderMap = PlaceholderMap(ranges: seq<int>)

  /** `MultiModalKwargs.batch(list)`: the merge keeps the non-`None` payloads in order. */
  datatype MultiModalBatch = MultiModalBatch(items: seq<MultiModalKwargs>)

  datatype LoraMapping = LoraMapping(indexMapping: seq<int>, promptMapping: seq<int>, isPrefill: bool)

  datatype PromptAdapterMapping = PromptAdapterMapping(indexMapping: seq<int>, promptMapping: seq<int>)

  /** What `attn_backend.get_kv_cache_shape` was asked for, for one layer. */
  datatype KvCacheShape = KvCacheShape(numBlocks: nat, blockSize: nat, numKvHeads: nat, headSize: nat)

  /**
   * Attention metadata produced by the backend's builder from `seq_lens` and
   * `query_lens`; the profiling run later sets its block table, slot mapping
   * and dummy caches.
   */
  datatype AttnMetadata = AttnMetadata(
    seqLens: seq<int>,
    queryLens: seq<int>,
    blockTables: Option<seq<seq<int>>>,
    slotMapping: Option<seq<int>>,
    dummyKvCaches: Option<seq<KvCacheShape>>)

  /** Sampling metadata; only the token selection used for hidden-state snapshots is read here. */
  datatype SamplingMetadata = SamplingMetadata(selectedTokenIndices: seq<int>)

  /** A registered asynchronous completion callback. */
  datatype Callback = Callback(callbackId: int)

  /** Position data: one flat list, or three rotary axes ("mrope"). */
  datatype Positions = SingleAxis(flat: seq<int>) | ThreeAxis(axes: seq<seq<int>>)

  /** The model input record; every field the builder does not fill stays at its default. */
  datatype ModelInput = ModelInput(
    inputTokens: Option<seq<int>>,
    inputPositions: Option<Positions>,
    attnMetadata: Option<AttnMetadata>,
    seqLens: Option<seq<int>>,
    queryLens: Option<seq<int>>,
    loraMapping: Option<LoraMapping>,
    loraRequests: Option<set<LoraRequest>>,
    multiModalKwargs: Option<MultiModalBatch>,
    requestIdsToSeqIds: Option<map<string, seq<int>>>,
    finishedRequestsIds: Option<seq<string>>,
    promptAdapterMapping: Option<PromptAdapterMapping>,
    promptAdapterRequests: Option<set<PromptAdapterRequest>>,
    virtualEngine: int,
    samplingMetadata: Option<SamplingMetadata>,
    isPrompt: Option<bool>,
    asyncCallback: Option<Callback>)

  /** `model_input_cls()`: the placeholder returned for an empty batch. */
  const DefaultModelInput: ModelInput :=
    ModelInput(None, None, None, None, None, None, None, None, None, None, None, None, 0, None, None, None)

  /** One scheduled sequence group, reduced to what this core reads of it. */
  datatype SamplingParams = SamplingParams(topP: real, topK: int)

  datatype SeqGroupMetadata = SeqGroupMetadata(
    requestId: string,
    isPrompt: bool,
    seqIds: seq<int>,
    seqLen: nat,
    samplingParams: SamplingParams,
    blockTables: Option<map<int, seq<int>>>,
    loraRequest: Option<LoraRequest>)
}

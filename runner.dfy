/**
 * The NPU model runner's execution path: attaching sampling metadata to a
 * built batch, the `execute_model` decision procedure and the profiling run
 * that sizes a dummy batch and its throwaway KV cache.
 *
 * The forward pass, logits computation, sampling, hidden-state selection and
 * the KV-transfer receive are collaborators whose results are given as
 * values or functions; what this model tracks is which of them is called, in
 * which order, with what, and what is returned.
 */
module Runner {
  import opened Wrappers
  import opened SeqUtil
  import opened ModelInputs
  import opened Profiling

  // ---------------------------------------------------------------------
  // Preparing the model input
  // ---------------------------------------------------------------------

  /**
   * `prepare_model_input` after the batch was built: sampling metadata only on
   * the last pipeline rank, `is_prompt` from the first group (`None` for an
   * empty list), the given virtual engine, and every other field as built.
   */
  function PrepareModelInput(
    groups: seq<SeqGroupMetadata>, virtualEngine: int, built: ModelInput,
    isLastRank: bool, sampling: SamplingMetadata): (r: ModelInput)
    ensures r.samplingMetadata.Some? <==> isLastRank
    ensures isLastRank ==> r.samplingMetadata == Some(sampling)
    ensures r.isPrompt.Some? <==> groups != []
    ensures groups != [] ==> r.isPrompt == Some(groups[0].isPrompt)
    ensures r.virtualEngine == virtualEngine
    ensures r.(samplingMetadata := built.samplingMetadata, isPrompt := built.isPrompt,
               virtualEngine := built.virtualEngine) == built
  {
    built.(samplingMetadata := if isLastRank then Some(sampling) else None,
           isPrompt := if groups != [] then Some(groups[0].isPrompt) else None,
           virtualEngine := virtualEngine)
  }

  // ---------------------------------------------------------------------
  // Collaborators of `execute_model`
  // ---------------------------------------------------------------------

  /** The model's output on one rank: hidden states, or the tensors handed to the next rank. */
  datatype States = HiddenStates(hiddenId: int) | IntermediateTensors(tensors: map<string, real>)

  datatype Logits = Logits(logitsId: int)

  /** A sampler result, with the slots the runner fills in. */
  datatype SamplerOutput = SamplerOutput(
    sampleId: int,
    modelForwardTime: Option<real>,
    hiddenStates: Option<States>,
    prefillHiddenStates: Option<States>)

  /** The entry of the intermediate tensors that carries the accumulated forward time. */
  const ForwardTimeKey: string := "model_forward_time"

  /** The runner's configuration as `execute_model` reads it. */
  datatype RunnerConfig = RunnerConfig(
    loraEnabled: bool,
    promptAdapterEnabled: bool,
    isDriverWorker: bool,
    returnHiddenStates: bool,
    collectForwardTime: bool)   // an observability config asking for the forward time

  /** What the KV-transfer receive hands back: states, the bypass flag and a possibly changed input. */
  datatype Received = Received(states: States, bypass: bool, modelInput: ModelInput)

  /** This rank's place in the pipeline and its KV-transfer role for the batch. */
  datatype StepContext = StepContext(
    isLastRank: bool,
    needRecvKv: bool,
    needSendKv: bool,
    received: Received)

  /** The model and the device timer, as functions of what they are given. */
  datatype Collaborators = Collaborators(
    forward: (ModelInput, Option<map<string, real>>) -> States,
    computeLogits: (States, Option<SamplingMetadata>) -> Logits,
    sample: (Logits, Option<SamplingMetadata>) -> SamplerOutput,
    indexSelect: (States, seq<int>) -> States,
    forwardTime: real)   // the time between the two timing events around the forward pass

  /** The calls `execute_model` makes into its collaborators, in order. */
  datatype Call =
    | SetActiveLoras(loraRequests: set<LoraRequest>, loraMapping: LoraMapping)
    | SetActivePromptAdapters(adapterRequests: set<PromptAdapterRequest>, adapterMapping: PromptAdapterMapping)
    | BeginForward(input: ModelInput)
    | RecvKv(input: ModelInput)
    | Forward(input: ModelInput, virtualEngine: int)
    | SendKv(input: ModelInput, states: States)
    | ComputeLogits(logitsOf: States)
    | RunAsyncCallback(callback: Callback)
    | Sample(logits: Logits)

  datatype ExecError =
    | NumStepsUnsupported        // `num_steps > 1`
    | LoraInputsMissing          // LoRA on, but no requests or mapping in the input
    | PromptAdapterInputsMissing // prompt adapters on, but no requests or mapping
    | AttnMetadataMissing        // no attention metadata after staging began
    | SamplingMetadataMissing    // hidden states requested without sampling metadata

  datatype ExecOutput = PipelineStates(states: States) | SamplerOutputs(outputs: seq<SamplerOutput>)

  datatype Outcome = Outcome(result: Result<ExecOutput, ExecError>, calls: seq<Call>)

  // ---------------------------------------------------------------------
  // The decision procedure of `execute_model`
  // ---------------------------------------------------------------------

  /** The forward time carried in from the previous rank, 0 when there is none. */
  function UpstreamForwardTime(upstream: Option<map<string, real>>): real
  {
    if upstream.Some? && ForwardTimeKey in upstream.value then upstream.value[ForwardTimeKey] else 0.0
  }

  predicate LoraInputsReady(mi: ModelInput)
  {
    mi.loraRequests.Some? && mi.loraMapping.Some?
  }

  predicate PromptAdapterInputsReady(mi: ModelInput)
  {
    mi.promptAdapterRequests.Some? && mi.promptAdapterMapping.Some?
  }

  /** The input after the optional KV-transfer receive, which may replace it. */
  function InputAfterRecv(mi: ModelInput, ctx: StepContext): ModelInput
  {
    if ctx.needRecvKv then ctx.received.modelInput else mi
  }

  predicate Bypassed(ctx: StepContext)
  {
    ctx.needRecvKv && ctx.received.bypass
  }

  /** The states the rank works on: received when bypassed, the forward pass's otherwise. */
  function StatesOf(mi: ModelInput, upstream: Option<map<string, real>>, ctx: StepContext, co: Collaborators): States
  {
    if Bypassed(ctx) then ctx.received.states else co.forward(InputAfterRecv(mi, ctx), upstream)
  }

  /**
   * A driver on a non-last rank with timing on records, in the intermediate
   * tensors it hands on, its own forward time plus the upstream one.
   */
  function StampIntermediate(cfg: RunnerConfig, states: States, upstream: Option<map<string, real>>, t: real): (r: States)
    ensures r.IntermediateTensors? <==> states.IntermediateTensors?
    ensures r.IntermediateTensors? && cfg.isDriverWorker && cfg.collectForwardTime ==>
      r.tensors.Keys == states.tensors.Keys + {ForwardTimeKey}
      && UpstreamForwardTime(Some(r.tensors)) == t + UpstreamForwardTime(upstream)
    ensures !(cfg.isDriverWorker && cfg.collectForwardTime) ==> r == states
    ensures r.IntermediateTensors? ==>
      forall k :: k in states.tensors && k != ForwardTimeKey ==> k in r.tensors && r.tensors[k] == states.tensors[k]
  {
    if cfg.isDriverWorker && states.IntermediateTensors? && cfg.collectForwardTime then
      IntermediateTensors(states.tensors[ForwardTimeKey := t + UpstreamForwardTime(upstream)])
    else states
  }

  /** The hidden-state snapshot: for a prompt batch the selected rows plus the full tensor. */
  function WithHiddenStates(out: SamplerOutput, mi: ModelInput, states: States, co: Collaborators): SamplerOutput
    requires mi.samplingMetadata.Some?
  {
    if mi.isPrompt == Some(true) then
      out.(hiddenStates := Some(co.indexSelect(states, mi.samplingMetadata.value.selectedTokenIndices)),
           prefillHiddenStates := Some(states))
    else out.(hiddenStates := Some(states))
  }

  /** Last rank: logits always; a driver then runs the callback, samples and decorates one output. */
  function SampleStage(cfg: RunnerConfig, mi: ModelInput, states: States,
                       upstream: Option<map<string, real>>, co: Collaborators): (o: Outcome)
    ensures forall c :: c in o.calls ==> c.ComputeLogits? || c.RunAsyncCallback? || c.Sample?
    ensures o.result.Success? <==> !(cfg.isDriverWorker && cfg.returnHiddenStates && mi.samplingMetadata.None?)
    ensures o.result.Success? ==> o.result.value.SamplerOutputs?
    ensures o.result.Success? ==> |o.result.value.outputs| == if cfg.isDriverWorker then 1 else 0
    ensures o.calls != [] && o.calls[0] == ComputeLogits(states)
    ensures cfg.isDriverWorker ==>
      o.calls[|o.calls| - 1] == Sample(co.computeLogits(states, mi.samplingMetadata))
    ensures o.result.Success? && cfg.isDriverWorker ==>
      var raw := co.sample(co.computeLogits(states, mi.samplingMetadata), mi.samplingMetadata);
      var out := o.result.value.outputs[0];
      && out.sampleId == raw.sampleId
      && out.modelForwardTime ==
           (if cfg.collectForwardTime then Some(UpstreamForwardTime(upstream) + co.forwardTime)
            else raw.modelForwardTime)
      && out.hiddenStates ==
           (if !cfg.returnHiddenStates || mi.samplingMetadata.None? then raw.hiddenStates
            else if mi.isPrompt == Some(true)
            then Some(co.indexSelect(states, mi.samplingMetadata.value.selectedTokenIndices))
            else Some(states))
      && out.prefillHiddenStates ==
           (if cfg.returnHiddenStates && mi.isPrompt == Some(true) then Some(states) else raw.prefillHiddenStates)
  {
    var logits := co.computeLogits(states, mi.samplingMetadata);
    var withLogits := [ComputeLogits(states)];
    if !cfg.isDriverWorker then Outcome(Success(SamplerOutputs([])), withLogits)
    else
      var sampled := withLogits
        + (if mi.asyncCallback.Some? then [RunAsyncCallback(mi.asyncCallback.value)] else [])
        + [Sample(logits)];
      var out := co.sample(logits, mi.samplingMetadata);
      var timed := if cfg.collectForwardTime
        then out.(modelForwardTime := Some(UpstreamForwardTime(upstream) + co.forwardTime))
        else out;
      if !cfg.returnHiddenStates then Outcome(Success(SamplerOutputs([timed])), sampled)
      else if mi.samplingMetadata.None? then Outcome(Failure(SamplingMetadataMissing), sampled)
      else Outcome(Success(SamplerOutputs([WithHiddenStates(timed, mi, states, co)])), sampled)
  }

  /** Whether a call reaches the logits or the sampler. */
  predicate Samples(c: Call)
  {
    c.ComputeLogits? || c.Sample?
  }

  /** The calls of the KV receive, the forward pass and the KV send, in that order. */
  function TransferCalls(mi: ModelInput, ctx: StepContext, input: ModelInput, states: States): (r: seq<Call>)
    ensures forall c :: c in r ==> !Samples(c)
    ensures Forward(input, mi.virtualEngine) in r <==> !Bypassed(ctx)
    ensures forall c :: c in r && c.Forward? ==> c == Forward(input, mi.virtualEngine)
  {
    (if ctx.needRecvKv then [RecvKv(mi)] else [])
    + (if Bypassed(ctx) then [] else [Forward(input, mi.virtualEngine)])
    + (if ctx.needSendKv then [SendKv(input, states)] else [])
  }

  /** From the KV receive on: forward unless bypassed, send, then hand on or sample. */
  function ForwardStage(cfg: RunnerConfig, mi: ModelInput, upstream: Option<map<string, real>>,
                        ctx: StepContext, co: Collaborators): (o: Outcome)
    ensures !ctx.isLastRank ==>
      o.result.Success? && o.result.value.PipelineStates? && forall c :: c in o.calls ==> !Samples(c)
    ensures !ctx.isLastRank ==>
      o.result.value.states == StampIntermediate(cfg, StatesOf(mi, upstream, ctx, co), upstream, co.forwardTime)
    ensures ctx.isLastRank ==>
      (o.result.Success? <==> !(cfg.isDriverWorker && cfg.returnHiddenStates
                                 && InputAfterRecv(mi, ctx).samplingMetadata.None?))
      && (o.result.Success? ==>
            o.result.value.SamplerOutputs? && |o.result.value.outputs| == if cfg.isDriverWorker then 1 else 0)
    ensures Forward(InputAfterRecv(mi, ctx), mi.virtualEngine) in o.calls <==> !Bypassed(ctx)
    ensures forall c :: c in o.calls && c.Forward? ==> c == Forward(InputAfterRecv(mi, ctx), mi.virtualEngine)
  {
    var input := InputAfterRecv(mi, ctx);
    var states := StatesOf(mi, upstream, ctx, co);
    var transfers := TransferCalls(mi, ctx, input, states);
    if !ctx.isLastRank then
      Outcome(Success(PipelineStates(StampIntermediate(cfg, states, upstream, co.forwardTime))), transfers)
    else
      var sampled := SampleStage(cfg, input, states, upstream, co);
      Outcome(sampled.result, transfers + sampled.calls)
  }

  /** The adapter activation: which input assertion failed, if any, and the calls made. */
  datatype Activation = Activation(missing: Option<ExecError>, calls: seq<Call>)

  /**
   * The LoRA requests and mapping are asserted present and activated, then
   * the prompt-adapter ones; an absent LoRA input fails before any call.
   */
  function ActivateSpec(cfg: RunnerConfig, mi: ModelInput): (a: Activation)
    ensures a.missing.None? <==>
      (cfg.loraEnabled ==> LoraInputsReady(mi)) && (cfg.promptAdapterEnabled ==> PromptAdapterInputsReady(mi))
    ensures a.missing == Some(LoraInputsMissing) <==> cfg.loraEnabled && !LoraInputsReady(mi)
    ensures a.missing.Some? ==> a.missing == Some(LoraInputsMissing) || a.missing == Some(PromptAdapterInputsMissing)
    ensures a.missing == Some(LoraInputsMissing) ==> a.calls == []
    ensures forall c :: c in a.calls ==> c.SetActiveLoras? || c.SetActivePromptAdapters?
  {
    if cfg.loraEnabled && !LoraInputsReady(mi) then Activation(Some(LoraInputsMissing), [])
    else
      var loras := if cfg.loraEnabled then [SetActiveLoras(mi.loraRequests.value, mi.loraMapping.value)] else [];
      if cfg.promptAdapterEnabled && !PromptAdapterInputsReady(mi) then
        Activation(Some(PromptAdapterInputsMissing), loras)
      else
        Activation(None, loras + if cfg.promptAdapterEnabled
          then [SetActivePromptAdapters(mi.promptAdapterRequests.value, mi.promptAdapterMapping.value)]
          else [])
  }

  /** Whether the step gets past every guard and assertion. */
  predicate ExecuteSucceeds(cfg: RunnerConfig, mi: ModelInput, numSteps: int, ctx: StepContext)
  {
    numSteps <= 1
    && (cfg.loraEnabled ==> LoraInputsReady(mi))
    && (cfg.promptAdapterEnabled ==> PromptAdapterInputsReady(mi))
    && mi.attnMetadata.Some?
    && !(ctx.isLastRank && cfg.isDriverWorker && cfg.returnHiddenStates
         && InputAfterRecv(mi, ctx).samplingMetadata.None?)
  }

  /**
   * `execute_model` for one step: its result and the collaborator calls it
   * makes. More than one step is refused before any call; a non-last rank
   * never reaches the logits or the sampler; on the last rank a non-driver
   * returns no output and the driver exactly one.
   */
  function ExecuteSpec(cfg: RunnerConfig, mi: ModelInput, upstream: Option<map<string, real>>,
                       numSteps: int, ctx: StepContext, co: Collaborators): (o: Outcome)
    ensures o.result == Failure(NumStepsUnsupported) <==> numSteps > 1
    ensures numSteps > 1 ==> o.calls == []
    ensures o.result.Success? <==> ExecuteSucceeds(cfg, mi, numSteps, ctx)
    ensures o.result.Success? && !ctx.isLastRank ==>
      o.result.value.PipelineStates? && forall c :: c in o.calls ==> !Samples(c)
    ensures o.result.Success? && !ctx.isLastRank ==>
      o.result.value.states == StampIntermediate(cfg, StatesOf(mi, upstream, ctx, co), upstream, co.forwardTime)
    ensures o.result.Success? && ctx.isLastRank ==>
      o.result.value.SamplerOutputs?
      && |o.result.value.outputs| == if cfg.isDriverWorker then 1 else 0
  {
    if numSteps > 1 then Outcome(Failure(NumStepsUnsupported), [])
    else
      var act := ActivateSpec(cfg, mi);
      if act.missing.Some? then Outcome(Failure(act.missing.value), act.calls)
      else
        var staged := act.calls + [BeginForward(mi)];
        if mi.attnMetadata.None? then Outcome(Failure(AttnMetadataMissing), staged)
        else
          var rest := ForwardStage(cfg, mi, upstream, ctx, co);
          Outcome(rest.result, staged + rest.calls)
  }

  // ---------------------------------------------------------------------
  // Properties of a step
  // ---------------------------------------------------------------------

  /** The forward pass runs exactly when the receive did not bypass it, with the engine read before the receive. */
  lemma ForwardUnlessBypassed(cfg: RunnerConfig, mi: ModelInput, upstream: Option<map<string, real>>,
                              numSteps: int, ctx: StepContext, co: Collaborators)
    requires ExecuteSucceeds(cfg, mi, numSteps, ctx)
    ensures var o := ExecuteSpec(cfg, mi, upstream, numSteps, ctx, co);
      (Forward(InputAfterRecv(mi, ctx), mi.virtualEngine) in o.calls <==> !Bypassed(ctx))
      && (forall c :: c in o.calls && c.Forward? ==> c == Forward(InputAfterRecv(mi, ctx), mi.virtualEngine))
  {
    var staged := ActivateSpec(cfg, mi).calls + [BeginForward(mi)];
    var rest := ForwardStage(cfg, mi, upstream, ctx, co);
    assert ExecuteSpec(cfg, mi, upstream, numSteps, ctx, co) == Outcome(rest.result, staged + rest.calls);
    assert forall c :: c in staged ==> !c.Forward?;
    assert forall c :: c in staged + rest.calls <==> c in staged || c in rest.calls;
  }

  /** With timing on, a driver on a non-last rank hands on its own forward time plus the upstream one. */
  lemma IntermediateForwardTime(cfg: RunnerConfig, mi: ModelInput, upstream: Option<map<string, real>>,
                                numSteps: int, ctx: StepContext, co: Collaborators)
    requires ExecuteSucceeds(cfg, mi, numSteps, ctx) && !ctx.isLastRank
    requires cfg.isDriverWorker && cfg.collectForwardTime
    requires StatesOf(mi, upstream, ctx, co).IntermediateTensors?
    ensures var r := ExecuteSpec(cfg, mi, upstream, numSteps, ctx, co).result;
      r.Success? && r.value.PipelineStates? && r.value.states.IntermediateTensors?
      && UpstreamForwardTime(Some(r.value.states.tensors)) == co.forwardTime + UpstreamForwardTime(upstream)
  {
    var staged := ActivateSpec(cfg, mi).calls + [BeginForward(mi)];
    var rest := ForwardStage(cfg, mi, upstream, ctx, co);
    assert ExecuteSpec(cfg, mi, upstream, numSteps, ctx, co) == Outcome(rest.result, staged + rest.calls);
  }

  /** With timing on, the driver's one output carries the upstream time plus its own. */
  lemma OutputForwardTime(cfg: RunnerConfig, mi: ModelInput, upstream: Option<map<string, real>>,
                          numSteps: int, ctx: StepContext, co: Collaborators)
    requires ExecuteSucceeds(cfg, mi, numSteps, ctx) && ctx.isLastRank
    requires cfg.isDriverWorker && cfg.collectForwardTime
    ensures var r := ExecuteSpec(cfg, mi, upstream, numSteps, ctx, co).result;
      r.Success? && r.value.SamplerOutputs? && |r.value.outputs| == 1
      && r.value.outputs[0].modelForwardTime == Some(UpstreamForwardTime(upstream) + co.forwardTime)
  {
    var staged := ActivateSpec(cfg, mi).calls + [BeginForward(mi)];
    var rest := ForwardStage(cfg, mi, upstream, ctx, co);
    assert ExecuteSpec(cfg, mi, upstream, numSteps, ctx, co) == Outcome(rest.result, staged + rest.calls);
  }

  /**
   * Hidden-state snapshot: for a prompt batch the output carries the rows the
   * sampler selects and the full tensor; otherwise the full tensor only.
   */
  lemma HiddenStateSnapshot(cfg: RunnerConfig, mi: ModelInput, upstream: Option<map<string, real>>,
                            numSteps: int, ctx: StepContext, co: Collaborators)
    requires ExecuteSucceeds(cfg, mi, numSteps, ctx) && ctx.isLastRank
    requires cfg.isDriverWorker && cfg.returnHiddenStates
    ensures var r := ExecuteSpec(cfg, mi, upstream, numSteps, ctx, co).result;
      var input := InputAfterRecv(mi, ctx);
      var states := StatesOf(mi, upstream, ctx, co);
      r.Success? && r.value.SamplerOutputs? && |r.value.outputs| == 1
      && input.samplingMetadata.Some?
      && r.value.outputs[0].hiddenStates ==
           Some(if input.isPrompt == Some(true)
                then co.indexSelect(states, input.samplingMetadata.value.selectedTokenIndices)
                else states)
      && (input.isPrompt == Some(true) ==> r.value.outputs[0].prefillHiddenStates == Some(states))
  {
    var staged := ActivateSpec(cfg, mi).calls + [BeginForward(mi)];
    var rest := ForwardStage(cfg, mi, upstream, ctx, co);
    assert ExecuteSpec(cfg, mi, upstream, numSteps, ctx, co) == Outcome(rest.result, staged + rest.calls);
  }

  /**
   * The driver's one output is the sampler's result on the logits of the
   * states the rank worked on, with only the forward time and the hidden-state
   * slots filled in; the last call is that sampling.
   */
  lemma DriverOutputIsSample(cfg: RunnerConfig, mi: ModelInput, upstream: Option<map<string, real>>,
                             numSteps: int, ctx: StepContext, co: Collaborators)
    requires ExecuteSucceeds(cfg, mi, numSteps, ctx) && ctx.isLastRank && cfg.isDriverWorker
    ensures var o := ExecuteSpec(cfg, mi, upstream, numSteps, ctx, co);
      var input := InputAfterRecv(mi, ctx);
      var states := StatesOf(mi, upstream, ctx, co);
      var logits := co.computeLogits(states, input.samplingMetadata);
      var raw := co.sample(logits, input.samplingMetadata);
      o.result.Success? && o.result.value.SamplerOutputs? && |o.result.value.outputs| == 1
      && o.result.value.outputs[0].sampleId == raw.sampleId
      && (!cfg.collectForwardTime ==> o.result.value.outputs[0].modelForwardTime == raw.modelForwardTime)
      && (!cfg.returnHiddenStates ==>
            o.result.value.outputs[0].hiddenStates == raw.hiddenStates
            && o.result.value.outputs[0].prefillHiddenStates == raw.prefillHiddenStates)
      && o.calls[|o.calls| - 1] == Sample(logits)
      && ComputeLogits(states) in o.calls
  {
    var staged := ActivateSpec(cfg, mi).calls + [BeginForward(mi)];
    var input := InputAfterRecv(mi, ctx);
    var states := StatesOf(mi, upstream, ctx, co);
    var sampled := SampleStage(cfg, input, states, upstream, co);
    var transfers := TransferCalls(mi, ctx, input, states);
    assert ForwardStage(cfg, mi, upstream, ctx, co) == Outcome(sampled.result, transfers + sampled.calls);
    assert ExecuteSpec(cfg, mi, upstream, numSteps, ctx, co)
        == Outcome(sampled.result, staged + (transfers + sampled.calls));
    assert (staged + (transfers + sampled.calls))[|staged| + |transfers|] == sampled.calls[0];
  }

  /** A missing LoRA request set or mapping fails the step before any collaborator is called. */
  lemma MissingLoraInputsCallNothing(cfg: RunnerConfig, mi: ModelInput, upstream: Option<map<string, real>>,
                                     numSteps: int, ctx: StepContext, co: Collaborators)
    requires numSteps <= 1 && cfg.loraEnabled && !LoraInputsReady(mi)
    ensures ExecuteSpec(cfg, mi, upstream, numSteps, ctx, co) == Outcome(Failure(LoraInputsMissing), [])
  {
  }

  // ---------------------------------------------------------------------
  // Forward time along the pipeline
  // ---------------------------------------------------------------------

  function RealSum(ts: seq<real>): real
  {
    if ts == [] then 0.0 else RealSum(ts[..|ts| - 1]) + ts[|ts| - 1]
  }

  /**
   * The tensors handed on after ranks `0..|ts|-1` each stamp their forward
   * time (`ts[k]`) onto the tensors their forward pass produced (`outs[k]`);
   * the first rank has no upstream.
   */
  function HandedOn(cfg: RunnerConfig, outs: seq<map<string, real>>, ts: seq<real>): Option<map<string, real>>
    requires |outs| == |ts|
  {
    if ts == [] then None
    else
      var k := |ts| - 1;
      Some(StampIntermediate(cfg, IntermediateTensors(outs[k]), HandedOn(cfg, outs[..k], ts[..k]), ts[k]).tensors)
  }

  /** With every driver timing, the time handed on is the sum of every rank's own forward time. */
  lemma {:induction false} ForwardTimeAccumulates(cfg: RunnerConfig, outs: seq<map<string, real>>, ts: seq<real>)
    requires |outs| == |ts|
    requires cfg.isDriverWorker && cfg.collectForwardTime
    ensures UpstreamForwardTime(HandedOn(cfg, outs, ts)) == RealSum(ts)
  {
    if ts != [] {
      var k := |ts| - 1;
      ForwardTimeAccumulates(cfg, outs[..k], ts[..k]);
    }
  }

  // ---------------------------------------------------------------------
  // The runner object
  // ---------------------------------------------------------------------

  /** What the profiling run reads from the scheduler, model and LoRA configuration. */
  datatype ProfileConfig = ProfileConfig(
    maxNumBatchedTokens: nat,
    maxNumSeqs: nat,
    maxMmTokens: int,
    vocabSize: int,
    loraEnabled: bool,
    maxLoras: nat)

  /** The dummy batch the profiling run builds, and whether the multi-modal clamp warned. */
  datatype ProfilePlan = ProfilePlan(
    seqs: seq<SeqGroupMetadata>,
    finishedRequestsIds: seq<string>,
    batchSize: nat,
    clampWarning: bool)

  /** The throwaway cache of the profiling run: per-layer shapes, block table, slot mapping. */
  datatype DummyCache = DummyCache(kvCaches: seq<KvCacheShape>, blockTables: seq<seq<int>>, slots: seq<int>)

  /** The model dimensions the dummy cache is shaped by. */
  datatype ModelShape = ModelShape(numLayers: nat, numKvHeads: nat, headSize: nat)

  /** Lengths the attention metadata can carry: never negative. */
  predicate SeqLensValid(mi: ModelInput)
  {
    mi.attnMetadata.Some? ==> forall i :: 0 <= i < |mi.attnMetadata.value.seqLens| ==> mi.attnMetadata.value.seqLens[i] >= 0
  }

  /** The prepared input with the dummy cache attached to its attention metadata. */
  function WithDummyCache(mi: ModelInput, cache: DummyCache): ModelInput
    requires mi.attnMetadata.Some?
  {
    mi.(attnMetadata := Some(mi.attnMetadata.value.(
      blockTables := Some(cache.blockTables),
      slotMapping := Some(cache.slots),
      dummyKvCaches := Some(cache.kvCaches))))
  }

  /** The dummy batch `profile_run` builds for the given configuration. */
  predicate PlanMatches(p: ProfileConfig, plan: ProfilePlan)
    requires LorasPerSeq(p.loraEnabled, p.maxLoras, p.maxNumSeqs).Success?
  {
    var count := ProfileSeqCount(p.maxNumSeqs, p.maxNumBatchedTokens, p.maxMmTokens);
    var n := count.0;
    var per := LorasPerSeq(p.loraEnabled, p.maxLoras, p.maxNumSeqs).value;
    |plan.seqs| == n
    && (per == [] || n <= |per|)
    && (forall g :: 0 <= g < n ==> plan.seqs[g] == DummySeqGroup(p.maxNumBatchedTokens, n, g, p.vocabSize, per))
    && |plan.finishedRequestsIds| == n
    && (forall g :: 0 <= g < n ==> plan.finishedRequestsIds[g] == NatToString(g))
    && plan.batchSize == (if n == 0 then 0 else p.maxNumBatchedTokens)
    && plan.clampWarning == count.1
  }

  /** The one plan that matches the configuration: `n` dummy groups, the `g`-th named `str(g)`. */
  function PlannedProfile(p: ProfileConfig): (plan: ProfilePlan)
    requires LorasPerSeq(p.loraEnabled, p.maxLoras, p.maxNumSeqs).Success?
    ensures PlanMatches(p, plan)
  {
    var count := ProfileSeqCount(p.maxNumSeqs, p.maxNumBatchedTokens, p.maxMmTokens);
    var n := count.0;
    var per := LorasPerSeq(p.loraEnabled, p.maxLoras, p.maxNumSeqs).value;
    PerSeqLoraInRange(p.loraEnabled, p.maxLoras, p.maxNumSeqs, p.maxNumBatchedTokens, p.maxMmTokens);
    ProfilePlan(
      seq(n, (g: int) requires 0 <= g < n => DummySeqGroup(p.maxNumBatchedTokens, n, g, p.vocabSize, per)),
      seq(n, (g: int) requires 0 <= g < n => NatToString(g)),
      if n == 0 then 0 else p.maxNumBatchedTokens,
      count.1)
  }

  /** A plan that matches the configuration is the planned one: the profiling batch is determined. */
  lemma PlanMatchesUnique(p: ProfileConfig, plan: ProfilePlan)
    requires LorasPerSeq(p.loraEnabled, p.maxLoras, p.maxNumSeqs).Success?
    requires PlanMatches(p, plan)
    ensures plan == PlannedProfile(p)
  {
    var planned := PlannedProfile(p);
    assert plan.seqs == planned.seqs;
    assert plan.finishedRequestsIds == planned.finishedRequestsIds;
  }

  /** The dummy block count `profile_run` reserves for the given configuration. */
  function PlannedBlockNum(p: ProfileConfig): nat
  {
    var n := ProfileSeqCount(p.maxNumSeqs, p.maxNumBatchedTokens, p.maxMmTokens).0;
    DummyBlockNum(n, if n == 0 then 0 else CeilDiv(p.maxNumBatchedTokens, n))
  }

  /** The dummy cache for these prefill lengths and token count, at the given layout. */
  function DummyCacheFor(lens: seq<int>, numTokens: nat, shape: ModelShape, blockSize: nat, blockNum: nat): DummyCache
    requires lens != [] && forall i :: 0 <= i < |lens| ==> lens[i] >= 0
  {
    DummyCache(
      seq(shape.numLayers, _ => KvCacheShape(blockNum, blockSize, shape.numKvHeads, shape.headSize)),
      ZeroBlockTable(|lens|, CeilDiv(MaxOf(lens), DummyBlockSize)),
      seq(numTokens, (i: int) => i % DummyBlockSize))
  }

  /** The prepared input with its dummy cache attached, once everything it needs is present. */
  function WarmedInput(mi: ModelInput, shape: ModelShape, blockSize: nat, blockNum: nat): ModelInput
    requires SeqLensValid(mi)
    requires mi.attnMetadata.Some? && mi.attnMetadata.value.seqLens != [] && mi.inputTokens.Some?
  {
    WithDummyCache(mi, DummyCacheFor(mi.attnMetadata.value.seqLens, |mi.inputTokens.value|, shape, blockSize, blockNum))
  }

  datatype RunError = ProfileFailed(profileError: ProfileError) | ExecuteFailed(execError: ExecError)

  /** What the profiling run returns and the collaborator calls it makes. */
  datatype ProfileOutcome = ProfileOutcome(result: Result<ProfilePlan, RunError>, calls: seq<Call>)

  /** The intermediate tensors the profiling step starts from: none on the first rank, empty ones elsewhere. */
  function ProfileUpstream(isFirstRank: bool): Option<map<string, real>>
  {
    if isFirstRank then None else Some(map[])
  }

  /**
   * Whether `profile_run` gets through: the warm-up adapters can be chosen,
   * the prepared dummy batch has attention metadata, prefill lengths and
   * tokens, and the one step on it passes every guard of `execute_model`.
   */
  predicate ProfileSucceeds(cfg: RunnerConfig, p: ProfileConfig, prepare: (seq<SeqGroupMetadata>, seq<string>) -> ModelInput,
                            shape: ModelShape, ctx: StepContext)
    requires forall gs, ids :: SeqLensValid(prepare(gs, ids))
  {
    LorasPerSeq(p.loraEnabled, p.maxLoras, p.maxNumSeqs).Success?
    && var plan := PlannedProfile(p);
    var mi := prepare(plan.seqs, plan.finishedRequestsIds);
    mi.attnMetadata.Some? && mi.attnMetadata.value.seqLens != [] && mi.inputTokens.Some?
    && ExecuteSucceeds(cfg, WarmedInput(mi, shape, DummyBlockSize, PlannedBlockNum(p)), 1, ctx)
  }

  /**
   * `profile_run`: plan the dummy batch, prepare it, attach the dummy cache and
   * run one step on it. Only that step calls collaborators; it is never
   * refused for its step count; the run succeeds exactly when `ProfileSucceeds`
   * says, and then returns the planned batch.
   */
  function ProfileSpec(cfg: RunnerConfig, p: ProfileConfig, prepare: (seq<SeqGroupMetadata>, seq<string>) -> ModelInput,
                       shape: ModelShape, isFirstRank: bool, ctx: StepContext, co: Collaborators): (o: ProfileOutcome)
    requires forall gs, ids :: SeqLensValid(prepare(gs, ids))
    ensures o.result == Failure(ProfileFailed(NoDummyLoras)) <==> LorasPerSeq(p.loraEnabled, p.maxLoras, p.maxNumSeqs).Failure?
    ensures o.result.Success? <==> ProfileSucceeds(cfg, p, prepare, shape, ctx)
    ensures o.result.Success? ==> o.result.value == PlannedProfile(p)
    ensures o.result.Failure? && o.result.error.ProfileFailed? ==> o.calls == []
    ensures o.result.Failure? && o.result.error.ExecuteFailed? ==> o.result.error.execError != NumStepsUnsupported
    ensures !o.result.Failure? || !o.result.error.ProfileFailed? ==>
      var plan := PlannedProfile(p);
      var mi := prepare(plan.seqs, plan.finishedRequestsIds);
      && mi.attnMetadata.Some? && mi.attnMetadata.value.seqLens != [] && mi.inputTokens.Some?
      && o.calls == ExecuteSpec(cfg, WarmedInput(mi, shape, DummyBlockSize, PlannedBlockNum(p)),
                                ProfileUpstream(isFirstRank), 1, ctx, co).calls
  {
    if LorasPerSeq(p.loraEnabled, p.maxLoras, p.maxNumSeqs).Failure? then
      ProfileOutcome(Failure(ProfileFailed(NoDummyLoras)), [])
    else
      var plan := PlannedProfile(p);
      var mi := prepare(plan.seqs, plan.finishedRequestsIds);
      if mi.attnMetadata.None? then ProfileOutcome(Failure(ProfileFailed(MissingAttnMetadata)), [])
      else if mi.attnMetadata.value.seqLens == [] then ProfileOutcome(Failure(ProfileFailed(EmptyPrefillBatch)), [])
      else if mi.inputTokens.None? then ProfileOutcome(Failure(ProfileFailed(MissingInputTokens)), [])
      else
        var step := ExecuteSpec(cfg, WarmedInput(mi, shape, DummyBlockSize, PlannedBlockNum(p)),
                                ProfileUpstream(isFirstRank), 1, ctx, co);
        ProfileOutcome(if step.result.Failure? then Failure(ExecuteFailed(step.result.error)) else Success(plan),
                       step.calls)
  }

  class ModelRunner {
    const config: RunnerConfig
    /** Set by the profiling run; absent until then. */
    var dummyBlockSize: Option<nat>
    var dummyBlockNum: Option<nat>
    /** The calls made into collaborators so far. */
    var calls: seq<Call>

    constructor (config: RunnerConfig)
      ensures this.config == config
      ensures dummyBlockSize == None && dummyBlockNum == None && calls == []
    {
      this.config := config;
      dummyBlockSize := None;
      dummyBlockNum := None;
      calls := [];
    }

    /** One `execute_model` step; appends the calls it makes to `calls`. */
    method ExecuteModel(mi: ModelInput, upstream: Option<map<string, real>>, numSteps: int,
                        ctx: StepContext, co: Collaborators)
      returns (r: Result<ExecOutput, ExecError>)
      modifies this`calls
      ensures r == ExecuteSpec(config, mi, upstream, numSteps, ctx, co).result
      ensures calls == old(calls) + ExecuteSpec(config, mi, upstream, numSteps, ctx, co).calls
    {
      ghost var before := calls;
      if numSteps > 1 {
        assert before + [] == before;
        return Failure(NumStepsUnsupported);
      }
      var missing := ActivateAdapters(mi);
      if missing.Some? {
        assert before + [] == before;
        return Failure(missing.value);
      }
      calls := calls + [BeginForward(mi)];
      ghost var staged := ActivateSpec(config, mi).calls + [BeginForward(mi)];
      AppendAssoc(before, ActivateSpec(config, mi).calls, [BeginForward(mi)]);
      if mi.attnMetadata.None? {
        return Failure(AttnMetadataMissing);
      }
      r := RunForward(mi, upstream, ctx, co);
      AppendAssoc(before, staged, ForwardStage(config, mi, upstream, ctx, co).calls);
    }

    /** `set_active_loras` and `set_active_prompt_adapters`, each after asserting its inputs exist. */
    method ActivateAdapters(mi: ModelInput) returns (missing: Option<ExecError>)
      modifies this`calls
      ensures missing == ActivateSpec(config, mi).missing
      ensures calls == old(calls) + ActivateSpec(config, mi).calls
    {
      if config.loraEnabled {
        if mi.loraRequests.None? || mi.loraMapping.None? {
          return Some(LoraInputsMissing);
        }
        calls := calls + [SetActiveLoras(mi.loraRequests.value, mi.loraMapping.value)];
      }
      if config.promptAdapterEnabled {
        if mi.promptAdapterRequests.None? || mi.promptAdapterMapping.None? {
          return Some(PromptAdapterInputsMissing);
        }
        calls := calls + [SetActivePromptAdapters(mi.promptAdapterRequests.value, mi.promptAdapterMapping.value)];
      }
      return None;
    }

    /** From the KV receive on: the rest of the step once the guards passed. */
    method RunForward(mi: ModelInput, upstream: Option<map<string, real>>, ctx: StepContext, co: Collaborators)
      returns (r: Result<ExecOutput, ExecError>)
      modifies this`calls
      ensures r == ForwardStage(config, mi, upstream, ctx, co).result
      ensures calls == old(calls) + ForwardStage(config, mi, upstream, ctx, co).calls
    {
      ghost var before := calls;
      var input, states := Transfer(mi, upstream, ctx, co);
      ghost var transfers := TransferCalls(mi, ctx, input, states);
      if !ctx.isLastRank {
        ghost var stamped := StampIntermediate(config, states, upstream, co.forwardTime);
        assert ForwardStage(config, mi, upstream, ctx, co) == Outcome(Success(PipelineStates(stamped)), transfers);
        if config.isDriverWorker && states.IntermediateTensors? && config.collectForwardTime {
          var orig := 0.0;
          if upstream.Some? && ForwardTimeKey in upstream.value {
            orig := upstream.value[ForwardTimeKey];
          }
          states := IntermediateTensors(states.tensors[ForwardTimeKey := co.forwardTime + orig]);
        }
        assert states == stamped;
        return Success(PipelineStates(states));
      }
      ghost var sampled := SampleStage(config, input, states, upstream, co);
      assert ForwardStage(config, mi, upstream, ctx, co) == Outcome(sampled.result, transfers + sampled.calls);
      r := SampleOutput(input, states, upstream, co);
      AppendAssoc(before, transfers, sampled.calls);
    }

    /** The KV receive, the forward pass unless bypassed, and the KV send. */
    method Transfer(mi: ModelInput, upstream: Option<map<string, real>>, ctx: StepContext, co: Collaborators)
      returns (input: ModelInput, states: States)
      modifies this`calls
      ensures input == InputAfterRecv(mi, ctx) && states == StatesOf(mi, upstream, ctx, co)
      ensures calls == old(calls) + TransferCalls(mi, ctx, input, states)
    {
      var virtualEngine := mi.virtualEngine;
      input := mi;
      var bypassModelExec := false;
      var received: Option<States> := None;
      if ctx.needRecvKv {
        calls := calls + [RecvKv(input)];
        received, bypassModelExec, input := Some(ctx.received.states), ctx.received.bypass, ctx.received.modelInput;
      }
      if !bypassModelExec {
        calls := calls + [Forward(input, virtualEngine)];
        states := co.forward(input, upstream);
      } else {
        states := received.value;
      }
      if ctx.needSendKv {
        calls := calls + [SendKv(input, states)];
      }
    }

    /** The last rank's logits, and for the driver the callback, the sample and its decoration. */
    method SampleOutput(input: ModelInput, states: States, upstream: Option<map<string, real>>, co: Collaborators)
      returns (r: Result<ExecOutput, ExecError>)
      modifies this`calls
      ensures r == SampleStage(config, input, states, upstream, co).result
      ensures calls == old(calls) + SampleStage(config, input, states, upstream, co).calls
    {
      var logits := co.computeLogits(states, input.samplingMetadata);
      calls := calls + [ComputeLogits(states)];
      if !config.isDriverWorker {
        return Success(SamplerOutputs([]));
      }
      if input.asyncCallback.Some? {
        calls := calls + [RunAsyncCallback(input.asyncCallback.value)];
      }
      calls := calls + [Sample(logits)];
      var output := co.sample(logits, input.samplingMetadata);
      if config.collectForwardTime {
        output := output.(modelForwardTime := Some(UpstreamForwardTime(upstream) + co.forwardTime));
      }
      if config.returnHiddenStates {
        if input.samplingMetadata.None? {
          return Failure(SamplingMetadataMissing);
        }
        var indices := input.samplingMetadata.value.selectedTokenIndices;
        var hiddenStates: States;
        if input.isPrompt == Some(true) {
          hiddenStates := co.indexSelect(states, indices);
          output := output.(prefillHiddenStates := Some(states));
        } else {
          hiddenStates := states;
        }
        output := output.(hiddenStates := Some(hiddenStates));
      }
      return Success(SamplerOutputs([output]));
    }

    /**
     * `_create_dummy_kv_cache`: one cache of the declared shape per layer, an
     * all-zero block table with a row per prefill sequence and enough columns
     * for the longest, and a slot per token tiling one block's slots.
     */
    method CreateDummyKvCache(prefillSeqLens: seq<int>, numTokens: nat,
                              numLayers: nat, numKvHeads: nat, headSize: nat)
      returns (r: Result<DummyCache, ProfileError>)
      requires forall i :: 0 <= i < |prefillSeqLens| ==> prefillSeqLens[i] >= 0
      ensures r == Failure(EmptyPrefillBatch) <==> prefillSeqLens == []
      ensures r == Failure(DummyLayoutUnset) <==> prefillSeqLens != [] && (dummyBlockSize.None? || dummyBlockNum.None?)
      ensures r.Success? <==> prefillSeqLens != [] && dummyBlockSize.Some? && dummyBlockNum.Some?
      ensures r.Success? ==>
        |r.value.kvCaches| == numLayers
        && (forall l :: 0 <= l < numLayers ==>
              r.value.kvCaches[l] == KvCacheShape(dummyBlockNum.value, dummyBlockSize.value, numKvHeads, headSize))
        && r.value.blockTables == ZeroBlockTable(|prefillSeqLens|, CeilDiv(MaxOf(prefillSeqLens), DummyBlockSize))
        && |r.value.slots| == numTokens
        && (forall i :: 0 <= i < numTokens ==> r.value.slots[i] == i % DummyBlockSize)
        && r.value == DummyCacheFor(prefillSeqLens, numTokens, ModelShape(numLayers, numKvHeads, headSize),
                                    dummyBlockSize.value, dummyBlockNum.value)
    {
      if prefillSeqLens == [] {
        return Failure(EmptyPrefillBatch);
      }
      var maxS := MaxOf(prefillSeqLens);
      var maxNeedBlock := CeilDiv(maxS, DummyBlockSize);
      var batchSize := |prefillSeqLens|;
      if dummyBlockSize.None? || dummyBlockNum.None? {
        return Failure(DummyLayoutUnset);
      }
      var shape := KvCacheShape(dummyBlockNum.value, dummyBlockSize.value, numKvHeads, headSize);
      var kvCaches := seq(numLayers, _ => shape);
      var blockTables := ZeroBlockTable(batchSize, maxNeedBlock);
      var slots := DummySlotMapping(numTokens);
      return Success(DummyCache(kvCaches, blockTables, slots));
    }

    /**
     * The part of `profile_run` after the batch is prepared: build the dummy
     * cache from the prefill lengths and the token count, and attach its block
     * table, slot mapping and per-layer caches to the attention metadata.
     */
    method WarmupInput(mi: ModelInput, shape: ModelShape) returns (r: Result<(ModelInput, seq<KvCacheShape>), ProfileError>)
      requires SeqLensValid(mi)
      requires dummyBlockSize.Some? && dummyBlockNum.Some?
      ensures mi.attnMetadata.None? <==> r == Failure(MissingAttnMetadata)
      ensures mi.attnMetadata.Some? && mi.attnMetadata.value.seqLens == [] <==> r == Failure(EmptyPrefillBatch)
      ensures mi.attnMetadata.Some? && mi.attnMetadata.value.seqLens != [] && mi.inputTokens.None? <==>
        r == Failure(MissingInputTokens)
      ensures r.Success? <==>
        mi.attnMetadata.Some? && mi.attnMetadata.value.seqLens != [] && mi.inputTokens.Some?
      ensures r.Success? ==>
        var lens := mi.attnMetadata.value.seqLens;
        var attn := r.value.0.attnMetadata;
        r.value.0 == mi.(attnMetadata := attn)
        && attn.Some? && attn.value.seqLens == lens && attn.value.queryLens == mi.attnMetadata.value.queryLens
        && attn.value.blockTables == Some(ZeroBlockTable(|lens|, CeilDiv(MaxOf(lens), DummyBlockSize)))
        && attn.value.slotMapping.Some? && |attn.value.slotMapping.value| == |mi.inputTokens.value|
        && (forall i :: 0 <= i < |mi.inputTokens.value| ==> attn.value.slotMapping.value[i] == i % DummyBlockSize)
        && attn.value.dummyKvCaches == Some(r.value.1)
        && |r.value.1| == shape.numLayers
        && (forall l :: 0 <= l < shape.numLayers ==>
              r.value.1[l] == KvCacheShape(dummyBlockNum.value, dummyBlockSize.value, shape.numKvHeads, shape.headSize))
        && r.value.0 == WarmedInput(mi, shape, dummyBlockSize.value, dummyBlockNum.value)
    {
      if mi.attnMetadata.None? {
        return Failure(MissingAttnMetadata);
      }
      var lens := mi.attnMetadata.value.seqLens;
      if lens == [] {
        return Failure(EmptyPrefillBatch);
      }
      if mi.inputTokens.None? {
        return Failure(MissingInputTokens);
      }
      var cache := CreateDummyKvCache(lens, |mi.inputTokens.value|, shape.numLayers, shape.numKvHeads, shape.headSize);
      assert cache.Success?;
      return Success((WithDummyCache(mi, cache.value), cache.value.kvCaches));
    }

    /**
     * The sizing half of `profile_run`: the multi-modal clamp, the budget
     * split, the round-robin warm-up adapters and the dummy cache layout.
     */
    method PlanProfile(p: ProfileConfig) returns (r: Result<ProfilePlan, ProfileError>)
      modifies this`dummyBlockSize, this`dummyBlockNum
      ensures r.Failure? <==> LorasPerSeq(p.loraEnabled, p.maxLoras, p.maxNumSeqs).Failure?
      ensures r.Failure? ==>
        r.error == NoDummyLoras && dummyBlockSize == old(dummyBlockSize) && dummyBlockNum == old(dummyBlockNum)
      ensures r.Success? ==>
        PlanMatches(p, r.value)
        && dummyBlockSize == Some(DummyBlockSize) && dummyBlockNum == Some(PlannedBlockNum(p))
    {
      var perSeq := LorasPerSeq(p.loraEnabled, p.maxLoras, p.maxNumSeqs);
      if perSeq.Failure? {
        return Failure(NoDummyLoras);
      }
      var count := ProfileSeqCount(p.maxNumSeqs, p.maxNumBatchedTokens, p.maxMmTokens);
      var n := count.0;
      PerSeqLoraInRange(p.loraEnabled, p.maxLoras, p.maxNumSeqs, p.maxNumBatchedTokens, p.maxMmTokens);
      var seqs, batchSize, maxSeqLen := DummyBatch(p.maxNumBatchedTokens, n, p.vocabSize, perSeq.value);
      dummyBlockSize := Some(DummyBlockSize);
      dummyBlockNum := Some(DummyBlockNum(n, maxSeqLen));
      var finished := seq(n, (g: int) requires 0 <= g < n => seqs[g].requestId);
      return Success(ProfilePlan(seqs, finished, batchSize, count.1));
    }

    /**
     * `profile_run`: plan the dummy batch, prepare it, attach the dummy cache
     * and run one step on it; a rank that is not first starts from empty
     * intermediate tensors. The plan is returned for inspection; the source
     * returns nothing.
     */
    method ProfileRun(p: ProfileConfig, prepare: (seq<SeqGroupMetadata>, seq<string>) -> ModelInput,
                      shape: ModelShape, isFirstRank: bool, ctx: StepContext, co: Collaborators)
      returns (r: Result<ProfilePlan, RunError>)
      requires forall gs, ids :: SeqLensValid(prepare(gs, ids))
      modifies this`dummyBlockSize, this`dummyBlockNum, this`calls
      ensures r == ProfileSpec(config, p, prepare, shape, isFirstRank, ctx, co).result
      ensures calls == old(calls) + ProfileSpec(config, p, prepare, shape, isFirstRank, ctx, co).calls
      ensures r != Failure(ProfileFailed(NoDummyLoras)) ==>
        dummyBlockSize == Some(DummyBlockSize) && dummyBlockNum == Some(PlannedBlockNum(p))
      ensures r == Failure(ProfileFailed(NoDummyLoras)) ==>
        dummyBlockSize == old(dummyBlockSize) && dummyBlockNum == old(dummyBlockNum)
    {
      ghost var before := calls;
      var plan := PlanProfile(p);
      if plan.Failure? {
        assert before + [] == before;
        return Failure(ProfileFailed(plan.error));
      }
      PlanMatchesUnique(p, plan.value);
      var prepared := prepare(plan.value.seqs, plan.value.finishedRequestsIds);
      var warm := WarmupInput(prepared, shape);
      if warm.Failure? {
        assert before + [] == before;
        return Failure(ProfileFailed(warm.error));
      }
      var upstream := ProfileUpstream(isFirstRank);
      var executed := ExecuteModel(warm.value.0, upstream, 1, ctx, co);
      if executed.Failure? {
        return Failure(ExecuteFailed(executed.error));
      }
      return Success(plan.value);
    }
  }
}

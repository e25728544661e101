# NPU model runner: batch building, profiling and step execution

This project models the core of the vllm-ascend NPU model runner
(`vllm_ascend/model_runner.py`) in Dafny and proves properties of the model.
It covers four parts.

- **The batch builder.** `ModelInputForNPUBuilder.build` folds the ordered
  per-request records into one model input. Tokens, lengths and adapter
  mappings are concatenated in order. The request-to-sequence map keeps the
  last record for each request id. When any record carries rotary ("mrope")
  positions, every record contributes to three axes. Each sub-sequence is
  right-padded with zeros to `max_pos_len`, and the padding is written back
  into the records.
- **The per-request record.** `InterDataForSeqGroup` can be freshly
  constructed, which ends in `__post_init__`. It can also be reset in place
  (`reinit=True`), either by the general reset or by the single-sequence fast
  path `simple_reinit`.
- **The profiling run.** `profile_run` does the following:
  - clamps the number of dummy sequences for multi-modal models;
  - splits the token budget across the dummy sequences;
  - hands out warm-up LoRA adapters round-robin;
  - sizes the dummy KV cache (`dummy_block_num`);
  - builds that cache (`_create_dummy_kv_cache`): zero block tables and a
    slot mapping that tiles one 128-slot block;
  - attaches the cache to the prepared input and runs one step.
- **One step.** `execute_model` and `prepare_model_input`, with their
  collaborators as parameters:
  - the LoRA and prompt-adapter activation, the forward pass, the KV-transfer
    receive and send, the logits, the sampler and `index_select`;
  - on a non-last pipeline rank, the intermediate tensors are handed on;
  - on the last rank, the driver returns one decorated sampler output and
    other workers return none.

Files:

| file | module | contents |
|---|---|---|
| `wrappers.dfy` | `Wrappers` | `Option`, `Result` |
| `seq_util.dfy` | `SeqUtil` | `flatten_2d_lists`, `[0] * k`, `extend` padding, `max` |
| `model_input.dfy` | `ModelInputs` | the model-input dataclass, attention metadata, sequence-group metadata, adapter requests |
| `inter_data.dfy` | `InterDataModel` | the record as a class plus its value snapshot, construction and resets |
| `builder.dfy` | `Builder` | `BuildSpec` over snapshots and the imperative `Build` that pads the records in place |
| `builder_props.dfy` | `BuilderProperties` | ordering, membership, length and padding lemmas about `build` |
| `profiling.dfy` | `Profiling` | the profiling arithmetic, the dummy batch loop, the slot mapping loop, the warm-up adapters |
| `runner.dfy` | `Runner` | `prepare_model_input`, the `execute_model` specification, and the `ModelRunner` class (`execute_model`, `_create_dummy_kv_cache`, `profile_run`) |

**Structure.**
- Each imperative operation is a method that is proved against a
  specification function: `Build` against `BuildSpec`, and
  `ModelRunner.ExecuteModel` against `ExecuteSpec`. The properties are then
  proved about those functions.
- The record's 25 attributes live in four record-typed fields of the class
  `InterData`: `info`, `lists`, `adapters` and `extras`. This grouping
  follows the groups of the constructor's parameter list. An update of one
  attribute replaces it inside its group.
- `execute_model` appends every collaborator call it makes to the runner's
  `calls` field. Its contract fixes both the result and that exact call
  sequence.

**Behaviour worth noting.**
- **Mixed batch.** A 5-position prefill record without rotary axes next to a
  1-position decode record that has them gives three axes of 10 entries each:
  the decode record's axes are padded to `max_pos_len = 5` as well
  (`BuilderProperties.MixedBatchPositions`).
- **`max_pos_len`.** It reads only the first sub-sequence of each record
  (`len(inter_data.input_positions[0])`, line 58), and raises `IndexError`
  for a record that has no position lists.
- **Step count.** Only `num_steps > 1` is rejected; 0 and negative counts run
  a normal step.
- **Adapter inputs.** `execute_model` asserts the LoRA and prompt-adapter
  requests and mappings are present (lines 585-586 and 591-592). The model
  returns an error for a failed assertion, before any collaborator call for
  LoRA and after the LoRA activation for prompt adapters.
- **Profiling order.** The sequence count is clamped for multi-modal models
  first (lines 505-515), and the token budget is then split over the clamped
  count (lines 519-521).
- **Hidden states.** For a decode batch the driver's output carries the full
  hidden states. For a prompt batch it carries the `index_select`ed rows and
  sets `prefill_hidden_states` to the full tensor.
- **Virtual engine.** The forward pass uses the virtual engine read before
  the KV receive, even when the receive replaces the model input
  (line 602, then line 613).
- **Reset of a reused record.** A reset indexes the old lists by sub-sequence
  (lines 185-193 and 266-317). A list shorter than the new `seq_ids` raises
  `IndexError` part way: the request fields are already assigned, `n_seqs` is
  left as passed, and the lists before the short one are already reset.

## Model

| member | source | states |
|---|---|---|
| `SeqUtil.PadTo` | vllm_ascend/model_runner.py:69-71 | `extend([0] * (m - len))` keeps the list as its prefix, never truncates, and fills up to `m` with zeros |
| `SeqUtil.PadToIdempotent` | vllm_ascend/model_runner.py:67-71 | padding a list that is already padded to `m` changes nothing |
| `SeqUtil.FlattenAppend` | vllm_ascend/model_runner.py:96-97 | `flatten_2d_lists` of a concatenation is the concatenation of the flattenings |
| `SeqUtil.FlattenLength` | vllm_ascend/model_runner.py:43-46 | the flattened list is as long as all inner lists together |
| `InterDataModel.FreshState` | vllm_ascend/model_runner.py:346-391 | after construction: the request fields (`request_id`, `seq_ids`, `is_prompt`, `block_tables`, `computed_block_nums`, `encoder_seq_len`) and the extras (prompt-adapter request, multi-modal kwargs and placeholder maps, `prefix_cache_hit`) from the arguments; one empty token, position and token-type list and a zero length per sub-sequence; no rotary axes; empty LoRA mappings; the LoRA request set and prompt-adapter mappings from the arguments; `n_seqs == len(seq_ids)`; record invariant holds |
| `InterDataModel.FreshDiscardsPassedLists` | vllm_ascend/model_runner.py:347-356 | the per-sub-sequence lists passed to the constructor are overwritten by `__post_init__` and do not affect the record |
| `InterDataModel.TakeOrClear` | vllm_ascend/model_runner.py:268-284 | the clearing loop gives the supplied list, or the current one with its first `n` inner lists emptied; it raises (`ok` false) exactly when no list is supplied and the current one is shorter than `n`, after emptying all of it |
| `InterDataModel.TakeOrZero` | vllm_ascend/model_runner.py:288-317 | the zeroing loop gives the supplied list, or the current one with its first `n` entries set to 0; it raises exactly when no list is supplied and the current one is shorter than `n` |
| `InterDataModel.GeneralReset` | vllm_ascend/model_runner.py:266-317 | the lists are handled in the source's order; it raises exactly when a list it clears by index is too short, and then the lists up to that one are handled and the later ones untouched; otherwise every list is the supplied argument or the old one cleared or zeroed for the first `n` entries, and the rotary axes are dropped |
| `InterDataModel.SimpleResetIsGeneral` | vllm_ascend/model_runner.py:184-193 | the fast reset raises exactly when some list is empty, and otherwise equals the general reset for one sub-sequence with no list supplied |
| `InterDataModel.ReinitState` | vllm_ascend/model_runner.py:250-372 | after a reset that raises nothing: the request fields are the arguments with `n_seqs` recounted; rotary axes gone; on the general path each of the eight lists is the supplied argument or the old list with the entry of every sub-sequence emptied or zeroed and the rest kept, and the adapter mappings and request set are the arguments; on the fast path each list has entry 0 emptied or zeroed and every other entry kept, and the adapter state is cleared; the extras are the arguments |
| `InterDataModel.ReinitDefinedIffNoShortList` | vllm_ascend/model_runner.py:184-317 | a reset with the right `seq_ids` length raises `IndexError` exactly when it reaches a list too short for the sub-sequences, on either path |
| `InterDataModel.ReinitFailedState` | vllm_ascend/model_runner.py:250-317 | after a reset that raised `IndexError`: the request fields are assigned with `n_seqs` as passed; the first list is handled; the adapter state and extras are untouched; the last list is untouched unless it is the short one |
| `InterDataModel.ReinitKeepsWellShaped` | vllm_ascend/model_runner.py:250-345 | a reset of a well-shaped record with fitting list arguments raises nothing and keeps one entry per sub-sequence in every list |
| `InterDataModel.ResetMatchesFresh` | vllm_ascend/model_runner.py:250-391 | resetting a well-shaped record without list arguments gives exactly the freshly constructed record, on both paths |
| `InterDataModel.SimpleResetIsFresh` | vllm_ascend/model_runner.py:184-198 | the fast reset equals fresh construction except that it empties the LoRA request set and prompt-adapter mappings |
| `InterDataModel.InterData.constructor` | vllm_ascend/model_runner.py:200-391 | construction with `reinit=False` leaves the record `FreshState` describes |
| `InterDataModel.InterData.PostInit` | vllm_ascend/model_runner.py:377-391 | `__post_init__` recounts `n_seqs` and resets the per-sub-sequence lists and LoRA mappings |
| `InterDataModel.InterData.SimpleReinit` | vllm_ascend/model_runner.py:184-198 | raises exactly when some list is empty, with the lists before it already handled and the adapter state untouched; otherwise entry 0 of every list emptied or zeroed, rotary axes dropped and all adapter state cleared; the request fields and extras never change |
| `InterDataModel.InterData.OverwriteSeqIds` | vllm_ascend/model_runner.py:250-253 | the elements of `seq_ids` are replaced in place by the new ones; nothing else changes |
| `InterDataModel.InterData.Reinit` | vllm_ascend/model_runner.py:250-372 | a reset fails with nothing changed exactly when the new `seq_ids` have a different length (the assertion); it fails part way, leaving `ReinitFailedState`, exactly when a list it indexes is too short; otherwise it leaves `ReinitState` |
| `Builder.BuildSpec` | vllm_ascend/model_runner.py:38-179 | the empty batch, and only it, builds the default model input |
| `Builder.Build` | vllm_ascend/model_runner.py:38-179 | `build` returns `BuildSpec` of the records as they were and leaves the records padded as `ListsAfterBuild` says, also when a decode record's empty `seq_lens` fails after the padding |
| `Builder.BuildPositions` | vllm_ascend/model_runner.py:52-87 | fails with `IndexError` exactly when rotary axes are present and some record has no first position list; otherwise the positions are `PositionsOf` the records |
| `Builder.MropePositions` | vllm_ascend/model_runner.py:56-82 | the three axes are built from the records before padding, and every record ends padded by all three passes |
| `Builder.BuildMropeAxes` | vllm_ascend/model_runner.py:63-81 | the three padding passes give `MropeAxes` of the original lists |
| `Builder.BuildAxis` | vllm_ascend/model_runner.py:64-81 | one pass over the records builds axis `idx` and advances every record by one pass |
| `Builder.PadRecord` | vllm_ascend/model_runner.py:65-81 | one record's share of a pass: its lists are padded in place and its contribution is appended |
| `Builder.PadPositionsInto` | vllm_ascend/model_runner.py:66-73 | a record without rotary axes pads each position list in place and appends them all, in order |
| `Builder.PadAxisInto` | vllm_ascend/model_runner.py:74-81 | a record with rotary axes pads axis `idx` of each sub-sequence in place and appends them, in order |
| `Builder.CollectSeqLens` | vllm_ascend/model_runner.py:89-95 | the loop succeeds exactly when every decode record has a non-empty `seq_lens`, and then yields the concatenated `seq_lens` and `max_decode_seq_len` |
| `Builder.ContributionStable` | vllm_ascend/model_runner.py:63-81 | earlier passes do not change what a record contributes to a later axis |
| `BuilderProperties.TokensInOrder` | vllm_ascend/model_runner.py:43-46 | the token list is the records' tokens in record order |
| `BuilderProperties.TokensLength` | vllm_ascend/model_runner.py:43-46 | the token list has one entry per token of every sub-sequence |
| `BuilderProperties.LensInOrder` | vllm_ascend/model_runner.py:89-97 | `seq_lens` and `query_lens` keep the record order |
| `BuilderProperties.RequestMapKeys` | vllm_ascend/model_runner.py:100-103 | the request map's keys are exactly the records' request ids |
| `BuilderProperties.RequestMapLastWins` | vllm_ascend/model_runner.py:100-103 | a request id maps to the `seq_ids` of the last record carrying it |
| `BuilderProperties.MaxDecodeSeqLenIsMax` | vllm_ascend/model_runner.py:90-95 | `max_decode_seq_len` bounds every decode `seq_lens` entry and is 0 or one of them |
| `BuilderProperties.MaxDecodeSeqLenNoDecode` | vllm_ascend/model_runner.py:90-95 | with only prompt records it stays 0 |
| `BuilderProperties.LoraUnionMembers` | vllm_ascend/model_runner.py:122-126 | `lora_requests` holds exactly the requests some record carries |
| `BuilderProperties.PromptAdapterSetMembers` | vllm_ascend/model_runner.py:141-146 | `prompt_adapter_requests` holds exactly the records' non-`None` requests |
| `BuilderProperties.MultiModalItemsInOrder` | vllm_ascend/model_runner.py:161-165 | the multi-modal batch keeps the records' payload order |
| `BuilderProperties.MultiModalItemsMembers` | vllm_ascend/model_runner.py:161-165 | a payload is in the batch exactly when some record carries it |
| `BuilderProperties.PadEachLength` | vllm_ascend/model_runner.py:66-73 | the padded, flattened lists have the sum of `max(len, m)` entries |
| `BuilderProperties.ContributionShape` | vllm_ascend/model_runner.py:63-81 | a record without rotary axes gives every axis its padded positions; one with them gives axis `idx` its own padded axis `idx` |
| `BuilderProperties.PassesPadEveryAxis` | vllm_ascend/model_runner.py:63-81 | after the three passes every position list, or rotary axes 0 to 2 of every sub-sequence, is padded to `m`; nothing else in the record changes |
| `BuilderProperties.BuildPositionsOf` | vllm_ascend/model_runner.py:52-119 | a batch whose lookups succeed builds, and its positions are `PositionsOf` the records |
| `BuilderProperties.MaxPosLenOfTwo` | vllm_ascend/model_runner.py:57-61 | `max_pos_len` of two records is the larger first position count |
| `BuilderProperties.MixedBatchPositions` | vllm_ascend/model_runner.py:52-82 | a 5-position prefill record without rotary axes followed by a 1-position decode record with them gives three axes of 10 entries each |
| `Profiling.CeilDiv` | vllm_ascend/model_runner.py:426 | `math.ceil(a / b)` is the least count whose multiple covers `a` |
| `Profiling.CeilDivUnique` | vllm_ascend/model_runner.py:544-545 | any count `x` with `a <= x * b < a + b` is the ceiling |
| `Profiling.NatToString` | vllm_ascend/model_runner.py:531 | `str(group_id)` is non-empty, all digits, no leading zero |
| `Profiling.DecimalRoundTrip` | vllm_ascend/model_runner.py:531 | reading `str(n)` back gives `n` |
| `Profiling.NatToStringInjective` | vllm_ascend/model_runner.py:481 | distinct ids give distinct strings |
| `Profiling.ProfileSeqCount` | vllm_ascend/model_runner.py:503-515 | no clamp without multi-modal tokens; otherwise at least 1 sequence, the warning fires exactly when the clamp gives less than 1 (then 1), and otherwise the count is the largest `<= max_num_seqs` whose multi-modal tokens fit the budget |
| `Profiling.DummySeqLensBalanced` | vllm_ascend/model_runner.py:519-521 | the dummy lengths never increase and differ by at most one |
| `Profiling.DummySeqLensPrefixSum` | vllm_ascend/model_runner.py:519-522 | the first `k` lengths sum to `k * (budget // n) + min(k, budget % n)` |
| `Profiling.DummySeqLensSum` | vllm_ascend/model_runner.py:519-522 | the dummy lengths use exactly the whole token budget |
| `Profiling.DummyMaxSeqLen` | vllm_ascend/model_runner.py:519-523 | the longest dummy sequence has `ceil(budget / n)` tokens |
| `Profiling.MaxFromZero` | vllm_ascend/model_runner.py:518-523 | the running maximum from 0 bounds every entry and is 0 or one of them |
| `Profiling.DummyLoraRequestsDistinct` | vllm_ascend/model_runner.py:478-487 | the warm-up adapters have pairwise distinct names and ids |
| `Profiling.LorasPerSeq` | vllm_ascend/model_runner.py:473-491 | round-robin assignment: fails (modulo by zero) exactly when LoRA is on with no adapters and some sequences; one adapter per sequence, sequence `idx` getting the warm-up request `dummy_lora_requests[idx % max_loras]` (name, id `idx % max_loras + 1` and path) |
| `Profiling.RoundRobinCoversAll` | vllm_ascend/model_runner.py:488-491 | with at least as many sequences as adapters, every warm-up adapter is used and no other |
| `Profiling.PerSeqLoraInRange` | vllm_ascend/model_runner.py:505-537 | the clamped count never exceeds the per-sequence adapter list, so `dummy_lora_requests_per_seq[group_id]` is defined |
| `Profiling.DummyBatch` | vllm_ascend/model_runner.py:517-541 | the loop builds `n` dummy groups as `DummySeqGroup` says, `batch_size` equals the budget (0 for no sequences) and `max_seq_len` is `ceil(budget / n)` |
| `Profiling.DummyBatchTotals` | vllm_ascend/model_runner.py:517-523 | after all sequences the running total is the budget and the running maximum its ceiling share |
| `Profiling.DummySeqGroupIds` | vllm_ascend/model_runner.py:530-532 | dummy groups are prompts with pairwise distinct request ids |
| `Profiling.DummyBlocksCoverBudget` | vllm_ascend/model_runner.py:543-545 | the reserved 128-slot blocks hold every dummy sequence at the longest length, hence the whole budget |
| `Profiling.DummySlotMapping` | vllm_ascend/model_runner.py:449-458 | the slot loop gives one slot per token, slot `i` being `i % 128` |
| `Profiling.ZeroBlockTable` | vllm_ascend/model_runner.py:445-448 | `torch.zeros(rows, cols)`: `rows` rows of `cols` zeros |
| `Runner.PrepareModelInput` | vllm_ascend/model_runner.py:729-766 | sampling metadata exactly on the last rank, `is_prompt` from the first group and `None` exactly for an empty list, the given virtual engine, every other field as built |
| `Runner.StampIntermediate` | vllm_ascend/model_runner.py:665-681 | a timing driver adds its forward time to the upstream one under `model_forward_time` and keeps every other tensor and its value; otherwise the states pass unchanged |
| `Runner.SampleStage` | vllm_ascend/model_runner.py:683-727 | the logits call comes first and, for the driver, the sampling of those logits last; fails exactly when hidden states are requested without sampling metadata; one output for the driver, none otherwise; the driver's output is the sampler's result on `compute_logits(states)` with only the forward time and the hidden-state slots filled in as the configuration asks |
| `Runner.TransferCalls` | vllm_ascend/model_runner.py:611-662 | no logits or sampling; the forward call happens exactly when not bypassed, with the received input and the engine read before |
| `Runner.ForwardStage` | vllm_ascend/model_runner.py:611-727 | a non-last rank hands on exactly the states it worked on, stamped by `StampIntermediate`, without logits or sampling; the last rank fails or returns outputs as `SampleStage` says; the forward call happens exactly when not bypassed |
| `Runner.ActivateSpec` | vllm_ascend/model_runner.py:584-596 | which adapter assertion fails, if any; a missing LoRA input fails before any call; only activation calls are made |
| `Runner.ExecuteSpec` | vllm_ascend/model_runner.py:574-727 | more than one step fails with no call made; the step succeeds exactly when every guard and assertion passes; a non-last rank never reaches logits or sampling and hands on the received or forwarded states stamped with the forward time; on the last rank the driver returns one output and other workers none |
| `Runner.ForwardUnlessBypassed` | vllm_ascend/model_runner.py:602-645 | the forward pass runs exactly when the receive does not bypass it, always on the received input with the engine read before the receive |
| `Runner.IntermediateForwardTime` | vllm_ascend/model_runner.py:665-681 | a timing driver on a non-last rank hands on its own forward time plus the upstream one |
| `Runner.OutputForwardTime` | vllm_ascend/model_runner.py:697-712 | a timing driver's single output carries the upstream time plus its own |
| `Runner.HiddenStateSnapshot` | vllm_ascend/model_runner.py:714-725 | with hidden states requested: selected rows plus the full tensor as prefill states for a prompt batch, the full tensor for a decode batch |
| `Runner.DriverOutputIsSample` | vllm_ascend/model_runner.py:683-712 | the driver's one output is `sample(compute_logits(states))` with only the forward time and hidden-state slots changed, and the step's last call is that sampling |
| `Runner.MissingLoraInputsCallNothing` | vllm_ascend/model_runner.py:584-588 | LoRA on without requests or mapping fails before any collaborator is called |
| `Runner.ForwardTimeAccumulates` | vllm_ascend/model_runner.py:673-680 | along a pipeline of timing drivers the time handed on is the sum of every rank's own forward time |
| `Runner.ModelRunner.ExecuteModel` | vllm_ascend/model_runner.py:574-727 | result and appended calls are exactly those `ExecuteSpec` gives |
| `Runner.ModelRunner.ActivateAdapters` | vllm_ascend/model_runner.py:584-596 | activation as `ActivateSpec` says |
| `Runner.ModelRunner.RunForward` | vllm_ascend/model_runner.py:611-727 | the rest of the step as `ForwardStage` says |
| `Runner.ModelRunner.Transfer` | vllm_ascend/model_runner.py:611-662 | receive, forward unless bypassed, send, as `TransferCalls` says |
| `Runner.ModelRunner.SampleOutput` | vllm_ascend/model_runner.py:683-727 | logits, callback, sample and decoration as `SampleStage` says |
| `Runner.ModelRunner.CreateDummyKvCache` | vllm_ascend/model_runner.py:413-461 | fails on an empty prefill batch and then on an unset layout; otherwise one cache per layer of the declared shape, a zero block table of `len(seq_lens)` rows by `ceil(max / 128)` columns, and slot `i` being `i % 128` for every token |
| `Runner.ModelRunner.WarmupInput` | vllm_ascend/model_runner.py:550-554 | the prepared input with the dummy block table, slot mapping and caches attached to its attention metadata, and each missing piece reported as its own error |
| `Runner.ModelRunner.PlanProfile` | vllm_ascend/model_runner.py:464-547 | fails exactly when the round-robin has no adapters; otherwise the dummy batch, finished ids, batch size and clamp warning as planned, block size 128 and `dummy_block_num` set |
| `Runner.PlannedProfile` | vllm_ascend/model_runner.py:505-541 | the dummy batch as the source plans it matches `PlanMatches` |
| `Runner.PlanMatchesUnique` | vllm_ascend/model_runner.py:505-541 | only one plan matches a configuration: the profiling batch is determined by it |
| `Runner.ProfileSpec` | vllm_ascend/model_runner.py:464-563 | the run fails on the round-robin exactly when it has no adapters; it succeeds exactly when the prepared dummy batch has everything the warm-up needs and the step passes every guard, and then returns the planned batch; a warm-up failure makes no call; the step is never refused for its step count, and its calls are exactly those of one step on the prepared input with the dummy cache attached |
| `Runner.ModelRunner.ProfileRun` | vllm_ascend/model_runner.py:464-563 | result and appended calls are exactly those `ProfileSpec` gives; the dummy layout is set unless the round-robin failed, and untouched when it did |

## Left out

- Tensors and devices are not modelled. Token ids, positions and lengths are
  integer sequences. A KV cache is a shape record. Hidden states and logits
  are opaque identifiers.
- The model's forward pass, `compute_logits`, `sample` and `index_select`
  are function parameters. The KV-transfer receive is a given value, and
  `need_recv_kv`, `need_send_kv` and the pipeline-rank queries are booleans.
  These are foreign calls whose code is not part of this model.
- Forward time is not float timing. It is a real sum of a given
  per-rank duration; the timing events and `synchronize` are not modelled.
- `capture_model` (an empty stub), `make_model_input_from_broadcasted_tensor_dict`
  (deserialisation) and the `dump_input_when_exception` decorator are not
  modelled.
- The LoRA manager (`dummy_lora_cache`, `add_dummy_lora`) is not modelled.
  Only the warm-up requests it registers are modelled.
- The attention-metadata builder is replaced by a record of `seq_lens` and
  `query_lens`. The prefill metadata is folded into the same record, so its
  `seq_lens` stand for `prefill_metadata.seq_lens`.
- `MultiModalKwargs.batch` is replaced by the ordered list of the records'
  payloads.
- The dummy data generator for profiling and its multi-modal data are not
  modelled. Each dummy group carries only its length.
- `seqlen_agnostic_kwargs` and `has_inner_state` are not modelled. They only
  add keyword arguments to the forward pass.
- `Runner.ModelRunner.SampleOutput`: takes the sampler to always return an output.
  The code's `output is not None` check is therefore not modelled.
- `Runner.ModelRunner.ProfileRun`: the intermediate tensors of a rank that is
  not first are an empty map, standing for `make_empty_intermediate_tensors`.
  The method also returns the dummy batch plan, while the source returns
  `None`.
- `Runner.ModelRunner.ProfileRun`: the `prepare` parameter stands for
  `prepare_model_input` on the dummy batch, which is
  `_prepare_model_input_tensors` plus `Runner.PrepareModelInput`. It is
  required to give non-negative sequence lengths.
- `Runner.ModelRunner.CreateDummyKvCache`: requires non-negative prefill
  lengths, as sequence lengths always are. `math.ceil(max_s / 128)` is exact
  integer ceiling division, which the float computation equals for the
  sizes involved.
- `Profiling.DummyBlocksCoverBudget`: `math.ceil(max_seq_len / 128)` is
  likewise modelled as exact integer ceiling division.
- `Builder.Build`: requires that no record object occurs twice in the list
  (`Distinct`). With aliasing, the in-place padding would pad a shared record
  once per occurrence; this is not modelled.
- `Builder.Build`: requires each rotary record to have at least three axes
  per sub-sequence. With fewer, the code raises `IndexError` in the middle of
  the padding, and that partial state is not modelled.
- `max_decode_seq_len` is computed (`Builder.CollectSeqLens`) but `build`
  never uses it, as in the source.
- `vllm_ascend/ops`, `quant_config.py`, `utils.py` and `__init__.py` are not
  part of this model.

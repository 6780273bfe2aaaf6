# Verification of the distributed inference pipeline

A language model is cut into stages. A gateway turns a prompt into tokens by sending
requests through the stages; each stage keeps per-request state, remembers answers, and
is fed by queues and byte streams. These Dafny modules model that pipeline, in the forms
the code has, and prove what it is supposed to keep.

`dafny verify dfyconfig.toml` checks everything.

## The parts

**Generation over staged caches (Python).** `Lru` is an ordered dictionary used as a
bounded table, and its law: after any gets and puts it is the most recently used part of
an unbounded map. `StageFlow` is one stage's handling of a request (remembered answers,
the cache policy, the step check), `StageCaches` the same with the objects the code
updates in place, each method tied to the functions. A stage's model part is an abstract
causal function of rows; its cache is the rows it has taken in. `Generation` is the
gateway's loop: with one prefill and single-token decodes it generates what it generates
with whole-sequence requests, whatever other requests do to the stages in between, as
long as they keep this request's entries. `KvInterleaving` takes that last condition
apart: it runs many requests on one stage at the granularity of its locks and shows that
a request keeps its cache exactly when fewer than the table's limit of other ids were used
between its uses, and what a step that comes later is run on. `PipelineRun` puts gateways
and stages together: any number of requests, any interleaving of their steps at the
granularity of the locks, and every request that was in time generates what recomputing
everything generates; with no more requests than table entries, every request does.
`PipelineProgress` shows that from every reachable state every request reaches its end by
its own steps, and the reference's end if it was in time and the stages still hold its
caches. `PipelineAnswers` adds the stages' remembered answers, each look and each keeping a
step of its own, and shows that such a run is a run without them.

**Two concurrent machines.** `Backpressure` and `ForwardBroker` each have the object with
its critical sections and a machine over all interleavings of threads: single flight and
bounded waiting; answers given once, in order, with nothing left when the worker
returns, no lost wake-up, and after a stop a way to the worker's return from every state.

**The stage map.** `StageMap` splits the layers and prints the map, `ConfigText` and
`StageMapLoaders` are the two line-based readers, `StageMapEntries`, `StageMapRoundTrip`
and `StageMapAgreement` prove what they read back, `StageMapContents` says so in plain words
and line by line, and `WrittenMap` does it for maps that anyone may write. `PartitionGraph` is the gateway's
check of a graph against its specification, `TensorPlan` and `TensorAssignment` the
division of a model file's tensors, with exactly one owner each.

**Native routing.** `Metadata` is the list of keys that travels with a frame, read by first
match. `MetadataText` is the same as text: the reader's patterns, with their alternatives
and their kinds of values, find on every text that prints such a list what its first
matches say. `MetadataPrint` builds the nested texts that the gateway and the stages print,
and proves what is read from them; `ChainText` is the chain metrics in such a text: the
patterns that take them out, and that a chain of stages leaves the last ones only and
changes nothing that a reader of requests understands; `MetadataSpelled` is what is printed,
key by key. `Routing` compares the gateway's own loop over the stages with stages calling
each other, over the graph that the gateway reads from a printed map and the next URLs
that the stages read from it, for stages of any kind; `NativeLoop` is the native generation
loop, over either; `PassTrail` follows one forward pass from visit to visit; `StageRuntimes` are the two kinds of stages that there are, and
`StageStart` is how a stage's process starts from its entry in the map, and which fleets of
stages can generate a token.

**Wire.** `Frames` (DLI2), `HttpReader`, `HttpText` and `HttpHeader` (messages from
arbitrarily split byte streams, printed by the repository or by others, sections 6.2 and 6.3
of RFC 9112), `JsonText` and `JsonFields` (string
escapes, section 7 of RFC 8259, and the leftmost-match lookup), `Quantise` (int8
activations over the reals). `Decimal`, `TextLines`, `Sorting` and `Basics` are shared.

## What the code does that its documentation does not say

- A repeated decode request is not answered with its remembered activation: the lookup
  reports the same cache length before and after, and the step check turns that into a
  500 (`StageFlow.ExecutedDecodeCannotBeRetried`). The cache is left alone exactly as long
  as the answer is remembered; once it is forgotten, a repeat is executed and the cache
  grows a second time (`StageFlow.DecodeGrowsUnlessRemembered`).
- A cache evicted between `get` and `get_or_create` goes unnoticed: the step runs against
  an empty cache and is accepted if the stage answers with one row
  (`KvInterleaving.DecodeForwardIsExact`). For every table limit there is a schedule that
  does this (`KvInterleaving.SqueezedDecode`); it happens exactly when as many other ids as
  the table has entries were used between the two looks (`KvInterleaving.SecondLookIsExact`).
- Where a header block ends decides whether the HTTP readers depend on how the network
  splits the stream. They look at the limit only after a whole `recv`, so a header that
  ends between 65538 and 73728 bytes is read or refused by chance
  (`HttpReader.SplitIndependence`).
- A negative Content-Length is a length: `-18446744073709551615` announces one byte, and `-1`
  is refused only for being too large (`HttpHeader.LastLengthDecides`).
- A stage's process reads the map's list of stages to its end, so that a stage elsewhere whose
  number cannot be read keeps it from starting (`WrittenMap.BadNumberStopsStage`).
- The response reader takes a body that was cut short for the whole body
  (`HttpText.CutResponseIsAccepted`).
- The gateway's check does not ask who owns the final norm (`TensorPlan.NormIsNotChecked`).
- A stage that holds the embedding never answers as the final one. So a map with one stage is
  printed, accepted and served, and generates nothing: every request ends in an error on its
  first token (`StageStart.OneStageGeneratesNothing`). A printed map can generate a token
  exactly if it has at least two stages and every stage's process comes up, which it does
  exactly with the shard of its own entry and never as a stub
  (`StageStart.PrintedMapGenerates`, `StageStart.StartsWithShard`).
- The two routing modes are only the same because of what the runtimes answer. For runtimes
  in general, chain mode stops at the first stage that answers as the final one and the
  gateway's own loop at the last partition (`Routing.HubIsChain`), and a `top_p` or `seed`
  that a request leaves open could be picked up from a backend's own metadata
  (`Metadata.ControlsRideAlong`); the repository's runtimes do neither
  (`StageRuntimes.BothModesDoTheSame`, `StageRuntimes.RuntimesAreTold`).
- Short metadata names lose the metadata level (`Metadata.RequestMetaIsRead`).
- An int8 payload has one scale for all rows, so a row sent alone can be restored differently
  from the same row sent with others (`Quantise.Int8IsNotRowByRow`). It is restored alike
  exactly when what it is restored to alone is made of whole multiples of the joint scale
  (`Quantise.RestoredAlikeExactly`); above the smallest scale that means that the others do
  not enlarge the scale, or that it has no codes but 0, 127 and -127 and its largest element is a
  whole multiple of the joint scale (`Quantise.RestoredAlikeAboveFloor`).

## Model

| member | source | states |
|---|---|---|
| Lru.BoundedCacheIsRecentPartOfMap | src/python/dli/feature_modules/kv_cache_stage.py:63-76 | After any run of gets and puts the bounded table holds a key exactly when it was used and fewer than `max` other keys were used since, and then with its last put value |
| Lru.UseTracks | src/python/dli/feature_modules/kv_cache_stage.py:103-133 | Using or inserting a key and evicting the oldest keeps the table in step with the log of uses: same recency for every survivor, at least `max` more recent keys for every key dropped |
| StageFlow.RepeatLeavesCacheAlone | src/python/dli/inference_stage/app.py:236-300 | A remembered answer never changes any cache entry; in decode mode it is refused exactly on stages with layers |
| StageFlow.ExecutedDecodeCannotBeRetried | src/python/dli/inference_stage/app.py:236-322 | An executed and remembered decode step, sent again, fails with a server error and leaves all caches as they are |
| StageFlow.DecodeGrowsUnlessRemembered | src/python/dli/inference_stage/app.py:236-322 | After any history of requests a decode leaves its cache alone, and is refused on a stage with layers, exactly when its own answer was used with fewer than `max` other answers used since; otherwise it is executed and grows the cache |
| StageFlow.LegacyAnswerIgnoresDedupe | src/python/dli/inference_stage/app.py:236-267 | After any history of requests a legacy request is answered with the stage's own function of its tensor, remembering on or off |
| StageFlow.ComputedAnswer | src/python/dli/inference_stage/app.py:206-322 | A request that is not answered from memory, in full: without the cache it gets the stage's function of its tensor; with it, 400 on a stage without a cache and 409 for a decode without an entry, changing nothing; otherwise a prefill starts from nothing and a decode from its entry, the entry grows by the tensor, nobody else's entry changes but by eviction, the answer is the new rows of the whole sequence if the position sent is the length held, and it is refused with 500 exactly on a stage with layers for a wrong number of positions in or out |
| StageFlow.RememberedAnswer | src/python/dli/inference_stage/app.py:236-300 | A request with a remembered answer under its id, step, mode, position and tensor gets that answer and changes no cache; with the cache on, a stage with layers refuses it if it is a decode, or a prefill that is empty, longer than what the entry holds now, or not of the answer's length |
| StageCaches.StageForwardCache.Get | src/python/dli/feature_modules/kv_cache_stage.py:63-69 | The object's lookup is the table's lookup with a touch |
| StageCaches.StageForwardCache.Put | src/python/dli/feature_modules/kv_cache_stage.py:71-76 | The object's insert with its eviction loop is the table's assignment trimmed to the limit |
| StageCaches.StageKVCacheManager.Get | src/python/dli/feature_modules/kv_cache_stage.py:125-133 | Returns the entry of that id, untouched in content, and makes it the most recent |
| StageCaches.StageKVCacheManager.GetOrCreate | src/python/dli/feature_modules/kv_cache_stage.py:103-123 | Returns the existing entry or a new empty one, after which the table is the old one with that use, evicted down to the limit |
| StageCaches.StageKVCacheManager.EvictIfNeeded | src/python/dli/feature_modules/kv_cache_stage.py:171-173 | The eviction loop drops exactly the oldest entries beyond the limit |
| StageCaches.InferenceStage.ExecuteWithCachePolicy | src/python/dli/inference_stage/app.py:446-500 | The in-place cache policy has the answer and leaves the tables that the function on tables says |
| StageCaches.InferenceStage.RunForwardFlow | src/python/dli/inference_stage/app.py:206-322 | The in-place handler has the answer and leaves both tables that the function on tables says |
| Generation.StageAnswers | src/python/dli/inference_stage/app.py:446-500 | A stage whose cache holds all rows but the last answers a single-row decode with the last row of its whole-sequence answer, passes the step check and ends up holding all rows |
| Generation.LoopStep | src/python/dli/inference_gateway/generation_loop.py:78-120 | One pass through all stages, cached or not, among gentle other requests, yields the last row of the whole-sequence computation and leaves every stage ready for the next token |
| Generation.Generate | src/python/dli/inference_gateway/generation_loop.py:78-137 | For any prompt, with caches and remembered answers on or off, the loop returns exactly the tokens and reason of recomputing the whole sequence for every token. It raises exactly for an empty prompt of which tokens were asked. Otherwise every token is the pick from the last row behind the prompt and the tokens before it, told to avoid the special ids and the end token while that would leave fewer tokens than the minimum and nothing afterwards; no token but the last is an end token whose count reaches the minimum; the reason is the end token exactly when the last one is; and the limit is kept, and reached otherwise |
| Generation.GenerateBothWays | src/python/dli/inference_gateway/generation_loop.py:78-137 | Prefill with decodes and whole-sequence requests give the same outcome |
| Generation.ReferenceEnds | src/python/dli/inference_gateway/generation_loop.py:78-223 | With the tokens written out from the first: no token but the last is the end token with at least the minimum generated, the reason is the end token exactly when the last one is, the limit is kept and otherwise reached, and each token is the pick behind those before it |
| KvInterleaving.ScheduleSound | src/python/dli/feature_modules/kv_cache_stage.py:103-173 | In every schedule of any requests the table is in step with its log of uses and within its limit, an entry is only ever reached by the request it was made for, and a cache holds the last rows its request sent |
| KvInterleaving.TableIsRecent | src/python/dli/feature_modules/kv_cache_stage.py:103-173 | In every schedule the table holds exactly the ids that were used with fewer than `max` other ids used since |
| KvInterleaving.FirstLookIsExact | src/python/dli/inference_stage/app.py:473-482 | In every schedule a decode goes on from its first look exactly when fewer than `max` other ids were used since the request's last use, and is answered 409 otherwise |
| KvInterleaving.SecondLookIsExact | src/python/dli/inference_stage/app.py:484-487 | In every schedule a decode that passed its first look obtains its own rows exactly when fewer than `max` other ids were used since, and an empty cache otherwise |
| KvInterleaving.DecodeForwardIsExact | src/python/dli/inference_stage/app.py:416-443 | In every schedule the forward of a decode yields the next row of the stage's function on a cache of all that was sent, and on any other cache is accepted exactly when the stage answers with one row, else refused with 500 |
| KvInterleaving.KeptExactlyInTime | src/python/dli/inference_stage/app.py:473-500 | In every schedule a request's cache holds all that it sent and it was never refused (but for an empty prompt) exactly when at each of its looks fewer than `max` other ids had been used since its own last use |
| KvInterleaving.RequestInTimeIsUndisturbed | src/python/dli/inference_stage/app.py:473-500 | In every schedule a request whose looks were in time has been answered the stage's function of all it sent, and its cache length is the position the gateway sends next |
| KvInterleaving.BoundedRequestIsUndisturbed | src/python/dli/inference_stage/app.py:473-500 | In every interleaving in which fewer than `max` other ids come between a request's uses, its cache length is prompt plus decodes, which is the position sent next, its answers are the stage's function of all it sent, and it is never refused |
| KvInterleaving.SqueezedDecode | src/python/dli/inference_stage/app.py:475-487 | For every limit, and any number of other requests that arrive between a decode's two looks: the step is accepted by a part that answers a row for a row; it ran on the request's own cache if fewer than the limit arrived, and otherwise on nothing, leaving a cache of one row behind a gateway that counts the prompt and one more |
| PipelineRun.RequestInTimeGeneratesReference | src/python/dli/inference_gateway/generation_loop.py:78-137 | In every run of any number of requests over a pipeline of stages, in any interleaving of their steps at lock granularity, a request whose looks were in time at every stage ends with exactly the tokens and reason of recomputing the whole sequence for every token, and is on the way to them while it runs |
| PipelineRun.FewRequestsGenerateReference | src/python/dli/inference_gateway/generation_loop.py:78-137 | In every run with no more requests than a stage's table has entries, every request ends with exactly the tokens and reason of recomputing everything |
| PipelineProgress.EveryRequestEnds | src/python/dli/inference_gateway/generation_loop.py:78-137 | From every reachable state of any number of requests, whatever the others have done, every request reaches its end by its own steps alone, without adding a request |
| PipelineProgress.RequestInTimeReachesReference | src/python/dli/inference_gateway/generation_loop.py:78-137 | From every reachable state in which a request's looks were in time and fewer than the limit of other requests were used since its own last use at each stage, its own steps end it with exactly the tokens and reason of recomputing everything |
| PipelineProgress.FewRequestsReachReference | src/python/dli/inference_gateway/generation_loop.py:78-137 | With no more requests than a stage's table has entries, every request reaches the reference's end by its own steps from every reachable state |
| PipelineAnswers.AnswersAreNeverFound | src/python/dli/inference_stage/app.py:236-267 | In every run, when a request is about to enter a stage, the stage remembers no answer under any key of that request for this token or a later one |
| PipelineAnswers.RememberingChangesNothing | src/python/dli/inference_stage/app.py:236-300 | In every run with remembered answers, on or off for each request, the stages' caches and the gateways are those of a run without them |
| PipelineAnswers.RememberedRequestGeneratesReference | src/python/dli/inference_gateway/generation_loop.py:78-137 | With remembered answers, too, a request whose looks were in time ends with exactly the tokens and reason of recomputing everything |
| PipelineAnswers.RememberedRequestEnds | src/python/dli/inference_gateway/generation_loop.py:78-137 | With remembered answers, too, every request reaches its end by its own steps from every reachable state, and the reference's end if it was in time and the stages still held its entries |
| Backpressure.GatewayBackpressureGuard.Enter | src/python/dli/feature_modules/persistent_backpressure.py:66-86 | Entering takes the free slot, queues below the limit, or refuses, with the new counts |
| Backpressure.GatewayBackpressureGuard.Retry | src/python/dli/feature_modules/persistent_backpressure.py:79-86 | A notified thread takes the free slot and stops waiting, or goes back to sleep, as the machine over all threads says |
| Backpressure.GatewayBackpressureGuard.Release | src/python/dli/feature_modules/persistent_backpressure.py:88-92 | Releasing frees the slot and notifies every sleeping thread, as the machine over all threads says |
| Backpressure.GuardHoldsInEveryRun | src/python/dli/feature_modules/persistent_backpressure.py:66-92 | In every run the in-flight count is the number of holders and at most one, the waiting count is the number of threads in the wait loop and within a limit that somebody came with, and a free slot never coexists with a sleeping waiter |
| Backpressure.FreeSlotIsTaken | src/python/dli/feature_modules/persistent_backpressure.py:74-86 | When the slot is free, whichever waiter runs gets it |
| Backpressure.RejectedOnlyWhenFull | src/python/dli/inference_gateway/app.py:137-150 | A request is refused exactly when the slot is held and its queue is full |
| Backpressure.WhoComesIsServed | src/python/dli/feature_modules/persistent_backpressure.py:66-86 | In every run whoever comes gets the slot if nobody holds it, sleeps if fewer than its limit wait, and is turned away otherwise; nobody else is touched |
| Backpressure.ReleaseFreesTheSlot | src/python/dli/feature_modules/persistent_backpressure.py:88-92 | In every run, after the holder leaves nobody holds the slot, the count is zero, every waiter is awake, and the next to come or to run gets it |
| ForwardBroker.Broker.Submit | src/native/dli_stage_cpp/src/server.cpp:117-153 | Refuses when stopping; otherwise accepts and appends the job exactly when fewer jobs than the limit are queued, and refuses when as many are |
| ForwardBroker.Broker.TakeNext | src/native/dli_stage_cpp/src/server.cpp:183-194 | The worker takes the oldest job, returns when stopped and drained, and sleeps otherwise |
| ForwardBroker.AnsweredOnceInOrder | src/native/dli_stage_cpp/src/server.cpp:117-218 | In every run the queue stays within its limit, accepted jobs are answered one at a time in order, and no promise is set twice |
| ForwardBroker.NothingUnansweredOnReturn | src/native/dli_stage_cpp/src/server.cpp:166-194 | When the worker returns, stop was requested and every submitted job has exactly one answer |
| ForwardBroker.NoLostWakeUp | src/native/dli_stage_cpp/src/server.cpp:124-152 | A worker asleep over a non-empty queue or a requested stop is always owed a notification |
| ForwardBroker.StopDrains | src/native/dli_stage_cpp/src/server.cpp:181-218 | A stopped, awake worker empties the queue and returns by its own steps |
| ForwardBroker.StopReturnsFromEverywhere | src/native/dli_stage_cpp/src/server.cpp:166-218 | From every reachable state after a stop, the worker awake, asleep with a notification owed, in a job or returned, what is still to happen answers every accepted job in order, empties the queue and lets the worker return |
| ForwardBroker.NewJobIsTold | src/native/dli_stage_cpp/src/server.cpp:117-153 | In every run a new job is queued exactly when no stop was requested and fewer jobs than the limit are queued, answered 429 exactly when as many are, and 503 exactly after a stop |
| ForwardBroker.HandledJobIsTold | src/native/dli_stage_cpp/src/server.cpp:196-218 | In every run the job in the worker is answered with exactly the outcome of its handler, and that answer stays its only one |
| Sorting.DifferenceCounts | src/native/dli_tools_cpp/src/gguf_shard_validate_tool.cpp:190-198 | The merge over two sorted lists leaves exactly the multiset difference |
| Decimal.StoiToString | src/native/dli_gateway_cpp/src/config.cpp:75-81 | Reading a printed int gives it back exactly for the 32-bit ints, or the 64-bit ones, and is an error for all others |
| Decimal.ToStringInjective | src/native/dli_common_cpp/src/partition_plan.cpp:13-20 | Different ints print differently |
| TextLines.LinesOfRender | src/native/dli_gateway_cpp/src/config.cpp:288-290 | Splitting printed one-line texts into lines gives them back |
| ConfigText.FieldIsSeen | src/native/dli_gateway_cpp/src/config.cpp:14-65 | A printed `key: value` line passes the prefix test of its own key and of no other, with its indentation and its value as a scalar |
| ConfigText.PlainScalar | src/native/dli_gateway_cpp/src/config.cpp:32-53 | A value is read as its own text exactly when it has no blanks at its ends, is not null and is not quoted |
| ConfigText.QuotedScalar | src/native/dli_gateway_cpp/src/config.cpp:32-53 | Between any blanks a value loses one pair of double quotes and then one pair of single ones, and null is nothing |
| PartitionGraph.ValidatePartitionGraph | src/native/dli_gateway_cpp/src/config.cpp:138-267 | Accepts exactly the non-empty graphs with named partitions, one embedding owner, one head owner, one terminal partition that owns the head, and layers that are a permutation of all layers (or, with no layer count, distinct and not negative); every rejection names a real fault |
| PartitionGraph.Duplicates | src/native/dli_gateway_cpp/src/config.cpp:226-233 | Lists, in order and once each, exactly the values a sorted list repeats |
| PartitionGraph.Missing | src/native/dli_gateway_cpp/src/config.cpp:241-251 | Lists, in order, exactly the layers an increasing list lacks |
| PartitionGraph.FaultsRefute | src/native/dli_gateway_cpp/src/config.cpp:138-258 | No fault the check can name holds of an acceptable graph |
| PartitionGraph.LayersArePermutation | src/native/dli_gateway_cpp/src/config.cpp:241-258 | With a known layer count the accepted layer lists are together exactly the permutations of 0 to n - 1 |
| TensorPlan.BuildLlamaTensorNamePlan | src/native/dli_common_cpp/src/partition_plan.cpp:24-48 | Builds the plan: the names and layer prefixes of the partition's components |
| TensorPlan.TensorMatchesPlan | src/native/dli_common_cpp/src/partition_plan.cpp:50-67 | True exactly for a listed name or a listed prefix |
| TensorPlan.MatchesByName | src/native/dli_common_cpp/src/partition_plan.cpp:13-67 | A tensor is a partition's exactly if it is the embedding, the final norm or the output head by name and the partition claims that, or starts with `blk.`, one of its layers and a dot |
| TensorPlan.PrefixNamesOneLayer | src/native/dli_common_cpp/src/partition_plan.cpp:13-20 | A layer's prefix starts a tensor name of a layer exactly when the layers are the same, so `blk.1.` never takes `blk.10.` |
| TensorPlan.AcceptedGraphOwnsOnce | src/native/dli_common_cpp/src/partition_plan.cpp:24-67 | Over an accepted graph every tensor of every layer, the embedding and the output head match exactly one partition's plan |
| TensorPlan.NormOwnedOnce | src/native/dli_common_cpp/src/partition_plan.cpp:39-41 | The final norm has one owner exactly when one partition claims it |
| TensorPlan.NormIsNotChecked | src/native/dli_gateway_cpp/src/config.cpp:165-182 | An accepted graph in which nobody owns the final norm |
| TensorPlan.SharedTensorIsNorm | src/native/dli_common_cpp/src/partition_plan.cpp:50-67 | Two partitions of an accepted graph can share no tensor but the final norm |
| TensorAssignment.AssignTensorsToPartition | src/native/dli_common_cpp/src/partition_tensor_assignment.cpp:11-47 | The loops and sorts give the sorted tensors that match, and the sorted names and prefixes that the file lacks |
| TensorAssignment.AssignmentInFull | src/native/dli_common_cpp/src/partition_tensor_assignment.cpp:11-47 | An assignment holds the matching tensors as often as the file does, and of the plan's names and prefixes those that no tensor answers, each list in the order of text |
| TensorAssignment.AcceptedGraphAssignsOnce | src/native/dli_common_cpp/src/partition_tensor_assignment.cpp:49-61 | Over an accepted graph each layer, embedding and head tensor is listed by one partition, as often as in the file, and by no other |
| TensorAssignment.TensorSetsEqual | src/native/dli_tools_cpp/src/gguf_shard_validate_tool.cpp:186-207 | Accepts exactly two lists with the same tensors, each as often |
| TensorAssignment.ValidateShardTensors | src/native/dli_tools_cpp/src/gguf_shard_validate_tool.cpp:362-413 | Accepts exactly the shards that equal their manifest, hold nothing outside the plan and lack nothing of it |
| TensorAssignment.ShardsShareOnlyNorm | src/native/dli_tools_cpp/src/gguf_shard_validate_tool.cpp:346-413 | Valid shards of two partitions have at most the final norm in common |
| StageMap.SplitLayers | src/native/dli_tools_cpp/src/native_model_controller_tool.cpp:238-265 | Splits exactly when 1 <= stages <= layers, into contiguous non-empty shares in order that cover 0 to n - 1 and differ by at most one, larger ones first; otherwise says which argument is wrong |
| StageMap.YamlIntList | src/native/dli_tools_cpp/src/native_model_controller_tool.cpp:284-295 | Prints any ints at any indentation one a line, without the last newline |
| StageMap.GenerateStageMap | src/native/dli_tools_cpp/src/native_model_controller_tool.cpp:304-364 | Prints exactly the map's lines, for exactly the splits that exist |
| StageMapContents.MapIsPrinted | src/native/dli_tools_cpp/src/native_model_controller_tool.cpp:304-364 | Every line of a printed map with its key, its indentation and its value written out, in order: the header, each stage with its own files, layers and next address, and the routes |
| StageMapContents.StripIsRoot | src/native/dli_tools_cpp/src/native_model_controller_tool.cpp:297-302 | The root in the paths is the given one without the slashes at its end, but for a path of slashes alone, which keeps one |
| StageMapLoaders.LoadGatewayConfig | src/native/dli_gateway_cpp/src/config.cpp:269-510 | The line loop reads any text as the fold over its lines says, and what it returns is a graph that passes the check |
| StageMapLoaders.LoadStageConfig | src/native/dli_stage_cpp/src/config.cpp:85-235 | The stage's line loop, which stops early, reads any text as the fold over all its lines says |
| StageMapEntries.ReadEntry | src/native/dli_gateway_cpp/src/config.cpp:380-490 | The lines printed for a stage are read into exactly that stage's entry |
| StageMapRoundTrip.GatewayRoundTrip | src/native/dli_gateway_cpp/src/config.cpp:269-510 | For all valid arguments the gateway's loader reads a printed map back into exactly the printed partitions and accepts their graph |
| StageMapRoundTrip.ExpectedGraphOk | src/native/dli_tools_cpp/src/native_model_controller_tool.cpp:329-352 | The printed partitions are one whole model |
| StageMapAgreement.StageRoundTrip | src/native/dli_stage_cpp/src/config.cpp:85-235 | A stage finds an entry in a printed map exactly for the ids 1 to numStages, and reads back what was printed for it |
| StageMapAgreement.LoadersAgree | src/native/dli_stage_cpp/src/config.cpp:162-224 | On every printed map the two loaders agree on every stage's name, node, files, backend, next URL and components |
| StageMapAgreement.NamesAreKept | src/native/dli_stage_cpp/src/config.cpp:44-65 | The names come back as printed exactly when prefix and root do not start with a blank and the node's name is a plain scalar |
| StageMapContents.StageIsRead | src/native/dli_tools_cpp/src/native_model_controller_tool.cpp:304-364 | For clean names the gateway and the stage itself read of stage k: the service prefix-k, the node given for it, the files root/slug/stage_k.pt and root/slug/partition-k.dli.gguf, the backend llama, the address of stage k + 1 or none for the last, the k-th fair share of the layers, and the roles of the first and the last |
| StageMapContents.GatewayIsRead | src/native/dli_gateway_cpp/src/config.cpp:269-510 | What the gateway reads about itself: its name, port 8000, the model's name, path and layers, and the address of stage 1 |
| StageMapContents.StagesShareNothing | src/native/dli_tools_cpp/src/native_model_controller_tool.cpp:329-352 | Two stages of one map have different service names, next addresses and files |
| WrittenMap.GatewayReadsWrittenMap | src/native/dli_gateway_cpp/src/config.cpp:269-510 | Of any map with the keys of its stages in any order, repeated or missing, with any values, the gateway reads each stage by the last value of each key, passes over keys that mean nothing there, names it by its number if it gives no partition id, and takes true, True, yes and 1 for on; or refuses the map for the first stage without a number, with one that is no positive int, or without a service name, and then for a graph that is no whole model |
| WrittenMap.StageReadsWrittenMap | src/native/dli_stage_cpp/src/config.cpp:85-235 | Of any such map the process of stage w reads its own stage by the last value of each key, wherever it stands, and refuses the map if it is not there or has no service name |
| WrittenMap.BadNumberStopsStage | src/native/dli_stage_cpp/src/config.cpp:75-81 | A stage whose number cannot be read stops every stage's process, even one whose own stage stands before it |
| WrittenMap.CommentsDoNotCount | src/native/dli_gateway_cpp/src/config.cpp:288-295 | A blank line or a comment anywhere in any text changes nothing for either loader |
| Metadata.RequestMetaIsRead | src/native/dli_gateway_cpp/src/generation_loop.cpp:342-427 | A reader of the gateway's metadata understands the request, step, mode, tensor, flags and controls it was printed from, under long and short names |
| Metadata.StageMetaIsRead | src/native/dli_stage_cpp/src/server.cpp:308-373 | A reader of a stage's metadata understands the stage's own request with the new token, tensor and backend fields |
| Metadata.MergeKeepsMeaning | src/native/dli_common_cpp/src/metrics.cpp:296-319 | Replacing the chain metrics of a list changes nothing a reader of requests understands |
| MetadataText.TextIsRead | src/native/dli_common_cpp/src/metadata.cpp:60-170 | On every text that prints a list of metadata, whatever its punctuation and unread values, the search for a key captures the printed form of the list's first match for that key and kind of value, or nothing if there is none |
| MetadataText.TextIsParsed | src/native/dli_common_cpp/src/metadata.cpp:200-285 | On every such text the reader throws nothing and understands exactly what the list's first matches say, under long and short names, with their defaults |
| MetadataPrint.NestedIsLaid | src/native/dli_stage_cpp/src/server.cpp:246-288 | Any list of metadata, printed with any nesting of objects that no reader asks for, is a text that the patterns read as that list |
| MetadataPrint.PrintedRequestIsRead | src/native/dli_gateway_cpp/src/generation_loop.cpp:342-427 | The text that the gateway prints for a request, flat under short names and nested under long ones, is parsed into the request, step, mode, tensor, flags and controls it was printed from |
| MetadataPrint.PrintedStageIsRead | src/native/dli_stage_cpp/src/server.cpp:308-373 | The text that a stage prints, with its metrics and its backend's metadata, is parsed into the stage's own request with the new token, tensor and backend fields |
| MetadataSpelled.RequestIsPrinted | src/native/dli_gateway_cpp/src/generation_loop.cpp:342-427 | The gateway's text for a request, key by key with its punctuation: short names in one object for the levels compact and minimal, long ones in four nested objects otherwise |
| MetadataSpelled.StageIsPrinted | src/native/dli_stage_cpp/src/server.cpp:308-373 | A stage's text, key by key with its punctuation up to its metrics: itself, the request, the tensor, the flags, and exactly the controls that are set |
| MetadataSpelled.SilenceIsRead | src/native/dli_common_cpp/src/metadata.cpp:200-285 | What a reader takes a request for that says nothing |
| MetadataSpelled.NumberIsTaken | src/native/dli_common_cpp/src/metadata.cpp:76-112 | The pattern for a double takes exactly a number with its minus sign, its point and its exponent, and the pattern for an int its digits before the point |
| ChainText.MergedHasLastMetrics | src/native/dli_common_cpp/src/metrics.cpp:74-135 | Whatever metrics the stages of a chain put into a text without any, one after the other, the patterns take out exactly the ones before: the text is the first one with the last metrics at its end |
| ChainText.MergedTextIsRead | src/native/dli_common_cpp/src/metrics.cpp:247-319 | A printed text without chain metrics of its own, after any number of merges, is parsed into what its list says without them |
| ChainText.MergedStageIsRead | src/native/dli_stage_cpp/src/server.cpp:522-545 | Through any chain of stages the text that the last stage printed is still parsed into what it was printed from |
| MetadataSpelled.ChainIsPrinted | src/native/dli_common_cpp/src/metrics.cpp:138-156 | The metrics that a stage adds, key by key: once in an object and once behind it |
| Metadata.ControlsRideAlong | src/native/dli_stage_cpp/src/server.cpp:348-365 | The gateway's sampling controls reach the next stage unchanged exactly when the backend names none that the request leaves open |
| Routing.UrlForIndex | src/native/dli_gateway_cpp/src/generation_loop.cpp:434-458 | On a printed map the gateway calls partition i at the URL that stage i + 1 serves |
| Routing.HandleUnfolds | src/native/dli_stage_cpp/src/server.cpp:481-555 | A stage calls the next one exactly for a flagged frame, an answer that is not final and a stage that is not the last |
| Routing.ForwardThroughPartitionGraph | src/native/dli_gateway_cpp/src/generation_loop.cpp:511-597 | The loop visits, answers and fails as the two modes' definitions say |
| Routing.HubIsChain | src/native/dli_gateway_cpp/src/generation_loop.cpp:511-597 | On every printed map, for runtimes that ignore the chaining flag, both modes hand every stage the same request and bytes, leave every stage in the same state and return the same frame, exactly when no earlier stage answers as the final one |
| Routing.EveryStageIsTold | src/native/dli_stage_cpp/src/server.cpp:435-479 | In both modes, for runtimes whose backends name no open control: the stages are visited in order from the first, each with the gateway's request id, token index, mode and sampling controls; the gateway's own loop has visited all of them when it returns a frame |
| NativeLoop.RunStubGeneration | src/native/dli_gateway_cpp/src/generation_loop.cpp:632-789 | The loop runs as its definition says, for every limit, minimum and prompt |
| NativeLoop.NativeRunInOrder | src/native/dli_gateway_cpp/src/generation_loop.cpp:650-766 | Stage 1 is fed the prompt and then each token but the last once, under its index; every token is the answer to its frame; no token but the last is a stop marker with at least the minimum generated, the run stops there exactly when the last one is, or at the limit, and fails exactly when its last frame fails or brings no token that was asked for |
| PassTrail.EveryAnswerIsHandedOn | src/native/dli_gateway_cpp/src/generation_loop.cpp:511-597 | A whole forward pass in either mode: stage 1 is visited with the gateway's request and bytes, every stage's answer is what the next one is visited with, each stage is left in the state of its own visit, and the last answer is what comes back |
| PassTrail.StageOneIsSentTheTokens | src/native/dli_gateway_cpp/src/generation_loop.cpp:650-766 | In every forward pass of the loop the first visit goes to stage 1 with bytes that are the step's tokens in order, eight bytes each, and with the request's id, index and mode |
| PassTrail.TokenBytesEncode | src/native/dli_gateway_cpp/src/generation_loop.cpp:325-340 | The bytes are eight times as many as the tokens, and the i-th eight of them are the i-th token, modulo 2 to the 64th, little end first |
| NativeLoop.ModesGenerateTheSame | src/native/dli_gateway_cpp/src/generation_loop.cpp:632-789 | On every printed map, for all runtimes that ignore the chaining flag and answer as final only at the end, chain mode and hub mode generate the same tokens, end for the same reason and leave the stages in the same state |
| StageRuntimes.FinalExactlyAtEnd | src/native/dli_stage_cpp/src/runtimes/llama_partial_runtime.cpp:995-1011 | On every printed map an answer is a final one exactly when it comes from the last of at least two stages and that one is a llama stage; no answer depends on the chaining flag or carries a key that a reader asks for |
| StageRuntimes.StageInFull | src/native/dli_stage_cpp/src/runtimes/llama_partial_runtime.cpp:995-1011 | What each kind of stage does with any request: a stub echoes it, with 1000 plus the index as its token in a decode; a llama stage without its shard, or that is sent other than int64 ids (the first) or float32 or float16 vectors of its width (the others), of exactly that size, fails and changes nothing; else the first hands on its source part's activation, the last answers with its terminal part's token and the others hand on their intermediate part's |
| StageRuntimes.BothModesDoTheSame | src/native/dli_gateway_cpp/src/generation_loop.cpp:511-597 | With the repository's runtimes, on every printed map and for any parts and backends, both modes hand every stage the same request and bytes, leave every stage in the same state and return the same frame |
| StageRuntimes.RuntimesAreTold | src/native/dli_stage_cpp/src/server.cpp:348-365 | With the repository's runtimes every stage, in either mode, is told the gateway's request and sampling controls, and a frame comes back only after all of them were visited |
| StageRuntimes.RuntimesGenerateTheSame | src/native/dli_gateway_cpp/src/generation_loop.cpp:632-789 | With the repository's runtimes, on every printed map, both modes generate the same tokens, end for the same reason and leave the stages in the same state |
| StageStart.StartsWithShard | src/native/dli_stage_cpp/src/main.cpp:57-82 | On every printed map a stage's process comes up as a llama stage with the shard of its own entry or not at all, and exactly when its backend is known and its file holds that shard; never as a stub, never without a shard |
| StageStart.StartsInFull | src/native/dli_stage_cpp/src/main.cpp:205-228 | What comes up for any entry and any options: a backend given wins over the entry's unless it is stub, the model path given over the native file and that over the other file, an unknown backend never comes up, and a llama stage does with a shard of the same number, components and next address, or without any file |
| StageStart.GeneratesExactlyWhereServed | src/native/dli_gateway_cpp/src/generation_loop.cpp:632-789 | For all mixes of the repository's runtimes, all parts, prompts and limits, in either mode: if there are at least two stages, the first and the last are llama ones, every llama stage has its shard and every stage is up, a non-empty prompt generates tokens without failure whenever the parts do their work; otherwise the generation fails without a token, whatever the parts do |
| StageStart.CanGenerateExactlyIfItServes | src/native/dli_stage_cpp/src/runtimes/llama_partial_runtime.cpp:995-1011 | Some parts, prompt and sessions generate a token exactly if there are at least two stages, the first and the last are llama ones, every llama stage has its shard and every stage is up |
| StageStart.PrintedMapGenerates | src/native/dli_stage_cpp/src/main.cpp:205-228 | On every printed map a token can be generated exactly if there are at least two stages and every stage was given a known backend and the shard of its own entry |
| StageStart.OneStageGeneratesNothing | src/native/dli_stage_cpp/src/runtimes/llama_partial_runtime.cpp:995-1011 | On a map with one stage every generation of at least one token fails without a token, whatever the options, files, parts and prompt, in either mode |
| Frames.EncodeFrame | src/native/dli_common_cpp/src/protocol.cpp:47-77 | Encodes exactly the frames within the limits, into their layout |
| Frames.DecodeFrame | src/native/dli_common_cpp/src/protocol.cpp:83-130 | Decodes a byte string into a frame exactly when it is the layout of that frame, within the limits |
| Frames.LayoutInjective | src/native/dli_common_cpp/src/protocol.cpp:47-77 | Different frames have different layouts |
| Frames.RoundTrip | src/native/dli_common_cpp/src/protocol.cpp:47-130 | Decoding an encoded frame gives it back, and a byte string that decodes encodes to itself |
| Frames.LayoutBytes | src/native/dli_common_cpp/src/protocol.cpp:47-77 | Byte by byte: DLI2, version 2, the length of the metadata in four bytes and of the tensor in eight, little end first, and then both; for up to 16777216 and 8589934592 bytes |
| HttpReader.FindHeaderEnd | src/native/dli_common_cpp/src/http.cpp:45-60 | Finds the first blank line, or none |
| HttpReader.ReadHttpMessage | src/native/dli_common_cpp/src/http.cpp:180-241 | The receive loop reads the pieces that arrive as its definition says, over interrupted calls, and breaks on a failing one exactly when it still waits for bytes |
| HttpReader.SplitIndependence | src/native/dli_common_cpp/src/http_client.cpp:243-321 | What a reader returns is the same for all splits of a stream exactly when the header's end is missing, within 64 KiB, or more than one full buffer beyond |
| HttpReader.LateHeaderIsRefused | src/native/dli_common_cpp/src/http.cpp:200-210 | In every split a header that ends beyond 73728 bytes is refused, and so is more than 65536 bytes without an end |
| HttpReader.InterruptionsAreNothing | src/native/dli_common_cpp/src/http.cpp:184-198 | An interrupted call anywhere in the stream is as if it had not been |
| HttpReader.SendAll | src/native/dli_common_cpp/src/http.cpp:62-83 | Whatever sizes the kernel takes, a prefix is delivered, success means all of it, and without failures it succeeds within as many calls as there are bytes and interruptions |
| HttpText.RequestIsParsed | src/native/dli_common_cpp/src/http.cpp:93-171 | The server reads the method, path, fields and body length that the client printed |
| HttpText.PathSurvives | src/native/dli_common_cpp/src/http_client.cpp:445-453 | A path survives exactly when it is one word |
| HttpText.RequestRoundTrip | src/native/dli_common_cpp/src/http_client.cpp:440-465 | However a request within the limits is split, the server gets its path and its body |
| HttpText.ResponseRoundTrip | src/native/dli_common_cpp/src/http.cpp:255-272 | However a response within the limits is split, the client gets its status, its trimmed reason and its body |
| HttpText.CutResponseIsAccepted | src/native/dli_common_cpp/src/http_client.cpp:263-320 | A response body cut short by a closed connection is returned as if whole; a request cut short is refused |
| HttpText.KeepAliveAgreed | src/native/dli_common_cpp/src/http.cpp:245-253 | Each side keeps or drops the connection as the other printed it |
| HttpHeader.RequestIsWords | src/native/dli_common_cpp/src/http.cpp:93-145 | Any request line of three words is read as its method and path, and the lines behind it as the fields |
| HttpHeader.TwoWordsAreRefused | src/native/dli_common_cpp/src/http.cpp:111-120 | A request line of two words is refused |
| HttpHeader.NoLengthNoBody | src/native/dli_common_cpp/src/http.cpp:147-171 | A request none of whose lines gives a Content-Length, however spelled, is returned with an empty body, whatever follows and in every split |
| HttpHeader.LastLengthDecides | src/native/dli_common_cpp/src/http.cpp:147-171 | The last Content-Length, in any case and with any blanks around, decides: a number up to 536870912 is the length of the body, or what the reader waits for; a larger number and anything that is no number, signed perhaps and below 2 to the 64th, is refused |
| HttpHeader.KeptUnlessClosed | src/native/dli_common_cpp/src/http.cpp:245-253 | A connection is kept unless the last Connection field says close, in any case |
| HttpHeader.ResponseGoesByLength | src/native/dli_common_cpp/src/http_client.cpp:243-321 | Of any response, in every split, the client takes as many bytes as the fields announce, or all that there are; a status of zero is refused |
| HttpHeader.StatusIsRead | src/native/dli_common_cpp/src/http_client.cpp:185-240 | The client reads the digits of a status line as its status, clipped at 2147483647, and the trimmed rest as its reason |
| HttpHeader.RequestOnTheWire | src/native/dli_common_cpp/src/http_client.cpp:440-465 | The client's request header, byte by byte |
| HttpHeader.ResponseOnTheWire | src/native/dli_common_cpp/src/http.cpp:255-272 | The server's response header, byte by byte |
| JsonText.JsonEscape | src/native/dli_common_cpp/src/json_escape.cpp:7-45 | The loop escapes character by character |
| JsonText.UnescapeJsonString | src/native/dli_common_cpp/src/metadata.cpp:12-58 | The loop undoes escapes pair by pair |
| JsonText.ScanStopsAtClosingQuote | src/native/dli_common_cpp/src/metadata.cpp:60-74 | The string pattern stops at the right closing quote, whatever text follows |
| JsonText.RestoredExactlyWithoutOtherControls | src/native/dli_common_cpp/src/metadata.cpp:12-58 | Unescaping a printed string gives it back exactly when it has no control character but the five with short escapes |
| JsonText.EscapeIsStandard | src/native/dli_common_cpp/src/json_escape.cpp:7-45 | A reader by section 7 of RFC 8259 restores every string, control characters included, from what is printed |
| JsonText.UnescapeIsStandardExactly | src/native/dli_common_cpp/src/metadata.cpp:12-58 | On the text of any string the repository's own reader agrees with that reader exactly if the text holds no escape with a u |
| JsonFields.SearchFindsFirstField | src/native/dli_common_cpp/src/metadata.cpp:60-170 | The leftmost match of a pattern, with any alternatives for the key, in a printed document is the first field with one of the keys and a value of the asked-for kind, never text inside another value |
| JsonFields.QuotedStringRead | src/native/dli_common_cpp/src/metadata.cpp:60-74 | The string pattern reads a printed string as its original text, whatever follows |
| Quantise.ClampNeverBites | src/python/dli/feature_modules/activation_payload_precision.py:40-46 | Every rounded quotient is already within the codes |
| Quantise.RoundIsNearestEven | src/python/dli/feature_modules/activation_payload_precision.py:40-46 | Rounding gives exactly the nearest integer, and of two the even one |
| Quantise.Int8Payload | src/python/dli/feature_modules/activation_payload_precision.py:40-52 | The payload in numbers: the scale is the largest element by 127 and at least 0.00000001, and each code is the nearest integer to its element by the scale |
| Quantise.OtherPayloads | src/python/dli/feature_modules/activation_payload_precision.py:18-68 | In fp32, and in a mode that is not known, a tensor goes over as it is; in fp16 and bf16 each element is cast, and none is lost |
| Quantise.RestoreErrsByHalfScale | src/python/dli/feature_modules/activation_payload_precision.py:66-68 | Restoring errs by at most half the scale per element |
| Quantise.RestoreKeepsOrder | src/python/dli/feature_modules/activation_payload_precision.py:66-68 | The order of the elements survives |
| Quantise.SecondHopChangesNothing | src/python/dli/feature_modules/activation_payload_precision.py:40-68 | Quantising what was restored gives the same codes and scale |
| Quantise.Int8IsNotRowByRow | src/python/dli/feature_modules/activation_payload_precision.py:42-43 | A row sent with others can be restored differently from the row alone |
| Quantise.RestoredAlikeExactly | src/python/dli/feature_modules/activation_payload_precision.py:40-68 | Rows are restored with others as they are alone exactly when each element they are restored to alone is a whole multiple of the joint scale |
| Quantise.RestoredAlikeAboveFloor | src/python/dli/feature_modules/activation_payload_precision.py:40-68 | Above the smallest scale that is exactly when the others have no larger element, or the rows' largest element is a whole multiple of the joint scale and every code of the rows alone is 0, 127 or -127 |

## Left out

- Generation.Generate: the model part of a stage is a parameter, causal and deterministic; `stage_executor.py` is not part of this model. The choice of a token is a function of the last row and the forbidden ids. Payload casts are part of that function, which holds for casts element by element, not for int8.
- StageFlow.LegacyAnswerIgnoresDedupe: the remembered answers' key is taken as its parts; that SHA-1 digests do not collide is assumed.
- StageCaches.InferenceStage.RunForwardFlow: ends before the call of the next stage, which `Generation` adds; timestamps, hit counters and descriptions are not modelled.
- KvInterleaving.ScheduleSound: a request id has one call in flight at a time and serves one generation, as the gateway's loop sends them; two overlapping copies of one decode, which would both miss the remembered answers and both append, are not modelled.
- PipelineRun.RequestInTimeGeneratesReference: the stages have layers and support caches, and the model part is causal and deterministic as in `Generation`; a transport that fails or delivers twice is not modelled, nor a client that sends a request id again.
- PipelineAnswers.RememberingChangesNothing: a client that sends a request id again, and could find an answer, is outside the model; the looks into the cache that would follow a found answer are one step, which no run takes.
- ForwardBroker.NoLostWakeUp: starts after construction; the worker thread is started before `stop_requested_` is initialised.
- HttpReader.ReadHttpMessage: bytes after the announced body are dropped, as in the code, so pipelined requests are outside the model.
- HttpReader.SendAll: what `send_http_response` writes after a failed write is not modelled.
- HttpHeader.RequestIsWords: for lines that are not empty and neither start nor end with a carriage return, within the limit of the header.
- JsonText.EscapeIsStandard: characters are bytes, so the pairs of escapes for characters beyond 16 bits do not occur.
- JsonFields.SearchFindsFirstField: for documents whose string values are printed by `json_escape` and whose keys hold no quotes; other JSON that a backend might add is not covered.
- Metadata.StageMetaIsRead: numbers are reals with abstract printing and reading; values that no reader asks for are not modelled.
- MetadataText.TextIsParsed: what `std::stod` makes of a captured text is a parameter; a list with an int that does not fit, which makes the reader throw, is outside the theorem, though the reader's definition covers it.
- MetadataSpelled.StageIsPrinted: the keys of the metrics behind it are not written out; no reader of requests asks for them.
- MetadataPrint.PrintedStageIsRead: the values of a stage's metrics and what its backend prints are parameters; the backend's text prints a list, as `json_escape` and ostreams do.
- ChainText.MergedTextIsRead: for texts that print a list without chain metrics, as a stage's own does; what the patterns take out of other JSON is defined, not characterised. The values of the metrics are given: how they are added up is not modelled.
- Routing.HubIsChain: the transport between processes is taken as working, and stage k as the server of the URL printed for it; `DLI_NATIVE_STAGE_CHAINING`, which forces a stage to chain, is taken as unset; a runtime does not look at the raw metadata text.
- StageRuntimes.FinalExactlyAtEnd: the arithmetic of a llama stage's three parts, with its sessions, is a parameter; the keys of its metadata are modelled, their values are not; overflow of `1000 + token_index` in the stub is not modelled.
- StageStart.StartsWithShard: loading a shard is the parameter `file`; ports, host names and command lines are not modelled, and a stage that did not come up is one that answers nothing.
- NativeLoop.NativeRunInOrder: `PersistentHttpClient::post_binary` may deliver a request twice after a transport failure; no such failure is modelled.
- WrittenMap.GatewayReadsWrittenMap: the keys of a stage are indented as in printed maps, with one section of components, and its layers are written as numbers.
- StageMapRoundTrip.GatewayRoundTrip: names that contain a newline are outside the model.
- Quantise.RestoreErrsByHalfScale: over the reals; rounding of 32-bit floats is not modelled.
- Error texts, timings, resource and chain metrics, summaries and logs.
- Tensor arithmetic, GGUF files, tokenizers and `cleanup_generated_text`.
- Sockets, name resolution, process control, the operations UI and topology probing.
- Python's own binary envelope.

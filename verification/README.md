# Ganker, verified

A Dafny model of the state machines and the arithmetic of Ganker, a training service: the Megatron
run lifecycle and its checkpoint store, the SGLang server and its adapter caches, the distributed data
schedule, the reported loss, supervised fine-tuning data, usage telemetry, the endpoint registry and
shard selection. `dafny verify dfyconfig.toml` checks the whole project.

## How the model is built

- **Training.** `training_spec.dfy` is the backend as an atomic machine: one call, one transition,
  under every outcome of the runtime and the artifact store. What the service promises about whole
  histories is proved there. `training_threads.dfy` is the same backend as interleaved steps: a
  registry lock, a lock per run, the runtime call, every counter assignment, status assignment and file
  write a step of its own. `linearization.dfy` proves that its finished calls are always a history of
  the atomic machine; `training_safety.dfy` and `training_checkpoints.dfy` draw the consequences.
  `training_backend.dfy` is the object with its mutable run records, each method tied to the atomic
  machine. `handoff.dfy` follows a save through the store to the
  sampler that serves it. `fake_backend.dfy` is the in-memory double and the proof that it simulates Megatron.
  `sft_loop.dfy` is the driver of one run.
- **Artifacts.** `paths.dfy` is pathlib's path, on the splitting of text in `splitting.dfy`. `disk.dfy` is
  a directory tree: where a path leads, which directories it walks through, and what mkdir with parents
  makes. `artifacts.dfy` is the store on it: which ids share a directory, what each step of a write keeps,
  and any number of concurrent writers that may stop anywhere.
- **Sampling.** `sglang_spec.dfy` gives every server process ever launched, with what was posted to it
  and what it holds, beside the runtime's own fields; `sglang_cache.dfy` and `sglang_sampling.dfy`
  prove what the two caches say about it over every history; `sglang_coherence.dfy` computes from a
  history exactly when a sample is served what it names; `sglang_backend.dfy` is the objects.
- **Distribution.** `distributed_config.dfy` (sizes, ranks, loss averaging), `data_schedule.dfy` (which
  item goes where), `tensor_batch.dfy` (conversion and splitting), `losses.dfy` (the reported loss over
  the reals), `train_entry.dfy` (one rank's step loop), `sft_data.dfy` (encoding and batching) and
  `sft_job.dfy` (all of it together).
- **Telemetry.** `telemetry.dfy` is the ledger; `usage_accounting.dfy` is the controllers' calls
  interleaved at their awaits, with calls that fail, are lost or are given up.
- **Registry and shards.** `role_keys.dfy`, `registry.dfy`, `run_registry.dfy`, `shard_selection.dfy`.

Functions such as `Apply`, `Resolve` or `BatchOf` are what the code computes. What they compute is stated
beside them a second time, field by field or key by key, without calling them (`ForwardMeans`,
`AsThePayloadSays`, `Converts`, `Teaches`, `IsStepLoss`, `IsTarget` and the like), and proved to be the
same thing.

What the outside does (the Megatron runtime, server launches, HTTP answers, file writes that raise,
clocks, generated ids, other ranks' losses) is a parameter of each step, quantified over in every theorem.

## Where the code and its documents differ

The model follows the code.

- `plans/rfc-0003-megatron-runtime-lifecycle.md:135` asks that validation failures leave the state
  unchanged. A batch whose size the microbatch size does not divide is rejected inside the runtime
  call, so the run becomes FAILED (`TrainEntry.IndivisibleFailsRun`).
- The same document (lines 122-131) draws `closed` only after `ready` or `failed`; `close` also closes
  a run whose gradients are pending, and a run becomes FAILED when its shutdown raises.
- `plans/rfc-0004-small-dataset-sft.md:222` saves final weights after the loop. The loop saves at the
  end only if it saved nothing before, so the returned artifact can be older than the last step
  (`SftLoop.RunSft` gives its exact version).

## What turned out not to hold in general

- A sample may name an adapter its server does not hold at the path loaded: another run's refresh
  restarted the server (`SGLangSampling.RestartMakesStale`), the answer to a post was lost
  (`SGLangSampling.LostAnswerMakesStale`), or two run ids share an adapter name
  (`SGLangCoherence.BlankServesDash`). The exact condition, computed from the actions for every history,
  is `SGLangCoherence.CoherentIff`; for the sample itself, `SGLangCoherence.AnsweredSampleIff`.
- Different run ids can share a checkpoint directory: pathlib drops empty components and ".", and the
  operating system resolves ".." (`Artifacts.AliasFindsOther`, `Artifacts.WayRoundFindsOther`; exact
  condition `Artifacts.SameDirIff`; what is found there, `Artifacts.SaveSharedByDir`). Ids of one plain
  component, such as all the backend hands out (`TrainingSpec.RunNameIsPlain`), never do
  (`Artifacts.PlainDirs`).
- A save of one id can change what latest finds for an id of another directory, through the directories
  it makes: it can open the way for a ".." (`Artifacts.DetourOpens`), and a component named latest.json
  can take a pointer's place (`Artifacts.FolderHidesPointer`). It does so only then
  (`Artifacts.WriteKeepsOtherRuns`).
- After a restart the pointer of a run can go back: the ids and versions start over while the store
  stays (`Artifacts.PointerGoesBack`; exact condition `TrainingCheckpoints.NewestOfAllIff`).
- A save can succeed whose checkpoint cannot be sampled: when the runtime returns no artifact_format, the
  backend writes its own, which the sampler refuses (`Handoff.OwnFormatRefused`); what the Bridge runtime
  returns is always served (`Handoff.SaveIsServed`).
- The reported loss is not the mean over the logical batch unless all microbatches have equal mask
  sums (`Losses.GlobalMeanIffEqualSums`, both directions).
- Storage keys are not injective for names with colons (`RoleKeys.KeysCollide`; exact condition
  `RoleKeys.SameTextIff`), so the registry is a map by key exactly over keys that do not collide
  (`Registry.RefinesIffApart`), and such keys are not read back (`RoleKeys.RoundTripIff`).
- Adapter names are not injective for run ids outside the safe alphabet
  (`AdapterNames.UnsafeIdsCollide`; exact condition `AdapterNames.AdapterNameInjective`).
- A partial last batch breaks the regrouping of microbatches (`TensorBatches.RegroupIffFull`), and a
  step whose total it makes indivisible fails the run (`SftJob.StepFitsIffDivisible`; from the sizes
  alone, `SftJob.StepDividesIff`).

## Model

| member | source | states |
|---|---|---|
| TrainingSafety.ThreadsAreLinearizable | src/ganker/backends/megatron.py:944-1144 | for every interleaving of threads at lock, runtime and assignment granularity, the finished calls form a history of the atomic machine with the answers really given, and the shared state of every run nobody holds is that history's state |
| TrainingSafety.ThreadSafety | src/ganker/backends/megatron.py:944-1144 | at every moment of every such interleaving, with runtime failures anywhere: at most one run is active; each run's completed runtime calls are an initial part of (save* fb step)*; a run nobody holds has gradient = optimizer = checkpoint count when READY, and gradient one ahead when GRADIENTS_PENDING |
| TrainingSafety.DeadStaysDead | src/ganker/backends/megatron.py:999-1110 | once FAILED or CLOSED, a run is never active again |
| TrainingSafety.CallBecomes | src/ganker/backends/megatron.py:979-1110 | in every interleaving, from the runtime's reply to the end of the call: a gradient or a step is counted and the status moves on when the runtime returned, and the run is FAILED when it raised; a save leaves it READY in any case; a shutdown leaves it CLOSED when it returned and FAILED when it raised; the caller is told exactly that |
| TrainingSafety.ClosedIsLeftAlone | src/ganker/backends/megatron.py:1098-1110 | a CLOSED run is never handed to the runtime again, and nothing about it changes |
| TrainingSafety.NoDeadlock | src/ganker/backends/megatron.py:944-1110 | while some thread is inside the backend, some thread inside it can move |
| Linearization.ExecutionSound | src/ganker/backends/megatron.py:944-1144 | the invariant of the interleaved machine: locks, program counters, partial updates and the history agree after every action |
| TrainingSpec.HistorySafety | src/ganker/backends/megatron.py:944-1144 | the same three facts for every sequential history, from the answers alone |
| TrainingSpec.ApplyNeverRevives | src/ganker/backends/megatron.py:960-1144 | no single call takes a FAILED or CLOSED run back to an active status |
| TrainingSpec.SavedVersionCountsSteps | src/ganker/backends/megatron.py:1051-1096 | an artifact returned with version v was saved after exactly v successful optimizer steps and v gradients, none pending |
| TrainingSpec.PublishedNeverDecreases | src/ganker/backends/megatron.py:1051-1096 | the versions returned for one run never decrease and never exceed its current version |
| TrainingSpec.FreshName | src/ganker/backends/megatron.py:968-976 | the next run number always gives an id no run has yet |
| TrainingSpec.RunNameInjective | src/ganker/backends/megatron.py:968-968 | different run numbers give different ids, padding included |
| TrainingSpec.RunNameReads | src/ganker/backends/megatron.py:968-968 | a run id is "meg-run-" and the number, with zeros in front up to six digits |
| TrainingSpec.RejectedLeavesNoTrace | src/ganker/backends/megatron.py:951-1118 | any rejected call can be struck from any history: what is left is a history, every other call got the same answer, and it ends in the same state with the same runtime calls |
| TrainingSpec.CreateIsApply | src/ganker/backends/megatron.py:944-977 | the atomic create, characterised: refused for an empty model, a rank below one for LoRA or below zero for full tuning, or beside a run neither FAILED nor CLOSED; no trace when the runtime raises; else the next number and a READY run with zero counters |
| TrainingSpec.ForwardIsApply | src/ganker/backends/megatron.py:979-1017 | the atomic forward_backward, characterised: which error when, one gradient more and every token sent counted, FAILED when the runtime raised, no other run touched |
| TrainingSpec.OptimIsApply | src/ganker/backends/megatron.py:1019-1049 | the atomic optim_step, characterised: which error when, one step and one version more and READY, FAILED when the runtime raised, no other run touched |
| TrainingSpec.SaveIsApply | src/ganker/backends/megatron.py:1051-1096 | the atomic save_weights, characterised: which error when, the artifact of this run, version and kind, and no run changed whatever raises |
| TrainingSpec.ShutdownIsApply | src/ganker/backends/megatron.py:1103-1110 | the atomic turn of close, characterised: CLOSED when the shutdown returned, FAILED when it raised, a CLOSED run unchanged |
| TrainingBackend.MegatronTrainingBackend.CreateTrainingRun | src/ganker/backends/megatron.py:944-977 | refused exactly for an empty model, a rank that does not suit the mode, or beside a run neither FAILED nor CLOSED; otherwise the runtime decides, and the object holds one new READY run under the next number |
| TrainingBackend.MegatronTrainingBackend.FindActiveRun | src/ganker/backends/megatron.py:1120-1130 | finds an active run exactly when there is one |
| TrainingBackend.MegatronTrainingBackend.ForwardBackward | src/ganker/backends/megatron.py:979-1017 | needs a READY run and accepted data; counts one gradient and all tokens sent, or leaves the run FAILED when the runtime raises; no other run changes |
| TrainingBackend.MegatronTrainingBackend.OptimStep | src/ganker/backends/megatron.py:1019-1049 | needs pending gradients and a positive rate; counts one step and one version and is READY, or leaves the run FAILED when the runtime raises; no other run changes |
| TrainingBackend.MegatronTrainingBackend.SaveWeights | src/ganker/backends/megatron.py:1051-1096 | needs a READY run and leaves it READY whatever raises, a file or directory in the way included; the files are exactly what the write left; once it returned, what latest finds leads to a payload with every value the runtime returned and, for each of the backend's own keys it did not return, the run's own value |
| TrainingBackend.MegatronTrainingBackend.Close | src/ganker/backends/megatron.py:1098-1110 | a run that was not CLOSED ends CLOSED exactly when its shutdown returned and FAILED exactly when it raised; a CLOSED one is unchanged; none is active afterwards |
| TrainingCheckpoints.LatestIsNewest | src/ganker/backends/megatron.py:1051-1096 | at every moment of every interleaving over any well-formed store, for every id of one plain component: until this backend publishes for the run, latest answers as at the start, with the same error or the stored version; from then on it finds the artifact this backend published last, the greatest version it published; the payload is there, where the artifact says |
| TrainingCheckpoints.SaveIsFoundByThreads | src/ganker/backends/megatron.py:1051-1096 | in every interleaving over a well-formed store: when a save is answered with an artifact, what latest finds for its run leads to a payload file with everything the runtime returned for this very save, and the run's own values beside it |
| Handoff.SaveIsServed | src/ganker/backends/sglang.py:142-270 | the whole way: a save of what the Bridge runtime exported, then, after any history of the sampler, a refresh from the store loads that artifact: a full checkpoint from the exported path, an adapter from it on the configured or base model, on a running server launched with that model |
| Handoff.OwnFormatRefused | src/ganker/backends/sglang.py:266-270 | a save whose runtime returned no artifact_format cannot be sampled: the backend's own format is refused |
| TrainingCheckpoints.NewestOfAllIff | src/ganker/backends/megatron.py:928-977 | latest is never older than what an earlier process stored, from this backend's first publication for the run on, exactly when the stored version is at most the first one published: a restart hands out the same ids and counts from 0 |
| TrainingCheckpoints.StoreStaysWellFormed | src/ganker/backends/megatron.py:1051-1096 | every execution over a well-formed store leaves one, so the next process can begin over it |
| TrainingCheckpoints.OthersKeepLatest | src/ganker/backends/megatron.py:1051-1096 | for every id: what latest finds changes only by a step of a save in the same directory, or, when nothing was found by an id with a component "..", by a directory a save makes |
| Artifacts.LatestSurvivesCrashes | src/ganker/artifacts.py:22-75 | from any well-formed store, for every id, with any number of concurrent writers each stopped anywhere, inside its mkdir too: latest reports NotFound exactly when the pointer's path leads to nothing, raises exactly when a directory is there, and otherwise returns an artifact of the id's directory whose manifest and payload are where it says; it raises only over a directory that was there before or was made for an id with a component latest.json, and finds that very id when all ids are plain |
| Artifacts.StageKeepsWellFormed | src/ganker/artifacts.py:37-58 | each step of a write keeps every pointer aimed at a manifest by a path that can be walked, and every manifest backed by its payload |
| Artifacts.LeftIsWellFormed | src/ganker/artifacts.py:37-58 | so does a whole write however it ends: interrupted, or stopped by a file or directory in its way |
| Artifacts.StageKeepsOtherRuns | src/ganker/artifacts.py:37-75 | for every id: what latest finds changes only by a step in its directory, or from NotFound by a mkdir, and then only for an id with ".." or for a directory with a component latest.json |
| Artifacts.WriteKeepsOtherRuns | src/ganker/artifacts.py:37-75 | the same for a whole write, however it ends |
| Artifacts.EarlyStagesKeepPointer | src/ganker/artifacts.py:37-58 | until the last step of a write no id's pointer moves |
| Artifacts.ResaveShowsEarly | src/ganker/artifacts.py:51-58 | saving again the version latest finds shows in what latest finds one file write before latest.json is written |
| Artifacts.SameDirIff | src/ganker/artifacts.py:37-38 | two ids keep their files in one directory exactly when their components, each ".." taking the one before it away, lead to one place; without ".." exactly when the components agree, and an absolute id may name the directory another reaches below the root |
| Artifacts.PlainDirs | src/ganker/artifacts.py:37-38 | ids of one plain component have directories of their own, and another relative id reaches one exactly when its components, ".." resolved, lead to it |
| Artifacts.PlacesCoincideIff | src/ganker/artifacts.py:37-56 | two payloads or manifests are in one place exactly when directory and version agree, two pointers when the directory does, and files of different kinds never |
| Artifacts.OpenIfThere | src/ganker/artifacts.py:65-66 | an id without ".." whose directory exists can be walked to |
| Artifacts.SaveSharedByDir | src/ganker/artifacts.py:37-75 | a complete save is what latest then finds under every id that leads to its directory, naming the id it was saved under, provided every directory the id walks through exists; NotFound otherwise |
| Artifacts.AliasFindsOther | src/ganker/artifacts.py:61-75 | after a save of a plain id, latest of that id with a slash behind it returns an artifact of the other id |
| Artifacts.WayRoundFindsOther | src/ganker/artifacts.py:61-75 | and so does "../weights/" in front of it |
| Artifacts.DetourOpens | src/ganker/artifacts.py:38-38 | "x/../r" finds nothing until a save of x makes its directory, and what r finds from then on |
| Artifacts.FolderHidesPointer | src/ganker/artifacts.py:38-38 | the mkdir of a save of "r/latest.json" makes latest of r raise |
| Artifacts.PointerGoesBack | src/ganker/artifacts.py:55-75 | a complete write of a lower version moves what latest finds back to it |
| Paths.ParseShow | src/ganker/artifacts.py:48-49 | a normalised path is read back from its text, so the paths in pointer and manifest lead to the files written |
| Artifacts.FilesystemArtifactStore.Write | src/ganker/artifacts.py:22-59 | mkdir, payload, manifest, pointer: the write leaves exactly the steps that nothing made raise, and returns only after all four |
| Artifacts.FilesystemArtifactStore.ReadLatest | src/ganker/artifacts.py:61-75 | follows latest.json to the manifest its text names and returns what is there; NotFound exactly when either is missing |
| FakeBackend.FakeSimulatesMegatron | src/ganker/backends/fake.py:47-161 | any call the Megatron backend accepted, in a history with failures of any kind, is accepted by the fake backend fed the accepted calls only, with the same versions and the same input token count |
| FakeBackend.FakeTrainingBackend.ForwardBackward | src/ganker/backends/fake.py:73-123 | rejects an unknown run, no data, an empty row or no loss name, with which error; else counts the tokens of all rows and one gradient more |
| FakeBackend.FakeTrainingBackend.CountTokens | src/ganker/backends/fake.py:87-101 | the loop adds up the row lengths, or finds an empty row |
| FakeBackend.FakeTrainingBackend.OptimStep | src/ganker/backends/fake.py:125-142 | rejects an unknown run or a rate that is not positive; else one step and one version more |
| FakeBackend.FakeTrainingBackend.SaveWeights | src/ganker/backends/fake.py:144-161 | returns an artifact of the current version in any state |
| TensorBatches.TokenCountIsTotal | src/ganker/backends/megatron.py:44-49 | rows times columns is the sum of the row lengths for every accepted request |
| TensorBatches.DatumsToTensorBatch | src/ganker/backends/megatron.py:503-569 | accepts exactly non-empty data of equal, non-empty rows whose targets and weights have their length, for cross_entropy; then row i of the tensors has the tokens, the target tokens cut toward zero and the weights of datum i, position by position |
| TensorBatches.ConversionIsUnique | src/ganker/backends/megatron.py:503-569 | no other tensors have those rows |
| TensorBatches.SplitTensorBatch | src/ganker/backends/megatron.py:860-883 | succeeds exactly when the microbatch size is positive and divides a non-empty batch; row i of part k is row size*k+i of the batch, in all three tensors |
| TensorBatches.RegroupIffFull | src/ganker/backends/megatron.py:860-883 | splitting flattened groups gives the groups back exactly when every group is full |
| TensorBatches.RegroupFull | src/ganker/backends/megatron.py:860-883 | for full groups: the same groups in the same order, tensors row-aligned |
| TensorBatches.MicrobatchesAreFull | src/ganker/backends/megatron.py:860-883 | every part has exactly the microbatch size |
| Losses.ForwardBackward | src/ganker/backends/megatron.py:266-280 | raises exactly when the batch cannot be split or the shapes differ; otherwise the reported loss is finite exactly when no microbatch's weights add up to zero, and is the mean of the microbatches' values, each of which times the sum of its weights is the sum of weight times token loss over its rows and positions |
| Losses.OnlyWeightedTokensMatter | src/ganker/backends/megatron.py:886-902 | models that agree on every token of non-zero weight report the same loss |
| Losses.ExtractLoss | src/ganker/backends/megatron.py:905-919 | the mean of the reported values; nothing reported is zero; one value that is not finite spoils it |
| Losses.ReportedWithinBounds | src/ganker/backends/megatron.py:886-919 | with non-negative masks of positive sum the reported loss is finite and between any bounds on the losses of the tokens that count |
| Losses.GlobalMeanIffEqualSums | src/ganker/backends/megatron.py:886-919 | the reported loss is the masked mean over the whole logical batch, for all token losses, exactly when all microbatches carry the same mask sum |
| Losses.MasksCoverBatch | src/ganker/backends/megatron.py:860-902 | the microbatches' masks, one after the other, are the weights of the logical batch |
| DistributedConfig.Construct | src/ganker/distributed/torchrun.py:76-97 | a configuration is built exactly from positive sizes for which the world is a whole number of replicas, and a given global batch a whole number of rounds of one microbatch each; the divisions are never by zero |
| DistributedConfig.ShapeIsExact | src/ganker/distributed/torchrun.py:99-121 | world = replicas x stages x shards and global batch = accumulation x microbatch x replicas, all positive |
| DistributedConfig.PipelineDefaultBatch | modal_apps/qwen_pipeline_parallel_sft/sft.py:52-63 | the pipeline entry point's default batch always makes the accumulation equal the number of stages, a supported shape |
| DistributedConfig.EntryRebuildsConfig | modal_apps/qwen_sft_multinode/train_entry.py:423-436 | the configuration an entry point rebuilds from its world is the launcher's with the batch size made explicit: same replicas, same accumulation |
| DistributedConfig.RanksAreCoordinates | src/ganker/distributed/torchrun.py:316-335 | ranks of the world correspond one to one to (replica, stage, shard), and only ranks outside it are refused |
| DistributedConfig.OneArtifactWriter | src/ganker/distributed/torchrun.py:37-43 | rank 0 is the only artifact writer |
| DistributedConfig.OneLossReporter | src/ganker/distributed/torchrun.py:45-50 | each replica has exactly one loss reporter |
| DistributedConfig.AverageIsReplicaMean | modal_apps/qwen_sft_multinode/train_entry.py:475-486 | the divisor is always the number of replicas, and the result the mean of their losses |
| DataSchedule.SelectDataParallelItems | src/ganker/distributed/torchrun.py:293-313 | the selection, one item a microstep, fails exactly on a bad size, rank, step or empty list |
| DataSchedule.SelectedReadsPosition | src/ganker/distributed/torchrun.py:274-313 | the item of a microstep is the one at its position, modulo the list |
| DataSchedule.PositionsAreExact | src/ganker/distributed/torchrun.py:289-313 | positions of (step, microstep, rank) are exactly 0 .. S*G*D-1, once each |
| DataSchedule.ConsumedIsCyclic | src/ganker/distributed/torchrun.py:274-313 | what the replicas consume together, round by round, is the list read cyclically from its start |
| DataSchedule.ConsumesPlaces | src/ganker/distributed/torchrun.py:274-313 | a run consumes the items at its places in the list, one after the other |
| DataSchedule.UsedEvenly | src/ganker/distributed/torchrun.py:274-313 | every place of the list is used floor or ceiling of S*G*D/N times, the first S*G*D mod N of them once more; items may be equal |
| DataSchedule.NoRepeatsIff | src/ganker/distributed/torchrun.py:274-313 | no place is used twice exactly when the run consumes no more than there is |
| TrainEntry.RunSteps | modal_apps/qwen_sft_multinode/train_entry.py:157-186 | the step loop succeeds exactly when every step's selection, split, runtime calls and rate do; then n steps were made, each on its selected data, and each loss is the average over replicas |
| TrainEntry.TrainSelected | modal_apps/qwen_sft_multinode/train_entry.py:158-180 | select, flatten and train succeed exactly when the step fits, and issue exactly the two calls of the step on its data |
| TrainEntry.TrainStep | modal_apps/qwen_sft_multinode/train_entry.py:168-180 | one step: forward_backward on the logical batch and optim_step, successful exactly when the batch is accepted and divisible and the runtime plays along |
| TrainEntry.StepRegroups | modal_apps/qwen_sft_multinode/train_entry.py:161-168 | when every batch is full, the split of a step's logical batch is the selected microbatches, tensors and all: as many as the accumulation, at least one per stage |
| TrainEntry.IndivisibleRaises | src/ganker/backends/megatron.py:860-883 | for every model: the runtime's step errs on the tensors of accepted data that the microbatch size does not divide, and otherwise only on wrong shapes; the driver's reply raises in exactly the first case |
| TrainEntry.IndivisibleFailsRun | src/ganker/backends/megatron.py:999-1008 | a batch the runtime cannot split is accepted by the backend and fails the run |
| SftData.EncodeSftExample | examples/sft/data.py:144-193 | ValueError exactly for bad sizes or an empty completion, None exactly for an example to be left out, else a row that teaches the completion, computed by cutting, padding and masking |
| SftData.EncodeMeans | examples/sft/data.py:144-193 | None exactly when overlong and dropped, weightless or the prompt fills the row; else the row is begin token, prompt, completion, end token, cut or padded; labels are the tokens that follow, the weight sits on one stretch after the prompt, and the labels there are the completion and the end token as far as the row reaches |
| SftData.BatchDatums | examples/sft/data.py:196-210 | fails exactly on a bad size or no data; keeps order and loses nothing; all batches full but possibly the last |
| SftData.BatchingIsUnique | examples/sft/data.py:196-210 | there is only one way to batch like that |
| SftData.AllFullIff | examples/sft/data.py:196-210 | every batch is full exactly when the size divides the number of rows |
| SftData.LoadSftBatches | examples/sft/data.py:213-229 | succeeds exactly when the sizes are good, every completion has a token and some example is kept; the batches' rows are then those of the kept examples, by index, in order and none missing; all batches full but possibly the last |
| SftData.LoadedBatchesTrain | examples/sft/data.py:184-229 | every loaded batch passes all row checks; however it is split, the reported loss is finite and within any bounds on the losses of the tokens whose weight in their datum is positive |
| SftData.MicrobatchesTeach | src/ganker/backends/megatron.py:503-569 | what the model is trained on: however a loaded batch is converted and split, row i of part k is the row of one particular kept example, its labels the next tokens, its weight on the completion and the end token |
| SftData.SplitWeightsPositive | src/ganker/backends/megatron.py:889-893 | however encoded rows are split, the weights of every microbatch are non-negative and add up to more than zero: the loss division is never by zero |
| SftJob.StepFitsIffDivisible | modal_apps/qwen_sft_multinode/train_entry.py:160-180 | with encoded data only divisibility, the runtime and the rate can stop a step |
| SftJob.StepDividesIff | modal_apps/qwen_sft_multinode/train_entry.py:158-168 | when only the last batch may be partial, a step divides exactly when the size of that batch times how often the step picks it does: known from sizes and positions before the run |
| SftJob.DivisibleDataTrains | modal_apps/qwen_sft_multinode/train_entry.py:117-186 | when the microbatch size divides the number of rows, every step of every rank goes through on exactly the microbatches it was dealt |
| SftLoop.RunSft | examples/sft/loop.py:29-92 | succeeds exactly when there is a batch, the create request is good, no run is active and the outside plays along; then the calls are, in order, the create, for each of n = min(max_steps, batches) batches its forward_backward, an optim_step at the given rate and a save of the right kind when due, and a save at the end if none was; losses are what the runtime reported, and the artifact's version is save_every*floor(n/save_every), or n |
| SftLoop.TrainLoop | examples/sft/loop.py:60-83 | the loop over the batches: the calls of every turn on its batch, losses[i] as the runtime reported it for the i-th forward_backward, tokens and counters of every step |
| SftLoop.FinalSave | examples/sft/loop.py:84-86 | one save at the end exactly when there was none |
| SftLoop.SavesClosedForm | examples/sft/loop.py:80-83 | how many saves the loop makes, and at which step the last |
| AdapterNames.AdapterNameInjective | src/ganker/backends/sglang.py:615-617 | two adapter names agree exactly when versions and run parts do |
| AdapterNames.AdapterRunIsSafe | src/ganker/backends/sglang.py:615-617 | the run part is always a safe id, and safe ids are exactly the run ids kept as they are |
| AdapterNames.GapBecomesDash | src/ganker/backends/sglang.py:616-616 | a stretch of unsafe characters, however long, becomes one dash, and what is around it is collapsed by itself |
| AdapterNames.EndDashesDrop | src/ganker/backends/sglang.py:616-617 | dashes at the ends of the collapsed id are left out; an id with nothing else stands as "run" |
| AdapterNames.UnsafeIdsCollide | src/ganker/backends/sglang.py:615-617 | different run ids can share a name |
| SGLangSampling.CacheTruth | src/ganker/backends/sglang.py:356-415 | whatever exits, failed launches and failed posts there were, every cached adapter is the last acknowledged under its name by the server now held, and the cache is complete while that server lives |
| SGLangSampling.ServerAskedFor | src/ganker/backends/sglang.py:356-382 | a server that is used, found running or just started, was launched with the model asked for |
| SGLangSampling.SampleNamesLatest | src/ganker/backends/sglang.py:163-191 | an answered sample names the artifact of its run's latest successful load |
| SGLangCoherence.CoherentIff | src/ganker/backends/sglang.py:142-415 | for every history whatsoever, with the server up: it holds a run's loaded adapter at its path exactly when the newest launch was for the loaded model and the last post that took effect under the adapter's name since then, acknowledged or not, carried that path; the condition is computed from the actions |
| SGLangCoherence.AnsweredSampleIff | src/ganker/backends/sglang.py:163-191 | hence exactly when an answered sample was served what it names, first loads included |
| SGLangCoherence.WordLostSince | src/ganker/backends/sglang.py:142-415 | when that stops to hold, a later call did it: one whose artifact does not find its model running in the process held, or has the same adapter name at another path |
| SGLangCoherence.SharedNameServesOther | src/ganker/backends/sglang.py:405-415 | when two run ids give one adapter name, the second load replaces the first on the server and the first run is still sampled under the name |
| SGLangCoherence.BlankServesDash | src/ganker/backends/sglang.py:615-617 | the ids "a b" and "a-b" do so |
| SGLangSampling.ServedIffNotRelaunched | src/ganker/backends/sglang.py:142-191 | by acknowledged posts, and for runs with names of their own, a loaded adapter is still served exactly when no server was launched since |
| SGLangSampling.OneModelIsCoherent | src/ganker/backends/sglang.py:142-264 | with one model path, no exits and safe run ids, every answered sample names the adapter bound on the server to the path of its run's latest load, failed launches and refused posts included |
| SGLangSampling.BoundIsPosted | src/ganker/backends/sglang.py:405-415 | servers hold exactly what they acknowledged when no post took effect without its answer |
| SGLangSampling.RestartMakesStale | src/ganker/backends/sglang.py:356-382 | another run's refresh with another model leaves the first run sampled under an adapter the new server does not have |
| SGLangSampling.LostAnswerMakesStale | src/ganker/backends/sglang.py:405-415 | after a post whose answer was lost, the cache keeps answering for a path the server no longer has |
| SGLangCaches.StepKeepsOwned | src/ganker/backends/sglang.py:142-415 | every refresh, sample, exit and close keeps the caches true of the newest server, and each run's adapters its own |
| SGLangBackend.SGLangHTTPRuntime.EnsureServer | src/ganker/backends/sglang.py:356-403 | a live server of this model is reused untouched; otherwise the process held is killed, the adapter cache emptied and one launched with this model, with the error each launch outcome has |
| SGLangBackend.SGLangHTTPRuntime.LoadLoraAdapter | src/ganker/backends/sglang.py:405-415 | refused without enable_lora, answered from the cache, or posted to the live server and cached only when acknowledged |
| SGLangBackend.SGLangHTTPRuntime.RefreshWeights | src/ganker/backends/sglang.py:230-270 | by the payload's keys: a full or base artifact is served from hf_checkpoint_path, else checkpoint_path, else the configured path, else base_model, and refused exactly when all are empty; an adapter from hf_adapter_path on the configured path or base_model; any other format is refused before the server is touched; an accepted refresh leaves the held server launched with that model and the adapter cached |
| SGLangBackend.SGLangHTTPRuntime.Close | src/ganker/backends/sglang.py:289-297 | a live process is killed and stays held |
| SGLangBackend.SGLangInferenceBackend.RefreshWeights | src/ganker/backends/sglang.py:142-161 | refuses an artifact of another run; loads the given artifact or the newest one as its payload says; the run's entry changes only on success |
| SGLangBackend.SGLangInferenceBackend.Sample | src/ganker/backends/sglang.py:163-191 | refuses a malformed request; samples what is loaded for the run and touches nothing, loading the newest artifact as its payload says only if nothing is |
| UsageAccounting.UsageIsConserved | src/ganker/actors.py:131-180 | under any interleaving at awaits, failures and abandoned calls, a run's summary plus the usage of its executed but unrecorded calls is all its backends reported |
| UsageAccounting.ReturnedIsRecorded | src/ganker/actors.py:168-180 | a call that returned with activity is in the ledger, and the ledger never rejects an event a controller built |
| UsageAccounting.RecordedOnceEach | src/ganker/actors.py:168-180 | an event is in the ledger as many times as calls recorded it |
| UsageAccounting.EventsTell | src/ganker/actors.py:131-180 | in every history a call's event carries its caller's request id, or the generated one if there is none, names the trainer or the rollout, and has the run and the usage its backend answered with |
| UsageAccounting.SettledSummaryIsComplete | src/ganker/actors.py:131-180 | with no call under way and none abandoned unrecorded, a run's summary is everything reported |
| UsageAccounting.NextKeepsAccounted | src/ganker/actors.py:131-180 | each step of each call keeps ledger, unrecorded tasks and reports in balance, whatever is counted |
| UsageAccounting.BackendsNameRuns | src/ganker/backends/megatron.py:1112-1114 | training calls that succeed and samples that are answered had a run id |
| Telemetry.TelemetryLedger.Record | src/ganker/components.py:134-143 | appends exactly the events with request, run and source |
| Telemetry.TelemetryLedger.Summarize | src/ganker/components.py:145-164 | the loop computes the summary of the run's events, sources sorted |
| Telemetry.SummaryAddsUp | src/ganker/components.py:145-164 | a summary's sources are exactly those with events, strictly increasing, and add up to its totals |
| UsageAccounting.SourcesHaveTheirOwn | src/ganker/components.py:154-163 | each source of a summary has the usage and the number of that run's events from that source |
| Telemetry.UsageTotal.Add | src/ganker/contracts.py:129-133 | adds all four counters in place |
| RoleKeys.RoundTripIff | src/ganker/distributed/registry.py:34-48 | a key is read back from its text exactly when no name in it contains a colon; otherwise the text is rejected |
| RoleKeys.SameTextIff | src/ganker/distributed/registry.py:34-36 | two valid keys share a text exactly when their names, cut at every colon, are the same pieces in the same order and their ranks agree |
| RoleKeys.ColonFreeKeysDiffer | src/ganker/distributed/registry.py:34-36 | so colon-free keys share a text only if equal |
| RoleKeys.KeysCollide | src/ganker/distributed/registry.py:34-36 | with colons, different keys can share their text |
| RoleKeys.ScanIff | src/ganker/distributed/registry.py:235-241 | the scan prefix matches a key exactly when its names' pieces begin with those of the deployment and the run |
| RoleKeys.ScanIsExact | src/ganker/distributed/registry.py:235-241 | for colon-free names the scan prefix matches exactly the keys of its deployment and run |
| Registry.RefinesIffApart | src/ganker/distributed/registry.py:211-233 | the store of texts is the map by deployment, run, role and rank after every history of puts and heartbeats over a set of keys exactly when different keys of the set have different texts |
| Registry.SharedTextLoses | src/ganker/distributed/registry.py:211-233 | of two endpoints whose keys share a text the store keeps the later one only |
| Registry.HistoryRefines | src/ganker/distributed/registry.py:211-233 | after any history of puts and heartbeats over keys of different texts, the store of texts is the map |
| Registry.OpRefines | src/ganker/distributed/registry.py:211-233 | each operation answers as the map does |
| Registry.LastPutWins | src/ganker/distributed/registry.py:211-233 | get finds the last put for its key, and another put disturbs it exactly when the keys share their text |
| Registry.ListIsExact | src/ganker/distributed/registry.py:235-241 | a listing is every entry whose names begin with the pieces of the deployment and run, once, and no other |
| Registry.ColonFreeListIsExact | src/ganker/distributed/registry.py:235-241 | for colon-free names: every entry of the deployment and run, once, and no other |
| Registry.TargetsByRank | src/ganker/distributed/registry.py:243-257 | although texts sort as text, the endpoints of a role come out in strictly increasing rank: exactly its entries of that protocol |
| RunRegistry.MappingRunRegistry.Put | src/ganker/distributed/registry.py:211-218 | stores the payload under the endpoint's text and nothing else |
| RunRegistry.MappingRunRegistry.Get | src/ganker/distributed/registry.py:224-233 | the stored endpoint with the dates it lacks, NotFound when there is none, and an error exactly when what is stored is not a valid endpoint |
| RunRegistry.MappingRunRegistry.Heartbeat | src/ganker/distributed/registry.py:220-222 | the stored endpoint with a new heartbeat, the given status if there is one that is not empty, and a start if it had none, all else as it was, stored again under its text |
| RunRegistry.MappingRunRegistry.List | src/ganker/distributed/registry.py:235-241 | the loop returns the endpoints of the listing, read back in text order |
| Registry.ListingIsUnique | src/ganker/distributed/registry.py:235-241 | a listing depends on the store only, not on the order its keys come in |
| Text.LeqIsTextOrder | src/ganker/distributed/registry.py:240-240 | sorted compares texts by the first character in which they differ, an initial part coming first |
| RunRegistry.MappingRunRegistry.TargetsOf | src/ganker/distributed/registry.py:243-257 | of the listed endpoints of the role and protocol, by rank and in listed order within a rank: the first address, or the first of the family asked for, as a URI; NotFound when one lacks the family |
| RunRegistry.EndpointTargets | src/ganker/distributed/monarch.py:14-26 | the same for given endpoints of one protocol; rejected when there are none |
| ShardSelection.SelectStarcoderParquetFiles | examples/sft/code_data.py:24-58 | fails exactly on a bad limit or when nothing is eligible, else returns the selection |
| ShardSelection.EligibleIff | examples/sft/code_data.py:34-58 | language/file is eligible exactly when it ends in .parquet, has none of the four excluded fragments in it, and its language is asked for in any letter case and between any blanks, or none is asked for |
| ShardSelection.SelectionMeans | examples/sft/code_data.py:24-58 | the selection is sorted, eligible, and of each language the first min(k, available) in sorted order |
| ShardSelection.SelectionIsUnique | examples/sft/code_data.py:24-58 | nothing else has that order and that share of each language |
| ShardSelection.OrderDoesNotMatter | examples/sft/code_data.py:34-46 | the order of the input does not matter |
| ShardSelection.SelectionIsIdempotent | examples/sft/code_data.py:24-58 | selecting from a selection changes nothing |

## Left out

- Argument lists: building the entry point's command line and parsing it back, JSON job files and `parse_gpu_count` would add easy round trips.
- JSON text: payloads, manifests, pointers and stored endpoints are values, so malformed text and non-text payload values are not represented; nor is the JSONL loader's rejection of negative weights.
- Torch: device errors, a missing torch installation, tensor widths and floating-point rounding; losses and weights are real numbers, and a division by a zero mask is a value that is not finite.
- File writes are single steps: partial writes and renames are not modelled. A mkdir is modelled component by component.
- The file system is a tree of directories and files that only the store changes: links, deletion, permissions, limits on names and other mounts are left out, and the working directory does not move. A store is well-formed only if the root's path opens already or has neither ".." nor "latest.json" in it.
- Locks: the registry lock is modelled without re-entry, which the backend never uses; the heap objects of `TrainingBackend` run one call at a time, and the interleaving is on values in `TrainingThreads`.
- TrainingBackend.MegatronTrainingBackend.SaveWeights: the configuration values a save echoes into its payload are left out; the keys a runtime returns override the backend's own, as in the code.
- FakeBackend.FakeTrainingBackend.ForwardBackward: its made-up loss and log probabilities are left out.
- FakeBackend.FakeTrainingBackend.SaveWeights: the files its write leaves are left out; the store's own methods say what a write leaves.
- The fake backend's sampling side is left out; its run records are values in a map rather than objects.
- Losses.ExtractLoss: takes the value each reduced record holds, if it holds one; the fallbacks over alternative keys of a record and the conversion of its value are left out.
- SftData.LoadSftBatches: takes parsed examples; the line-by-line checks of a JSONL file are left out.
- A create request that finds an active run stops scanning there, while the source first collects every active run; the interleaved machine only gains behaviours by it, and no answer depends on it.
- FakeBackend.FakeSimulatesMegatron: says nothing about calls the Megatron backend rejects, many of which the fake accepts.
- SftLoop.RunSft: the service it drives is the atomic machine rather than the object, so aliasing between the two is not represented.
- TrainEntry.RunSteps: one rank's loop against its own backend; the all-reduce is given by the losses the other ranks bring, and barriers, the final save and the result file are left out.
- DistributedConfig.AverageIsReplicaMean: the tensors reduced in place are the sums of what the ranks contribute; the path without an initialised process group returns its argument and is left out.
- DistributedConfig.RanksAreCoordinates: the pure helper only; the rank layout of Megatron's own `parallel_state` is not part of this model.
- SGLang: request and response bodies, launch arguments, timing of the health check, and a configured external server restarted behind the runtime; `sample` either gets all its answers or raises.
- SGLangSampling.OneModelIsCoherent: assumes no process exits and no lost answers; without any assumption the exact statement is SGLangCoherence.CoherentIff.
- SGLangSampling.ServedIffNotRelaunched: speaks of acknowledged posts and of runs with names of their own; SGLangCoherence.CoherentIff speaks of what the server holds, for all runs.
- SGLangSampling.BoundIsPosted: only says when it is certain for a whole history; the exact condition adapter by adapter is SGLangCoherence.CoherentIff.
- Telemetry: a summary's per-source records are replaced in a map instead of updated in place; events recorded by anyone but a controller or proxy are left out.
- Registry: the two shapes of backing store are one map; keys outside the registry's own form are not represented; `int()` is modelled for an optional sign and decimal digits.
- Shard selection: letters are lowered and blanks stripped within ASCII only.
- Tokenizers are arbitrary functions from text to tokens; shuffling is any order of the examples.
- gRPC, Modal and Monarch plumbing, worker processes, direct sampling routes, Hugging Face baselines and reports.

/** Records that travel between the components. */
module Contracts {
  datatype TuningMode = Lora | Full

  datatype ArtifactKind = FullWeights | DeltaWeights

  // model_input.token_ids and the named tensors of loss_fn_inputs (integers and floats as reals).
  datatype Datum = Datum(tokenIds: seq<int>, lossFnInputs: map<string, seq<real>>)

  datatype WeightArtifact = WeightArtifact(
    runId: string,
    checkpointVersion: int,
    kind: ArtifactKind,
    manifestPath: string,
    payloadPath: string)

  // A JSON object of scalars, each scalar as its text.
  type Payload = map<string, string>

  datatype Usage = Usage(inputTokens: int, outputTokens: int, trainingSteps: int, samples: int) {
    predicate HasActivity() {
      inputTokens != 0 || outputTokens != 0 || trainingSteps != 0 || samples != 0
    }

    function Plus(other: Usage): Usage {
      Usage(inputTokens + other.inputTokens, outputTokens + other.outputTokens,
            trainingSteps + other.trainingSteps, samples + other.samples)
    }
  }

  const NO_USAGE := Usage(0, 0, 0, 0)
}

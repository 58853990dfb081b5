/** The REINVENT staged-learning configuration (the TOML file) as a value:
    global parameters, a learning strategy, a diversity filter and stages,
    each stage with a scoring function made of named components. Only the
    structure is modelled, not the TOML text. */
module Learning {
  import opened Results
  import Docking

  /** A score transform: a one-sided curve (`sigmoid`, `reverse_sigmoid`)
      given by its tag and shape, or the molecular-weight window. */
  datatype Transform =
    | Curve(kind: string, high: Num, low: Num, k: Num)
    | DoubleSigmoid(high: Num, low: Num, coefDiv: Num, coefSi: Num, coefSe: Num)

  /** The `params.*` keys of a DockStream endpoint. */
  datatype DockStreamParams = DockStreamParams(
    configurationPath: string,
    dockerScriptPath: string,
    dockerPythonPath: string,
    dockingRunName: Option<string>)

  datatype Endpoint = Endpoint(
    name: Option<string>,
    weight: Option<Num>,
    dockstream: Option<DockStreamParams>,
    smarts: seq<string>,
    transform: Option<Transform>)

  datatype ComponentKind = DockStream | QED | MolecularWeight | CustomAlerts

  /** One `[[stage.scoring.component]]` table; `name` and `weight` are the
      ones written at component level, when present. */
  datatype Component = Component(
    kind: ComponentKind,
    name: Option<string>,
    weight: Option<Num>,
    endpoints: seq<Endpoint>)

  datatype Stage = Stage(
    maxScore: Num,
    maxSteps: int,
    chkptFile: string,
    termination: Option<string>,
    scoringType: string,
    components: seq<Component>)

  datatype Parameters = Parameters(
    batchSize: int,
    priorFile: Option<string>,
    agentFile: Option<string>,
    useCheckpoint: Option<bool>,
    sigma: Option<Num>)

  datatype LearningStrategy = LearningStrategy(kind: string, sigma: int, rate: Num)

  datatype DiversityFilter = DiversityFilter(kind: string, minscore: Num, bucketSize: int)

  datatype LearningDoc = LearningDoc(
    runType: Option<string>,
    parameters: Parameters,
    strategy: Option<LearningStrategy>,
    diversity: Option<DiversityFilter>,
    stages: seq<Stage>)

  /** The step budget of the single stage: small in test mode. */
  function MaxSteps(testMode: bool): int {
    if testMode then 5 else 100
  }

  /** An endpoint that names a docking run names one of `ids`. */
  predicate EndpointResolved(e: Endpoint, ids: seq<string>) {
    e.dockstream.Some? && e.dockstream.value.dockingRunName.Some? ==>
      e.dockstream.value.dockingRunName.value in ids
  }

  predicate ComponentResolved(c: Component, ids: seq<string>) {
    forall i :: 0 <= i < |c.endpoints| ==> EndpointResolved(c.endpoints[i], ids)
  }

  predicate StageResolved(s: Stage, ids: seq<string>) {
    forall i :: 0 <= i < |s.components| ==> ComponentResolved(s.components[i], ids)
  }

  /** Every `docking_run_name` of the learning document is the `run_id` of a
      run of the docking document. */
  predicate CrossReferenced(l: LearningDoc, d: Docking.DockingDoc) {
    forall i :: 0 <= i < |l.stages| ==> StageResolved(l.stages[i], Docking.RunIds(d))
  }
}

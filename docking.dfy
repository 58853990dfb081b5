/** The DockStream configuration document (`dockstream_config.json`) as a
    value: one or more embedding pools that turn SMILES into conformers, and
    an ordered list of docking runs that read from a pool. */
module Docking {
  import opened Results

  /** One entry of `ligand_preparation.embedding_pools`. */
  datatype EmbeddingPool = EmbeddingPool(
    poolId: string,
    poolType: string,
    prefixExecution: Option<string>,   // "parameters.prefix_execution", when present
    numberCores: int,
    standardizeSmiles: bool,
    inputType: string,
    conformerPath: string,
    format: string)

  /** One entry of `docking_runs`. `searchSpace` is the ordered JSON object of
      the box, keys included. */
  datatype DockingRun = DockingRun(
    backend: string,
    runId: string,
    inputPools: seq<string>,
    binaryLocation: string,
    numberCores: int,
    receptorPdbqtPath: seq<string>,
    numberPoses: int,
    searchSpace: seq<(string, Num)>,
    posesPath: string,
    scoresPath: string,
    overwrite: bool)

  datatype DockingDoc = DockingDoc(
    logfile: string,
    pools: seq<EmbeddingPool>,
    runs: seq<DockingRun>)

  function RunIds(d: DockingDoc): (r: seq<string>)
    ensures |r| == |d.runs|
    ensures forall i :: 0 <= i < |d.runs| ==> r[i] == d.runs[i].runId
  {
    seq(|d.runs|, i requires 0 <= i < |d.runs| => d.runs[i].runId)
  }

  function PoolIds(d: DockingDoc): (r: seq<string>)
    ensures |r| == |d.pools|
    ensures forall i :: 0 <= i < |d.pools| ==> r[i] == d.pools[i].poolId
  {
    seq(|d.pools|, i requires 0 <= i < |d.pools| => d.pools[i].poolId)
  }

  /** Every run reads only from pools the document declares. */
  predicate PoolsResolved(d: DockingDoc) {
    forall i, j :: 0 <= i < |d.runs| && 0 <= j < |d.runs[i].inputPools| ==>
      d.runs[i].inputPools[j] in PoolIds(d)
  }

  /** No two runs share an identifier. */
  predicate UniqueRunIds(d: DockingDoc) {
    forall i, j :: 0 <= i < j < |d.runs| ==> d.runs[i].runId != d.runs[j].runId
  }

  /** The name of the one embedding pool every script declares. */
  const RDKIT := "RDkit"

  /** The RDKit pool the scripts declare: four cores, SMILES from the
      console, conformers written as SDF to `conformerPath`. */
  function RdkitPool(prefixExecution: Option<string>, conformerPath: string): EmbeddingPool {
    EmbeddingPool(RDKIT, "RDkit", prefixExecution, 4, false, "console", conformerPath, "sdf")
  }

  /** The keys of a search box, in the order the configuration lists them. */
  const BOX_KEYS: seq<string> := ["center_x", "center_y", "center_z", "size_x", "size_y", "size_z"]
}

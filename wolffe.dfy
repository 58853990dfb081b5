/** The two-target selectivity pipeline (reinvent_ppar_pipeline__wolffe.py):
    it locates DockStream, converts the receptors that are not converted yet,
    builds the docking document from the per-target tables and the learning
    document with one scoring component per target, and docks one reference
    molecule as a smoke test. */
module Wolffe {
  import opened Results
  import opened Text
  import opened Paths
  import opened Shell
  import opened Docking
  import opened Learning

  // ---------------------------------------------------------------------------
  // the parameter table

  const TARGET_1_NAME := "ppar_alpha"
  const TARGET_2_NAME := "ppar_gamma"
  const TARGET_1_LABEL := "PPAR\U{3B1}"
  const TARGET_2_LABEL := "PPAR\U{3B3}"
  /** The four receptor files (absolute, under
      `/mnt/tank/scratch/YOU_USERNAME/targets`) and the shared scratch
      directory. */
  const TARGETS_DIR: Path := Path(true, ["mnt", "tank", "scratch", "YOU_USERNAME", "targets"])
  const TARGET_1_PDB := Child(TARGETS_DIR, "ppar_alpha.pdb")
  const TARGET_2_PDB := Child(TARGETS_DIR, "ppar_gamma.pdb")
  const TARGET_1_PDBQT := Child(TARGETS_DIR, "ppar_alpha.pdbqt")
  const TARGET_2_PDBQT := Child(TARGETS_DIR, "ppar_gamma.pdbqt")
  const SCRATCH_DIR: Path := Path(true, ["mnt", "tank", "scratch", "wolffe104"])

  const TARGET_1_RUN_ID := "PPARa"
  const TARGET_2_RUN_ID := "PPARg"

  const TARGET_1_BOX: map<string, Num> := map[
    "center_x" := 13.861, "center_y" := -12.946, "center_z" := -31.915,
    "size_x" := 16.842, "size_y" := 9.62, "size_z" := 22.206]
  const TARGET_2_BOX: map<string, Num> := map[
    "center_x" := 22.553, "center_y" := -7.676, "center_z" := 26.095,
    "size_x" := 64.72, "size_y" := 77.892, "size_z" := 75.448]

  /** As written: the primary target's "high" is below its "low". */
  const TARGET_1_SCORE_HIGH: Num := -10.0
  const TARGET_1_SCORE_LOW: Num := -5.0
  const TARGET_1_SCORE_K: Num := 0.5
  const TARGET_2_SCORE_HIGH: Num := -5.0
  const TARGET_2_SCORE_LOW: Num := -10.0
  const TARGET_2_SCORE_K: Num := 0.5

  /** The order in which `prepare_receptors` visits the targets. */
  const TARGET_NAMES := [TARGET_1_NAME, TARGET_2_NAME]

  /** One entry of `target_score_params`. */
  datatype ScoreParams = ScoreParams(transform: string, high: Num, low: Num, k: Num)

  /** The `CONFIG` table. `targetRunIds` keeps the dict's insertion order,
      which fixes the order of the docking runs. */
  datatype Config = Config(
    condaReinvent: string,
    condaDockstream: string,
    workDir: string,
    dockstreamPath: string,
    priorFile: string,
    targets: map<string, string>,
    targetPdbqt: map<string, string>,
    targetLabels: map<string, string>,
    targetRunIds: Dict<string>,
    targetBoxes: map<string, map<string, Num>>,
    targetScoreParams: map<string, ScoreParams>,
    testMode: bool,
    batchSize: int)

  /** Every lookup the builders make for the two named targets succeeds. */
  predicate KeysComplete(cfg: Config) {
    forall i :: 0 <= i < |TARGET_NAMES| ==>
      && TARGET_NAMES[i] in cfg.targets
      && TARGET_NAMES[i] in cfg.targetPdbqt
      && TARGET_NAMES[i] in cfg.targetScoreParams
      && TARGET_NAMES[i] in cfg.targetBoxes
      && Get(cfg.targetRunIds, TARGET_NAMES[i]).Some?
  }

  /** The table as the script writes it, for the script directory `baseDir`
      and the DockStream checkout `dockstreamPath` that `find_dockstream`
      returned. The target paths are absolute, so `baseDir / path` is `path`. */
  function DefaultConfig(baseDir: Path, dockstreamPath: string): (cfg: Config)
    ensures KeysComplete(cfg)
    ensures cfg.testMode && cfg.targetRunIds == [(TARGET_1_NAME, TARGET_1_RUN_ID), (TARGET_2_NAME, TARGET_2_RUN_ID)]
  {
    assert TARGET_1_NAME[5] != TARGET_2_NAME[5];
    Config(
      condaReinvent := "reinvent4",
      condaDockstream := "DockStream",
      workDir := Str(baseDir),
      dockstreamPath := dockstreamPath,
      priorFile := Str(Child(SCRATCH_DIR, "reinvent.prior")),
      targets := map[TARGET_1_NAME := Str(Join(baseDir, TARGET_1_PDB)),
                     TARGET_2_NAME := Str(Join(baseDir, TARGET_2_PDB))],
      targetPdbqt := map[TARGET_1_NAME := Str(Join(baseDir, TARGET_1_PDBQT)),
                         TARGET_2_NAME := Str(Join(baseDir, TARGET_2_PDBQT))],
      targetLabels := map[TARGET_1_NAME := TARGET_1_LABEL, TARGET_2_NAME := TARGET_2_LABEL],
      targetRunIds := [(TARGET_1_NAME, TARGET_1_RUN_ID), (TARGET_2_NAME, TARGET_2_RUN_ID)],
      targetBoxes := map[TARGET_1_NAME := TARGET_1_BOX, TARGET_2_NAME := TARGET_2_BOX],
      targetScoreParams := map[
        TARGET_1_NAME := ScoreParams("reverse_sigmoid", TARGET_1_SCORE_HIGH, TARGET_1_SCORE_LOW, TARGET_1_SCORE_K),
        TARGET_2_NAME := ScoreParams("sigmoid", TARGET_2_SCORE_HIGH, TARGET_2_SCORE_LOW, TARGET_2_SCORE_K)],
      testMode := true,
      batchSize := 20)
  }

  // ---------------------------------------------------------------------------
  // locating DockStream and the conda environments

  predicate HasDocker(p: Path, w: World) {
    Child(p, "docker.py") in w.fs
  }

  /** The places `find_dockstream` looks, in order. */
  function Candidates(baseDir: Path, home: Path): seq<Path> {
    [ Child(baseDir, "DockStream"),
      Child(Parent(baseDir), "DockStream"),
      Child(home, "DockStream"),
      Child(SCRATCH_DIR, "DockStream") ]
  }

  /** `find_dockstream`: the first candidate that holds `docker.py`, or
      FileNotFoundError when none does. */
  method FindDockstream(candidates: seq<Path>, w: World) returns (r: Result<string>)
    ensures r.Ok? ==>
      exists i ::
        && 0 <= i < |candidates| && HasDocker(candidates[i], w)
        && r.value == Str(candidates[i])
        && forall j :: 0 <= j < i ==> !HasDocker(candidates[j], w)
    ensures r.Err? ==>
      && r.error == FileNotFoundError
      && forall i :: 0 <= i < |candidates| ==> !HasDocker(candidates[i], w)
  {
    for i := 0 to |candidates|
      invariant forall j :: 0 <= j < i ==> !HasDocker(candidates[j], w)
    {
      if HasDocker(candidates[i], w) {
        return Ok(Str(candidates[i]));
      }
    }
    return Err(FileNotFoundError);
  }

  /** `CONDA_BASE / "envs" / env_name`: the environment name is parsed as a
      path, so empty and `.` components vanish and an absolute name
      replaces the prefix. */
  function CondaEnvDir(condaBase: Path, env: string): Path {
    Join(Child(condaBase, "envs"), Parse(env))
  }

  /** `get_conda_bin`: the `bin` directory of a conda environment. */
  function GetCondaBin(condaBase: Path, env: string): string {
    Str(Child(CondaEnvDir(condaBase, env), "bin"))
  }

  /** `get_conda_python`: the interpreter of a conda environment. */
  function GetCondaPython(condaBase: Path, env: string): string {
    Str(Child(Child(CondaEnvDir(condaBase, env), "bin"), "python"))
  }

  /** The bin directory reads back as `<conda base>/envs/<env>/bin` with the
      components of the environment name; an absolute name discards the
      conda base; a plain name is one component. */
  lemma CondaBinPath(condaBase: Path, env: string)
    requires Valid(condaBase)
    ensures !(|env| > 0 && env[0] == '/') ==>
      Parse(GetCondaBin(condaBase, env)) == Path(condaBase.absolute, condaBase.parts + ["envs"] + Parse(env).parts + ["bin"])
    ensures |env| > 0 && env[0] == '/' ==>
      Parse(GetCondaBin(condaBase, env)) == Path(true, Parse(env).parts + ["bin"])
    ensures ValidPart(env) ==>
      Parse(GetCondaBin(condaBase, env)) == Path(condaBase.absolute, condaBase.parts + ["envs", env, "bin"])
  {
    var p := Child(CondaEnvDir(condaBase, env), "bin");
    assert ValidPart("envs") && ValidPart("bin");
    assert Valid(p);
    ParseStr(p);
    if !(|env| > 0 && env[0] == '/') {
      assert p.parts == condaBase.parts + ["envs"] + Parse(env).parts + ["bin"];
    }
    if ValidPart(env) {
      ParseName(env);
      assert condaBase.parts + ["envs"] + [env] + ["bin"] == condaBase.parts + ["envs", env, "bin"];
    }
  }

  /** The interpreter is `python` inside the bin directory, whatever the
      environment name. */
  lemma CondaPythonInBin(condaBase: Path, env: string)
    ensures GetCondaPython(condaBase, env) == GetCondaBin(condaBase, env) + "/python"
  {
    var bin := Child(CondaEnvDir(condaBase, env), "bin");
    JoinWithSnoc(bin.parts, "python", '/');
  }

  // ---------------------------------------------------------------------------
  // receptor preparation

  /** The Open Babel conversion of one target, run in the DockStream
      environment. */
  function ObabelCommand(env: string, pdb: string, pdbqt: string): string {
    CondaRun(env, JoinWith(["obabel", pdb, "-O", pdbqt, "-xr", "--partialcharge", "gasteiger"], ' '))
  }

  /** With an environment name and paths free of spaces, the shell splits a
      conversion into `conda run -n <env>` and then Open Babel reading the
      PDB file, writing the PDBQT file, keeping the receptor rigid (`-xr`)
      and assigning Gasteiger charges. */
  lemma ObabelCommandWords(env: string, pdb: string, pdbqt: string)
    requires ' ' !in env && ' ' !in pdb && ' ' !in pdbqt
    ensures SplitOn(ObabelCommand(env, pdb, pdbqt), ' ') ==
      ["conda", "run", "-n", env, "obabel", pdb, "-O", pdbqt, "-xr", "--partialcharge", "gasteiger"]
  {
    var ws := ["obabel", pdb, "-O", pdbqt, "-xr", "--partialcharge", "gasteiger"];
    CondaRunWords(env, ws);
    var all := ["conda", "run", "-n", env] + ws;
    SplitJoin(all, ' ');
  }

  predicate ReceptorKeys(cfg: Config, name: string) {
    name in cfg.targets && name in cfg.targetPdbqt
  }

  /** The converted receptor of `name` is already on disk. */
  predicate Converted(cfg: Config, fs: set<Path>, name: string)
    requires ReceptorKeys(cfg, name)
  {
    Parse(cfg.targetPdbqt[name]) in fs
  }

  /** The conversions due for `names`, in order: one per target whose
      converted file is absent. */
  function Conversions(cfg: Config, fs: set<Path>, names: seq<string>): seq<string>
    requires forall i :: 0 <= i < |names| ==> ReceptorKeys(cfg, names[i])
  {
    if names == [] then []
    else
      var n := names[|names| - 1];
      Conversions(cfg, fs, names[..|names| - 1])
      + (if Converted(cfg, fs, n) then []
         else [ObabelCommand(cfg.condaDockstream, cfg.targets[n], cfg.targetPdbqt[n])])
  }

  /** Every due conversion is that of a target whose file is absent; a
      target whose file exists gets no command. */
  lemma {:induction false} ConversionsOnlyAbsent(cfg: Config, fs: set<Path>, names: seq<string>)
    requires forall i :: 0 <= i < |names| ==> ReceptorKeys(cfg, names[i])
    ensures FromAbsentTargets(cfg, fs, names, Conversions(cfg, fs, names))
  {
    if names != [] {
      var last := |names| - 1;
      var init := names[..last];
      ConversionsOnlyAbsent(cfg, fs, init);
      var c := Conversions(cfg, fs, names);
      var ci := Conversions(cfg, fs, init);
      assert FromAbsentTargets(cfg, fs, init, ci);
      var n := names[last];
      assert c == ci + (if Converted(cfg, fs, n) then []
                        else [ObabelCommand(cfg.condaDockstream, cfg.targets[n], cfg.targetPdbqt[n])]);
      forall k | 0 <= k < |c|
        ensures ConvertsAbsent(cfg, fs, names, c[k])
      {
        if k < |ci| {
          assert ConvertsAbsent(cfg, fs, init, ci[k]);
          var i :| IsConversionOf(cfg, fs, init, i, ci[k]);
          assert names[i] == init[i];
          assert IsConversionOf(cfg, fs, names, i, c[k]);
        } else {
          assert !Converted(cfg, fs, names[last]);
          assert IsConversionOf(cfg, fs, names, last, c[k]);
        }
      }
    } else {
      assert Conversions(cfg, fs, names) == [];
    }
  }

  /** Each of `cmds` converts one of `names` whose converted file is absent. */
  ghost predicate FromAbsentTargets(cfg: Config, fs: set<Path>, names: seq<string>, cmds: seq<string>) {
    forall k :: 0 <= k < |cmds| ==> ConvertsAbsent(cfg, fs, names, cmds[k])
  }

  ghost predicate ConvertsAbsent(cfg: Config, fs: set<Path>, names: seq<string>, cmd: string) {
    exists i :: IsConversionOf(cfg, fs, names, i, cmd)
  }

  /** `cmd` is the conversion of target number `i` of `names`, whose
      converted file is absent. */
  predicate IsConversionOf(cfg: Config, fs: set<Path>, names: seq<string>, i: int, cmd: string) {
    && 0 <= i < |names|
    && ReceptorKeys(cfg, names[i])
    && !Converted(cfg, fs, names[i])
    && cmd == ObabelCommand(cfg.condaDockstream, cfg.targets[names[i]], cfg.targetPdbqt[names[i]])
  }

  /** How `prepare_receptors` stopped at target number `m`: a missing key,
      or the failed conversion of that target. */
  predicate StoppedAt(cfg: Config, w: World, m: nat, cmds: seq<string>, e: Error)
    requires m < |TARGET_NAMES|
  {
    && (forall i :: 0 <= i < m ==> ReceptorKeys(cfg, TARGET_NAMES[i]))
    && if ReceptorKeys(cfg, TARGET_NAMES[m]) then
         && !Converted(cfg, w.fs, TARGET_NAMES[m])
         && cmds == Conversions(cfg, w.fs, TARGET_NAMES[..m + 1])
         && e == CalledProcessError(cmds[|cmds| - 1]) && !Succeeds(w, cmds[|cmds| - 1])
       else
         cmds == Conversions(cfg, w.fs, TARGET_NAMES[..m]) && e == KeyError(TARGET_NAMES[m])
  }

  /** `prepare_receptors`: converts TARGET_1 then TARGET_2, skipping a target
      whose converted file exists, and stops at the first missing key or
      failed conversion. */
  method PrepareReceptors(cfg: Config, w: World) returns (cmds: seq<string>, outcome: Outcome)
    ensures outcome.Completed? || outcome.Raised?
    ensures outcome.Completed? ==>
      (forall i :: 0 <= i < |TARGET_NAMES| ==> ReceptorKeys(cfg, TARGET_NAMES[i]))
      && cmds == Conversions(cfg, w.fs, TARGET_NAMES)
    ensures outcome.Raised? ==>
      exists m :: 0 <= m < |TARGET_NAMES| && StoppedAt(cfg, w, m, cmds, outcome.error)
    ensures outcome.Raised? ==> outcome.error.CalledProcessError? || outcome.error.KeyError?
    ensures forall k :: 0 <= k < |cmds| && (outcome.Completed? || outcome.error.KeyError? || k < |cmds| - 1) ==> Succeeds(w, cmds[k])
  {
    cmds := [];
    var names := TARGET_NAMES;
    for i := 0 to |names|
      invariant forall j :: 0 <= j < i ==> ReceptorKeys(cfg, names[j])
      invariant cmds == Conversions(cfg, w.fs, names[..i])
      invariant forall k :: 0 <= k < |cmds| ==> Succeeds(w, cmds[k])
    {
      var name := names[i];
      assert names[..i + 1][..i] == names[..i];
      if name !in cfg.targets {
        assert StoppedAt(cfg, w, i, cmds, KeyError(name));
        return cmds, Raised(KeyError(name));
      }
      var pdbPath := cfg.targets[name];
      if name !in cfg.targetPdbqt {
        assert StoppedAt(cfg, w, i, cmds, KeyError(name));
        return cmds, Raised(KeyError(name));
      }
      var pdbqtOut := cfg.targetPdbqt[name];
      if Parse(pdbqtOut) in w.fs {
        continue;
      }
      var cmd := ObabelCommand(cfg.condaDockstream, pdbPath, pdbqtOut);
      cmds := cmds + [cmd];
      if !Succeeds(w, cmd) {
        assert StoppedAt(cfg, w, i, cmds, CalledProcessError(cmd));
        return cmds, Raised(CalledProcessError(cmd));
      }
    }
    assert names[..|names|] == names;
    outcome := Completed;
  }

  // ---------------------------------------------------------------------------
  // the docking document

  /** The `search_space` of a run: each box entry under its key prefixed with
      `--`, in the order of `keys`; KeyError for the first missing key. */
  function SearchEntries(box: map<string, Num>, keys: seq<string>): (r: Result<seq<(string, Num)>>)
    ensures r.Ok? <==> forall i :: 0 <= i < |keys| ==> keys[i] in box
    ensures r.Ok? ==>
      && |r.value| == |keys|
      && forall i :: 0 <= i < |keys| ==> r.value[i] == ("--" + keys[i], box[keys[i]])
    ensures r.Err? ==> exists i :: FirstMissing(box, keys, i) && r.error == KeyError(keys[i])
  {
    if keys == [] then Ok([])
    else if keys[0] !in box then Err(KeyError(keys[0]))
    else
      var rest := SearchEntries(box, keys[1..]);
      if rest.Err? then
        assert exists i :: FirstMissing(box, keys, i) && rest.error == KeyError(keys[i]) by {
          var i :| FirstMissing(box, keys[1..], i) && rest.error == KeyError(keys[1..][i]);
          assert keys[i + 1] == keys[1..][i];
          assert forall j :: 1 <= j < i + 1 ==> keys[j] == keys[1..][j - 1];
          assert FirstMissing(box, keys, i + 1);
        }
        Err(rest.error)
      else
        Ok([("--" + keys[0], box[keys[0]])] + rest.value)
  }

  /** `keys[i]` is the first of `keys` missing from `box`. */
  predicate FirstMissing(box: map<string, Num>, keys: seq<string>, i: int) {
    && 0 <= i < |keys| && keys[i] !in box
    && forall j :: 0 <= j < i ==> keys[j] in box
  }

  /** The working directory contains the converted receptor of `name`. */
  predicate ReceptorUnderWorkDir(cfg: Config, name: string) {
    name in cfg.targetPdbqt && RelativeTo(Parse(cfg.targetPdbqt[name]), Parse(cfg.workDir)).Ok?
  }

  /** One docking run of `create_dockstream_config`, for the target `name`
      with run id `runId`. */
  function MakeRun(cfg: Config, condaBase: Path, name: string, runId: string): Result<DockingRun>
  {
    if name !in cfg.targetBoxes then Err(KeyError(name))
    else
      var box := cfg.targetBoxes[name];
      if name !in cfg.targetPdbqt then Err(KeyError(name))
      else
        var pdbqtFile := cfg.targetPdbqt[name];
        var rel := RelativeTo(Parse(pdbqtFile), Parse(cfg.workDir));
        if rel.Err? then Err(rel.error)
        else
          var space := SearchEntries(box, BOX_KEYS);
          if space.Err? then Err(space.error)
          else
            Ok(DockingRun(
              backend := "AutoDockVina",
              runId := runId,
              inputPools := [RDKIT],
              binaryLocation := GetCondaBin(condaBase, cfg.condaDockstream),
              numberCores := 4,
              receptorPdbqtPath := [Str(rel.value)],
              numberPoses := 1,
              searchSpace := space.value,
              posesPath := "poses/docked_" + Lower(runId) + ".sdf",
              scoresPath := "results/scores_" + Lower(runId) + ".csv",
              overwrite := true))
  }

  /** A run is built exactly when the target has a box with all six keys and
      a converted receptor inside the working directory; the errors come in
      the source's order (box, receptor file, `relative_to`, box key); the
      run docks the receptor by its path relative to the working directory,
      names its output files after the lower-cased run id and lists the box
      entries in key order. */
  lemma MakeRunSpec(cfg: Config, condaBase: Path, name: string, runId: string)
    ensures var r := MakeRun(cfg, condaBase, name, runId);
      r.Ok? <==>
        && name in cfg.targetBoxes && name in cfg.targetPdbqt
        && ReceptorUnderWorkDir(cfg, name)
        && forall i :: 0 <= i < |BOX_KEYS| ==> BOX_KEYS[i] in cfg.targetBoxes[name]
    ensures var r := MakeRun(cfg, condaBase, name, runId);
      name !in cfg.targetBoxes || name !in cfg.targetPdbqt ==> r == Err(KeyError(name))
    ensures var r := MakeRun(cfg, condaBase, name, runId);
      name in cfg.targetBoxes && name in cfg.targetPdbqt && !ReceptorUnderWorkDir(cfg, name) ==> r == Err(ValueError)
    ensures var r := MakeRun(cfg, condaBase, name, runId);
      name in cfg.targetBoxes && name in cfg.targetPdbqt && ReceptorUnderWorkDir(cfg, name) && r.Err? ==>
        exists i :: FirstMissing(cfg.targetBoxes[name], BOX_KEYS, i) && r.error == KeyError(BOX_KEYS[i])
    ensures var r := MakeRun(cfg, condaBase, name, runId);
      r.Ok? ==> RunFields(cfg, condaBase, name, runId, r.value)
  {
    MakeRunErrors(cfg, condaBase, name, runId);
    var r := MakeRun(cfg, condaBase, name, runId);
    if r.Ok? {
      MakeRunFields(cfg, condaBase, name, runId);
    }
  }

  /** The fields of the run built for `name` with run id `runId`. */
  predicate RunFields(cfg: Config, condaBase: Path, name: string, runId: string, run: DockingRun)
    requires name in cfg.targetBoxes && name in cfg.targetPdbqt
  {
    && run.runId == runId && run.backend == "AutoDockVina"
    && run.inputPools == [RDKIT] && run.numberPoses == 1 && run.numberCores == 4 && run.overwrite
    && run.binaryLocation == GetCondaBin(condaBase, cfg.condaDockstream)
    && |run.receptorPdbqtPath| == 1
    && !Parse(run.receptorPdbqtPath[0]).absolute
    && Join(Parse(cfg.workDir), Parse(run.receptorPdbqtPath[0])) == Parse(cfg.targetPdbqt[name])
    && run.posesPath == "poses/docked_" + Lower(runId) + ".sdf"
    && run.scoresPath == "results/scores_" + Lower(runId) + ".csv"
    && |run.searchSpace| == |BOX_KEYS|
    && forall i :: 0 <= i < |BOX_KEYS| ==>
         BOX_KEYS[i] in cfg.targetBoxes[name]
         && run.searchSpace[i] == ("--" + BOX_KEYS[i], cfg.targetBoxes[name][BOX_KEYS[i]])
  }

  lemma MakeRunErrors(cfg: Config, condaBase: Path, name: string, runId: string)
    ensures var r := MakeRun(cfg, condaBase, name, runId);
      r.Ok? <==>
        && name in cfg.targetBoxes && name in cfg.targetPdbqt
        && ReceptorUnderWorkDir(cfg, name)
        && forall i :: 0 <= i < |BOX_KEYS| ==> BOX_KEYS[i] in cfg.targetBoxes[name]
    ensures var r := MakeRun(cfg, condaBase, name, runId);
      name !in cfg.targetBoxes || name !in cfg.targetPdbqt ==> r == Err(KeyError(name))
    ensures var r := MakeRun(cfg, condaBase, name, runId);
      name in cfg.targetBoxes && name in cfg.targetPdbqt && !ReceptorUnderWorkDir(cfg, name) ==> r == Err(ValueError)
    ensures var r := MakeRun(cfg, condaBase, name, runId);
      name in cfg.targetBoxes && name in cfg.targetPdbqt && ReceptorUnderWorkDir(cfg, name) && r.Err? ==>
        exists i :: FirstMissing(cfg.targetBoxes[name], BOX_KEYS, i) && r.error == KeyError(BOX_KEYS[i])
  {
  }

  lemma MakeRunFields(cfg: Config, condaBase: Path, name: string, runId: string)
    requires MakeRun(cfg, condaBase, name, runId).Ok?
    ensures name in cfg.targetBoxes && name in cfg.targetPdbqt
    ensures RunFields(cfg, condaBase, name, runId, MakeRun(cfg, condaBase, name, runId).value)
  {
    var rel := RelativeTo(Parse(cfg.targetPdbqt[name]), Parse(cfg.workDir));
    ParseStr(rel.value);
  }

  function EntryRun(cfg: Config, condaBase: Path, entry: (string, string)): Result<DockingRun> {
    MakeRun(cfg, condaBase, entry.0, entry.1)
  }

  /** The single embedding pool of the document. */
  function Pool(): EmbeddingPool {
    RdkitPool(None, "poses/conformers.sdf")
  }

  /** The run of every entry of `es`, in order. */
  function EntryRuns(cfg: Config, condaBase: Path, es: seq<(string, string)>): (rs: seq<Result<DockingRun>>)
    ensures |rs| == |es| && forall i :: 0 <= i < |es| ==> rs[i] == EntryRun(cfg, condaBase, es[i])
  {
    seq(|es|, i requires 0 <= i < |es| => EntryRun(cfg, condaBase, es[i]))
  }

  /** What `create_dockstream_config` produces: one run per entry of
      `target_run_ids`, in insertion order, next to the single pool, or the
      error of the first entry whose run cannot be built. */
  function DockingDocFor(cfg: Config, condaBase: Path): Result<DockingDoc> {
    var runs := Collect(EntryRuns(cfg, condaBase, cfg.targetRunIds));
    if runs.Err? then Err(runs.error)
    else Ok(DockingDoc("results/dockstream.log", [Pool()], runs.value))
  }

  /** The loop of `create_dockstream_config` over `target_run_ids`: the
      run of every entry, in order, or the first entry's error. */
  method BuildRuns(cfg: Config, condaBase: Path) returns (r: Result<seq<DockingRun>>)
    ensures r == Collect(EntryRuns(cfg, condaBase, cfg.targetRunIds))
  {
    var runs: seq<DockingRun> := [];
    var entries := cfg.targetRunIds;
    ghost var rs := EntryRuns(cfg, condaBase, entries);
    for i := 0 to |entries|
      invariant Collect(rs[..i]) == Ok(runs)
    {
      var run := EntryRun(cfg, condaBase, entries[i]);
      assert rs[i] == run;
      CollectStep(rs, i);
      if run.Err? {
        CollectErrorStays(rs, i + 1);
        return Err(run.error);
      }
      runs := runs + [run.value];
    }
    assert rs[..|entries|] == rs;
    return Ok(runs);
  }

  /** `create_dockstream_config`, without writing the JSON file. */
  method CreateDockstreamConfig(cfg: Config, condaBase: Path) returns (r: Result<DockingDoc>)
    ensures r == DockingDocFor(cfg, condaBase)
  {
    var runs := BuildRuns(cfg, condaBase);
    if runs.Err? {
      return Err(runs.error);
    }
    return Ok(DockingDoc("results/dockstream.log", [Pool()], runs.value));
  }

  /** The docking document has one run per entry of `target_run_ids`, in
      order, each named by its entry's run id and reading from the one
      declared pool; its run ids are unique exactly when the table's are. */
  lemma DockingDocShape(cfg: Config, condaBase: Path)
    requires DockingDocFor(cfg, condaBase).Ok?
    ensures var d := DockingDocFor(cfg, condaBase).value;
      && d.logfile == "results/dockstream.log"
      && |d.runs| == |cfg.targetRunIds|
      && (forall i :: 0 <= i < |d.runs| ==> d.runs[i].runId == cfg.targetRunIds[i].1)
      && |d.pools| == 1 && PoolIds(d) == [RDKIT]
      && PoolsResolved(d)
      && (UniqueRunIds(d) <==>
            forall i, j :: 0 <= i < j < |cfg.targetRunIds| ==> cfg.targetRunIds[i].1 != cfg.targetRunIds[j].1)
  {
    var d := DockingDocFor(cfg, condaBase).value;
    var es := cfg.targetRunIds;
    CollectSpec(EntryRuns(cfg, condaBase, es));
    forall i | 0 <= i < |d.runs| ensures d.runs[i].runId == es[i].1 && d.runs[i].inputPools == [RDKIT] {
      assert EntryRun(cfg, condaBase, es[i]) == Ok(d.runs[i]);
      MakeRunSpec(cfg, condaBase, es[i].0, es[i].1);
    }
    assert PoolIds(d) == [RDKIT];
  }

  /** The docking document is built exactly when every entry's run is; it
      fails only with a missing key or a receptor outside the working
      directory, that of the first entry that fails. */
  lemma DockingDocErrors(cfg: Config, condaBase: Path)
    ensures DockingDocFor(cfg, condaBase).Ok? <==>
      forall i :: 0 <= i < |cfg.targetRunIds| ==> EntryRun(cfg, condaBase, cfg.targetRunIds[i]).Ok?
    ensures var r := DockingDocFor(cfg, condaBase);
      r.Err? ==>
        && (r.error.KeyError? || r.error.ValueError?)
        && exists i :: FirstErr(EntryRuns(cfg, condaBase, cfg.targetRunIds), i)
             && EntryRun(cfg, condaBase, cfg.targetRunIds[i]) == Err(r.error)
  {
    var es := cfg.targetRunIds;
    CollectSpec(EntryRuns(cfg, condaBase, es));
    var r := DockingDocFor(cfg, condaBase);
    if r.Err? {
      var rs := EntryRuns(cfg, condaBase, es);
      var i :| FirstErr(rs, i) && rs[i].error == r.error;
      MakeRunSpec(cfg, condaBase, es[i].0, es[i].1);
    }
  }

  // ---------------------------------------------------------------------------
  // the learning document

  /** The DockStream scoring component of one target. */
  function DockComponent(name: string, tag: string, dsScript: string, dsPython: string,
                         runName: string, p: ScoreParams): Component
  {
    Component(DockStream, Some(name), Some(1.0), [
      Endpoint(Some(tag + " Vina"), Some(1.0),
               Some(DockStreamParams("dockstream_config.json", dsScript, dsPython, Some(runName))),
               [], Some(Curve(p.transform, p.high, p.low, p.k)))])
  }

  const ALERT_SMARTS := ["[*;r8]", "[*;r9]", "[*;r10]", "[CH2;X4][N;X3][CH2;X4]", "c1ccc2c(c1)ccc(=O)o2"]

  /** The three fixed components appended after the docking components. */
  function StandardComponents(): seq<Component> {
    [ Component(QED, None, None, [Endpoint(Some("QED"), Some(0.5), None, [], None)]),
      Component(MolecularWeight, None, None, [
        Endpoint(Some("MolecularWeight"), Some(0.5), None, [],
                 Some(DoubleSigmoid(500.0, 200.0, 500.0, 20.0, 20.0)))]),
      Component(CustomAlerts, None, None, [Endpoint(Some("custom_alerts"), Some(1.0), None, ALERT_SMARTS, None)]) ]
  }

  /** `params.docker_script_path`: `docker.py` inside the DockStream checkout. */
  function DockerScript(cfg: Config): string {
    Str(Child(Parse(cfg.dockstreamPath), "docker.py"))
  }

  predicate ScoreKeys(cfg: Config, name: string) {
    name in cfg.targetScoreParams && Get(cfg.targetRunIds, name).Some?
  }

  /** What `create_reinvent_config` produces: the KeyError of the first
      target whose score parameters or run id are missing, or else the
      document with one stage whose scoring function docks against both
      targets. */
  function LearningDocFor(cfg: Config, condaBase: Path): Result<LearningDoc> {
    if !ScoreKeys(cfg, TARGET_1_NAME) then Err(KeyError(TARGET_1_NAME))
    else if !ScoreKeys(cfg, TARGET_2_NAME) then Err(KeyError(TARGET_2_NAME))
    else
      var dsPython := GetCondaPython(condaBase, cfg.condaDockstream);
      var components :=
        [ DockComponent(TARGET_1_NAME + "_affinity", TARGET_1_LABEL, DockerScript(cfg), dsPython,
                        Get(cfg.targetRunIds, TARGET_1_NAME).value, cfg.targetScoreParams[TARGET_1_NAME]),
          DockComponent(TARGET_2_NAME + "_penalty", TARGET_2_LABEL, DockerScript(cfg), dsPython,
                        Get(cfg.targetRunIds, TARGET_2_NAME).value, cfg.targetScoreParams[TARGET_2_NAME]) ]
        + StandardComponents();
      Ok(LearningDoc(
        Some("staged_learning"),
        Parameters(cfg.batchSize, Some(cfg.priorFile), Some(cfg.priorFile), Some(false), None),
        Some(LearningStrategy("dap", 128, 0.0001)),
        Some(DiversityFilter("IdenticalMurckoScaffold", 0.4, 25)),
        [Stage(1.0, MaxSteps(cfg.testMode), "results/stage1.chkpt", Some("simple"), "geometric_mean", components)]))
  }

  /** `create_reinvent_config`, without rendering the TOML text. */
  method CreateReinventConfig(cfg: Config, condaBase: Path) returns (r: Result<LearningDoc>)
    ensures r == LearningDocFor(cfg, condaBase)
  {
    var maxSteps := MaxSteps(cfg.testMode);
    var dsPython := GetCondaPython(condaBase, cfg.condaDockstream);
    var dsScript := DockerScript(cfg);
    var prior := cfg.priorFile;
    var components: seq<Component> := [];

    if TARGET_1_NAME !in cfg.targetScoreParams {
      return Err(KeyError(TARGET_1_NAME));
    }
    var target1Params := cfg.targetScoreParams[TARGET_1_NAME];
    var runId1 := Get(cfg.targetRunIds, TARGET_1_NAME);
    if runId1.None? {
      return Err(KeyError(TARGET_1_NAME));
    }
    components := components + [DockComponent(TARGET_1_NAME + "_affinity", TARGET_1_LABEL, dsScript, dsPython,
                                              runId1.value, target1Params)];

    if TARGET_2_NAME !in cfg.targetScoreParams {
      return Err(KeyError(TARGET_2_NAME));
    }
    var target2Params := cfg.targetScoreParams[TARGET_2_NAME];
    var runId2 := Get(cfg.targetRunIds, TARGET_2_NAME);
    if runId2.None? {
      return Err(KeyError(TARGET_2_NAME));
    }
    components := components + [DockComponent(TARGET_2_NAME + "_penalty", TARGET_2_LABEL, dsScript, dsPython,
                                              runId2.value, target2Params)];

    components := components + StandardComponents();
    assert components ==
      [ DockComponent(TARGET_1_NAME + "_affinity", TARGET_1_LABEL, dsScript, dsPython, runId1.value, target1Params),
        DockComponent(TARGET_2_NAME + "_penalty", TARGET_2_LABEL, dsScript, dsPython, runId2.value, target2Params) ]
      + StandardComponents();

    var stage := Stage(1.0, maxSteps, "results/stage1.chkpt", Some("simple"), "geometric_mean", components);
    r := Ok(LearningDoc(
      Some("staged_learning"),
      Parameters(cfg.batchSize, Some(prior), Some(prior), Some(false), None),
      Some(LearningStrategy("dap", 128, 0.0001)),
      Some(DiversityFilter("IdenticalMurckoScaffold", 0.4, 25)),
      [stage]));
  }

  /** A component with a single DockStream endpoint that names the docking
      run `runName` and scores with the transform of `p`. */
  predicate DocksWith(c: Component, runName: Option<string>, p: ScoreParams) {
    && c.kind == DockStream
    && |c.endpoints| == 1
    && c.endpoints[0].dockstream.Some?
    && c.endpoints[0].dockstream.value.dockingRunName == runName
    && c.endpoints[0].transform == Some(Curve(p.transform, p.high, p.low, p.k))
  }

  lemma DockComponentDocks(name: string, tag: string, dsScript: string, dsPython: string,
                           runName: string, p: ScoreParams)
    ensures DocksWith(DockComponent(name, tag, dsScript, dsPython, runName, p), Some(runName), p)
    ensures DockComponent(name, tag, dsScript, dsPython, runName, p).name == Some(name)
  {
  }

  /** The three standard components score without docking. */
  lemma StandardComponentsShape()
    ensures var cs := StandardComponents();
      && |cs| == 3 && cs[0].kind == QED && cs[1].kind == MolecularWeight && cs[2].kind == CustomAlerts
      && forall t, e :: 0 <= t < |cs| && 0 <= e < |cs[t].endpoints| ==> cs[t].endpoints[e].dockstream.None?
  {
  }

  /** The scoring function has five components, in this order: the primary
      target's affinity, the anti-target's penalty, QED, molecular weight and
      the structural alerts; each docking component names its target's run
      id and copies its transform tag and shape, and no other component docks.
      The single stage gets 5 steps in test mode and 100 otherwise. */
  lemma ScoringComponents(cfg: Config, condaBase: Path, r: Result<LearningDoc>)
    requires r == LearningDocFor(cfg, condaBase) && r.Ok?
    ensures |r.value.stages| == 1
    ensures r.value.stages[0].maxSteps == (if cfg.testMode then 5 else 100)
    ensures var cs := r.value.stages[0].components;
      && |cs| == 5
      && cs[0].name == Some(TARGET_1_NAME + "_affinity")
      && cs[1].name == Some(TARGET_2_NAME + "_penalty")
      && DocksWith(cs[0], Get(cfg.targetRunIds, TARGET_1_NAME), cfg.targetScoreParams[TARGET_1_NAME])
      && DocksWith(cs[1], Get(cfg.targetRunIds, TARGET_2_NAME), cfg.targetScoreParams[TARGET_2_NAME])
      && [cs[2].kind, cs[3].kind, cs[4].kind] == [QED, MolecularWeight, CustomAlerts]
    ensures var cs := r.value.stages[0].components;
      forall t, e :: 2 <= t < |cs| && 0 <= e < |cs[t].endpoints| ==> cs[t].endpoints[e].dockstream.None?
  {
    var cs := r.value.stages[0].components;
    var dsPython := GetCondaPython(condaBase, cfg.condaDockstream);
    var ids := cfg.targetRunIds;
    var ps := cfg.targetScoreParams;
    DockComponentDocks(TARGET_1_NAME + "_affinity", TARGET_1_LABEL, DockerScript(cfg), dsPython,
                       Get(ids, TARGET_1_NAME).value, ps[TARGET_1_NAME]);
    DockComponentDocks(TARGET_2_NAME + "_penalty", TARGET_2_LABEL, DockerScript(cfg), dsPython,
                       Get(ids, TARGET_2_NAME).value, ps[TARGET_2_NAME]);
    StandardComponentsShape();
    assert cs[2..] == StandardComponents();
  }

  /** Every `docking_run_name` of the learning document names a run of the
      docking document built from the same table. */
  lemma CrossReference(cfg: Config, condaBase: Path, d: Result<DockingDoc>, l: Result<LearningDoc>)
    requires d == DockingDocFor(cfg, condaBase) && d.Ok?
    requires l == LearningDocFor(cfg, condaBase) && l.Ok?
    ensures CrossReferenced(l.value, d.value)
  {
    var ids := RunIds(d.value);
    var es := cfg.targetRunIds;
    var named := [Get(es, TARGET_1_NAME).value, Get(es, TARGET_2_NAME).value];
    StagesNameTableRuns(cfg, condaBase, l);
    RunIdInDoc(cfg, condaBase, d, TARGET_1_NAME);
    RunIdInDoc(cfg, condaBase, d, TARGET_2_NAME);
    StagesResolvedMono(l.value.stages, named, ids);
  }

  /** The learning document names only the run ids the table gives the two
      targets. */
  lemma StagesNameTableRuns(cfg: Config, condaBase: Path, l: Result<LearningDoc>)
    requires l == LearningDocFor(cfg, condaBase) && l.Ok?
    ensures var es := cfg.targetRunIds;
      forall i :: 0 <= i < |l.value.stages| ==>
        StageResolved(l.value.stages[i], [Get(es, TARGET_1_NAME).value, Get(es, TARGET_2_NAME).value])
  {
    var es := cfg.targetRunIds;
    var named := [Get(es, TARGET_1_NAME).value, Get(es, TARGET_2_NAME).value];
    ScoringComponents(cfg, condaBase, l);
    var cs := l.value.stages[0].components;
    assert EndpointResolved(cs[0].endpoints[0], named);
    assert EndpointResolved(cs[1].endpoints[0], named);
    ResolvedAfterDocking(cs, named);
  }

  /** Components whose first two have one resolved endpoint each and whose
      others name no docking run are all resolved. */
  lemma ResolvedAfterDocking(cs: seq<Component>, ids: seq<string>)
    requires |cs| >= 2 && |cs[0].endpoints| == 1 && |cs[1].endpoints| == 1
    requires EndpointResolved(cs[0].endpoints[0], ids) && EndpointResolved(cs[1].endpoints[0], ids)
    requires forall t, e :: 2 <= t < |cs| && 0 <= e < |cs[t].endpoints| ==> cs[t].endpoints[e].dockstream.None?
    ensures forall i :: 0 <= i < |cs| ==> ComponentResolved(cs[i], ids)
  {
  }

  lemma StagesResolvedMono(stages: seq<Stage>, small: seq<string>, big: seq<string>)
    requires forall i :: 0 <= i < |stages| ==> StageResolved(stages[i], small)
    requires forall x :: x in small ==> x in big
    ensures forall i :: 0 <= i < |stages| ==> StageResolved(stages[i], big)
  {
  }

  /** The run id the table gives a target is the id of a run of the docking
      document. */
  lemma RunIdInDoc(cfg: Config, condaBase: Path, d: Result<DockingDoc>, key: string)
    requires d == DockingDocFor(cfg, condaBase) && d.Ok?
    requires Get(cfg.targetRunIds, key).Some?
    ensures Get(cfg.targetRunIds, key).value in RunIds(d.value)
  {
    var es := cfg.targetRunIds;
    CollectSpec(EntryRuns(cfg, condaBase, es));
    var v := Get(es, key).value;
    var i :| 0 <= i < |es| && es[i] == (key, v);
    assert EntryRun(cfg, condaBase, es[i]) == Ok(d.value.runs[i]);
    MakeRunSpec(cfg, condaBase, es[i].0, es[i].1);
    assert RunIds(d.value)[i] == v;
  }

  // ---------------------------------------------------------------------------
  // the smoke test

  /** The DockStream run on aspirin that `test_dockstream` issues. */
  function TestCommand(cfg: Config): string {
    CondaRun(cfg.condaDockstream,
      JoinWith(["python", cfg.dockstreamPath + "/docker.py", "-conf", cfg.workDir + "/dockstream_config.json",
                "-output_prefix", "test", "-smiles", "'CC(=O)Oc1ccccc1C(=O)O'", "-print_scores"], ' '))
  }

  /** With the environment name and both directories free of spaces, the
      shell splits the smoke test into `conda run -n <env>` and then
      DockStream's `docker.py` reading the docking document of the working
      directory, docking aspirin and printing the scores. */
  lemma TestCommandWords(cfg: Config)
    requires ' ' !in cfg.condaDockstream && ' ' !in cfg.dockstreamPath && ' ' !in cfg.workDir
    ensures SplitOn(TestCommand(cfg), ' ') ==
      ["conda", "run", "-n", cfg.condaDockstream, "python", cfg.dockstreamPath + "/docker.py",
       "-conf", cfg.workDir + "/dockstream_config.json", "-output_prefix", "test",
       "-smiles", "'CC(=O)Oc1ccccc1C(=O)O'", "-print_scores"]
  {
    var ws := ["python", cfg.dockstreamPath + "/docker.py", "-conf", cfg.workDir + "/dockstream_config.json",
               "-output_prefix", "test", "-smiles", "'CC(=O)Oc1ccccc1C(=O)O'", "-print_scores"];
    CondaRunWords(cfg.condaDockstream, ws);
    var all := ["conda", "run", "-n", cfg.condaDockstream] + ws;
    SplitJoin(all, ' ');
  }

  /** `test_dockstream`'s verdict on the tool's output: success exactly when
      the last line of the stripped stdout parses as a float (`isFloat`
      stands for Python's `float`); the score shown is the stripped stdout,
      and a failure reports the last 300 characters of stderr. */
  function SmokeCheck(p: Proc, isFloat: string -> bool): (r: SmokeResult)
    ensures r.Passed? <==> isFloat(LastPiece(Strip(p.stdout), '\n'))
    ensures r.Passed? ==> r.score == Strip(p.stdout)
    ensures r.Failed? ==> |r.report| == Min(300, |p.stderr|) && r.report == p.stderr[|p.stderr| - |r.report|..]
  {
    var out := Strip(p.stdout);
    if isFloat(LastPiece(out, '\n')) then Passed(out) else Failed(Tail(p.stderr, 300))
  }

  /** The last line of stripped output that ends in a line `x` without
      surrounding whitespace is `x`. */
  lemma LastLineOfStripped(prefix: string, x: string)
    requires x != [] && '\n' !in x && !IsSpace(x[0]) && !IsSpace(x[|x| - 1])
    ensures LastPiece(Strip(prefix + "\n" + x), '\n') == x
  {
    var s := prefix + "\n" + x;
    var left := StripLeft(s);
    assert s[|s| - 1] == x[|x| - 1];
    assert left[|left| - 1] == x[|x| - 1] by {
      assert s[|s| - |x|] == x[0];
    }
    assert StripRight(left) == left;
    assert |left| >= |x| by {
      assert s[|s| - |x|] == x[0];
    }
    assert s[|s| - |x|..] == x;
    assert left[|left| - |x|..] == x;
    if |left| > |x| {
      assert left[|left| - |x| - 1] == s[|s| - |x| - 1];
    }
    LastPieceUnique(left, '\n', x);
  }

  /** A run that ends by printing `-6.3` passes the smoke test. */
  lemma SmokePassesOnScore(prefix: string, stderr: string, code: int, isFloat: string -> bool)
    requires isFloat("-6.3")
    ensures SmokeCheck(Proc(prefix + "\n" + "-6.3", stderr, code), isFloat).Passed?
  {
    LastLineOfStripped(prefix, "-6.3");
  }

  /** A run that ends by printing an error fails the smoke test and reports
      the tail of stderr. */
  lemma SmokeFailsOnError(prefix: string, stderr: string, code: int, isFloat: string -> bool)
    requires !isFloat("error: no pose")
    ensures SmokeCheck(Proc(prefix + "\n" + "error: no pose", stderr, code), isFloat) == Failed(Tail(stderr, 300))
  {
    LastLineOfStripped(prefix, "error: no pose");
  }

  // ---------------------------------------------------------------------------
  // the script

  /** The steps of the script, in the order it runs them; locating DockStream
      happens while the module-level table is built. A run that stops at a
      step has begun every step before it. */
  datatype Step = LocateDockStream | MakeDirectories | ConvertReceptors
                | WriteDockingConfig | WriteLearningConfig | SmokeTest

  /** The `__main__` block for the table `cfg`. `last` is the last step
      begun, `cmds` the shell commands issued, `ready` the smoke test's
      verdict. The block prints instructions for launching REINVENT by hand
      and never launches it; a failed smoke test is only reported. */
  method RunMain(cfg: Config, condaBase: Path, w: World, isFloat: string -> bool)
    returns (last: Step, cmds: seq<string>, outcome: Outcome, ready: bool,
             docking: Option<DockingDoc>, learning: Option<LearningDoc>)
    ensures last != LocateDockStream && last != MakeDirectories
    ensures outcome.Completed? <==> last == SmokeTest
    ensures !outcome.Exited?
    ensures outcome.Raised? && last == ConvertReceptors ==>
      outcome.error.CalledProcessError? || outcome.error.KeyError?
    ensures outcome.Raised? && outcome.error.CalledProcessError? ==> last == ConvertReceptors
    ensures outcome.Raised? && last == WriteDockingConfig ==>
      outcome.error.KeyError? || outcome.error.ValueError?
    ensures outcome.Raised? && last == WriteLearningConfig ==>
      && outcome.error.KeyError?
      && !(ScoreKeys(cfg, TARGET_1_NAME) && ScoreKeys(cfg, TARGET_2_NAME))
    ensures last == WriteDockingConfig ==>
      DockingDocFor(cfg, condaBase).Err? && outcome == Raised(DockingDocFor(cfg, condaBase).error)
    ensures last == WriteLearningConfig || last == SmokeTest ==> DockingDocFor(cfg, condaBase).Ok?
    ensures ready ==> outcome.Completed?
    ensures outcome.Completed? ==>
      && (forall i :: 0 <= i < |TARGET_NAMES| ==> ReceptorKeys(cfg, TARGET_NAMES[i]))
      && cmds == Conversions(cfg, w.fs, TARGET_NAMES) + [TestCommand(cfg)]
      && ready == SmokeCheck(w.run(TestCommand(cfg)), isFloat).Passed?
      && docking.Some? && DockingDocFor(cfg, condaBase) == Ok(docking.value)
      && learning.Some? && LearningDocFor(cfg, condaBase) == Ok(learning.value)
  {
    last := MakeDirectories;
    cmds := [];
    ready := false;
    docking := None;
    learning := None;

    last := ConvertReceptors;
    var receptorCmds, prepared := PrepareReceptors(cfg, w);
    cmds := receptorCmds;
    if prepared.Raised? {
      outcome := prepared;
      return;
    }

    last := WriteDockingConfig;
    var d := CreateDockstreamConfig(cfg, condaBase);
    if d.Err? {
      DockingDocErrors(cfg, condaBase);
      outcome := Raised(d.error);
      return;
    }

    last := WriteLearningConfig;
    var l := CreateReinventConfig(cfg, condaBase);
    if l.Err? {
      outcome := Raised(l.error);
      return;
    }
    docking := Some(d.value);
    learning := Some(l.value);

    last := SmokeTest;
    var test := TestCommand(cfg);
    cmds := cmds + [test];
    ready := SmokeCheck(w.run(test), isFloat).Passed?;
    outcome := Completed;
  }

  /** The whole script for the script directory `baseDir`, the home directory
      `home` and the conda installation `condaBase`: importing it locates
      DockStream and builds the table, then the `__main__` block runs. On the
      script's own table the docking configuration fails with ValueError
      exactly when the script directory is neither the targets directory
      nor one of its ancestors; the learning configuration never fails, and
      once built it has the test-mode step budget and names only runs of the
      docking configuration. */
  method RunScript(baseDir: Path, home: Path, condaBase: Path, w: World, isFloat: string -> bool)
    returns (last: Step, cmds: seq<string>, outcome: Outcome, ready: bool,
             docking: Option<DockingDoc>, learning: Option<LearningDoc>)
    ensures outcome.Completed? <==> last == SmokeTest
    ensures !outcome.Exited?
    ensures last == LocateDockStream <==>
      forall i :: 0 <= i < |Candidates(baseDir, home)| ==> !HasDocker(Candidates(baseDir, home)[i], w)
    ensures last == LocateDockStream ==> outcome == Raised(FileNotFoundError)
    ensures last != MakeDirectories && last != WriteLearningConfig
    ensures Valid(baseDir) && baseDir.absolute && last != LocateDockStream && last != ConvertReceptors ==>
      (last == WriteDockingConfig <==> !(baseDir.parts <= TARGETS_DIR.parts))
    ensures Valid(baseDir) && baseDir.absolute && last == WriteDockingConfig ==> outcome == Raised(ValueError)
    ensures ready ==> outcome.Completed?
    ensures outcome.Completed? ==>
      && docking.Some? && learning.Some?
      && CrossReferenced(learning.value, docking.value)
      && |learning.value.stages| == 1 && learning.value.stages[0].maxSteps == 5
  {
    var found := FindDockstream(Candidates(baseDir, home), w);
    if found.Err? {
      last, cmds, outcome, ready, docking, learning := LocateDockStream, [], Raised(found.error), false, None, None;
      return;
    }
    var cfg := DefaultConfig(baseDir, found.value);
    DefaultScoreKeys(baseDir, found.value);
    last, cmds, outcome, ready, docking, learning := RunMain(cfg, condaBase, w, isFloat);
    if Valid(baseDir) && baseDir.absolute {
      DefaultDockingDoc(baseDir, found.value, condaBase);
    }
    if outcome.Completed? {
      CrossReference(cfg, condaBase, Ok(docking.value), Ok(learning.value));
      ScoringComponents(cfg, condaBase, Ok(learning.value));
    }
  }

  /** The script's own table has score parameters and a run id for both
      targets, in test mode. */
  lemma DefaultScoreKeys(baseDir: Path, dockstreamPath: string)
    ensures var cfg := DefaultConfig(baseDir, dockstreamPath);
      ScoreKeys(cfg, TARGET_1_NAME) && ScoreKeys(cfg, TARGET_2_NAME) && cfg.testMode
  {
    var cfg := DefaultConfig(baseDir, dockstreamPath);
    assert TARGET_NAMES[0] == TARGET_1_NAME && TARGET_NAMES[1] == TARGET_2_NAME;
  }

  /** The receptor files of the script's own table are the absolute paths the
      constants name, whatever the script directory. */
  lemma DefaultReceptorPaths(baseDir: Path, dockstreamPath: string)
    ensures var cfg := DefaultConfig(baseDir, dockstreamPath);
      && Parse(cfg.targetPdbqt[TARGET_1_NAME]) == TARGET_1_PDBQT
      && Parse(cfg.targetPdbqt[TARGET_2_NAME]) == TARGET_2_PDBQT
  {
    assert Valid(TARGETS_DIR) by {
      forall i | 0 <= i < |TARGETS_DIR.parts| ensures ValidPart(TARGETS_DIR.parts[i]) {
        assert TARGETS_DIR.parts[i][0] != '.' && '/' !in TARGETS_DIR.parts[i];
      }
    }
    assert ValidPart("ppar_alpha.pdbqt") && ValidPart("ppar_gamma.pdbqt");
    ParseStr(TARGET_1_PDBQT);
    ParseStr(TARGET_2_PDBQT);
  }

  /** Both boxes of the script's own table have the six box keys. */
  lemma DefaultBoxesComplete()
    ensures forall i :: 0 <= i < |BOX_KEYS| ==> BOX_KEYS[i] in TARGET_1_BOX && BOX_KEYS[i] in TARGET_2_BOX
  {
  }

  /** `a` is a prefix of `t + [x]` and of `t + [y]` for two different last
      components exactly when it is a prefix of `t`. */
  lemma PrefixOfBoth(a: seq<string>, t: seq<string>, x: string, y: string)
    requires x != y
    ensures (a <= t + [x] && a <= t + [y]) <==> a <= t
  {
    if a <= t + [x] && a <= t + [y] {
      assert (t + [x])[|t|] != (t + [y])[|t|];
      PrefixOfSnoc(a, t, x);
      PrefixOfSnoc(a, t, y);
    }
    if a <= t {
      assert (t + [x])[..|a|] == t[..|a|] == (t + [y])[..|a|];
    }
  }

  /** A prefix of `t + [x]` is a prefix of `t` or the whole of `t + [x]`. */
  lemma PrefixOfSnoc(a: seq<string>, t: seq<string>, x: string)
    requires a <= t + [x]
    ensures a <= t || a == t + [x]
  {
    if |a| <= |t| {
      assert a == t[..|a|];
    }
  }

  /** The target `name` has a box with all six keys and a receptor file. */
  predicate BoxAndReceptor(cfg: Config, name: string) {
    && name in cfg.targetBoxes && name in cfg.targetPdbqt
    && forall k :: 0 <= k < |BOX_KEYS| ==> BOX_KEYS[k] in cfg.targetBoxes[name]
  }

  /** When every target of the table has its box and receptor, the docking
      document is built exactly when every receptor lies inside the working
      directory, and otherwise fails with ValueError. */
  lemma DockingDocReceptors(cfg: Config, condaBase: Path)
    requires forall i :: 0 <= i < |cfg.targetRunIds| ==> BoxAndReceptor(cfg, cfg.targetRunIds[i].0)
    ensures DockingDocFor(cfg, condaBase).Ok? <==>
      forall i :: 0 <= i < |cfg.targetRunIds| ==> ReceptorUnderWorkDir(cfg, cfg.targetRunIds[i].0)
    ensures DockingDocFor(cfg, condaBase).Err? ==> DockingDocFor(cfg, condaBase).error == ValueError
  {
    var es := cfg.targetRunIds;
    DockingDocErrors(cfg, condaBase);
    forall i | 0 <= i < |es|
      ensures EntryRun(cfg, condaBase, es[i]).Ok? <==> ReceptorUnderWorkDir(cfg, es[i].0)
    {
      MakeRunSpec(cfg, condaBase, es[i].0, es[i].1);
    }
    var r := DockingDocFor(cfg, condaBase);
    if r.Err? {
      var i :| FirstErr(EntryRuns(cfg, condaBase, es), i) && EntryRun(cfg, condaBase, es[i]) == Err(r.error);
      MakeRunSpec(cfg, condaBase, es[i].0, es[i].1);
    }
  }

  /** On the script's own table the docking document is built exactly when
      the script directory is the receptor directory
      `/mnt/tank/scratch/YOU_USERNAME/targets` or one of its ancestors: the
      receptor paths are absolute, and `relative_to` raises ValueError for
      any other directory. */
  lemma DefaultDockingDoc(baseDir: Path, dockstreamPath: string, condaBase: Path)
    requires Valid(baseDir) && baseDir.absolute
    ensures DockingDocFor(DefaultConfig(baseDir, dockstreamPath), condaBase).Ok? <==> baseDir.parts <= TARGETS_DIR.parts
    ensures !(baseDir.parts <= TARGETS_DIR.parts) ==>
      DockingDocFor(DefaultConfig(baseDir, dockstreamPath), condaBase) == Err(ValueError)
  {
    var cfg := DefaultConfig(baseDir, dockstreamPath);
    var es := cfg.targetRunIds;
    DefaultReceptorPaths(baseDir, dockstreamPath);
    DefaultBoxesComplete();
    ParseStr(baseDir);
    PrefixOfBoth(baseDir.parts, TARGETS_DIR.parts, "ppar_alpha.pdbqt", "ppar_gamma.pdbqt");
    assert BoxAndReceptor(cfg, es[0].0) && BoxAndReceptor(cfg, es[1].0);
    DockingDocReceptors(cfg, condaBase);
    assert ReceptorUnderWorkDir(cfg, es[0].0) <==> baseDir.parts <= TARGETS_DIR.parts + ["ppar_alpha.pdbqt"];
    assert ReceptorUnderWorkDir(cfg, es[1].0) <==> baseDir.parts <= TARGETS_DIR.parts + ["ppar_gamma.pdbqt"];
  }
}

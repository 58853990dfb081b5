/** The first version of the pipeline (untitled.py): a fixed table, two
    literal documents for the PPARα / PPARγ pair, one shell script that
    converts both receptors, a smoke test judged by its return code, and a
    background REINVENT launch gated on that test. */
module Untitled {
  import opened Results
  import opened Text
  import opened Paths
  import opened Shell
  import opened Docking
  import opened Learning

  // ---------------------------------------------------------------------------
  // the parameter table

  /** The `CONFIG` table; `targets` holds the two receptor files under their
      fixed keys. */
  datatype UConfig = UConfig(
    condaReinvent: string,
    condaDockstream: string,
    workDir: string,
    dockstreamPath: string,
    alphaPdb: string,
    gammaPdb: string,
    testMode: bool,
    batchSize: int)

  /** `~/reinvent_docking`, the working directory as the table writes it. */
  const WORK_DIR: Path := Path(false, ["~", "reinvent_docking"])

  const CONFIG := UConfig(
    condaReinvent := "reinvent4",
    condaDockstream := "DockStream",
    workDir := Str(WORK_DIR),
    dockstreamPath := "~/DockStream",
    alphaPdb := "~/reinvent_docking/targets/ppar_alpha.pdb",
    gammaPdb := "~/reinvent_docking/targets/ppar_gamma.pdb",
    testMode := true,
    batchSize := 20)

  // ---------------------------------------------------------------------------
  // conda paths under the user's home

  /** `f"{os.getenv('USER')}"`: the user name, or `None` when it is unset. */
  function UserName(user: Option<string>): string {
    if user.Some? then user.value else "None"
  }

  /** The `bin` directory of the conda environment `env` under the user's
      `anaconda3`: `/home/<user>/anaconda3/envs/<env>/bin`. */
  function CondaBinDir(user: Option<string>, env: string): Path {
    Path(true, ["home", UserName(user), "anaconda3", "envs", env, "bin"])
  }

  /** `binary_location` of both docking runs (the f-string joins the same
      components with `/`). */
  function BinaryLocation(user: Option<string>, env: string): string {
    Str(CondaBinDir(user, env))
  }

  /** `params.docker_python_path` of both DockStream endpoints. */
  function DockerPythonPath(user: Option<string>, env: string): string {
    Str(Child(CondaBinDir(user, env), "python"))
  }

  /** The interpreter the learning document names is `python` inside the
      directory the docking runs name. */
  lemma PythonInBinary(user: Option<string>, env: string)
    ensures DockerPythonPath(user, env) == BinaryLocation(user, env) + "/python"
  {
    JoinWithSnoc(CondaBinDir(user, env).parts, "python", '/');
  }

  /** For a user name and an environment that are single path components,
      the binary location reads back as the absolute path with those
      components. */
  lemma BinaryLocationPath(user: Option<string>, env: string)
    requires ValidPart(UserName(user)) && ValidPart(env)
    ensures Parse(BinaryLocation(user, env)) == CondaBinDir(user, env)
    ensures Parse(BinaryLocation(user, env)).absolute
  {
    var p := CondaBinDir(user, env);
    assert ValidPart("home") && ValidPart("anaconda3") && ValidPart("envs") && ValidPart("bin");
    assert Valid(p);
    ParseStr(p);
  }

  // ---------------------------------------------------------------------------
  // receptor preparation

  /** The receptor script: activate the DockStream environment, then convert
      both receptors, unconditionally. */
  function ReceptorLines(cfg: UConfig): seq<string> {
    [ "conda activate " + cfg.condaDockstream,
      ObabelLine(cfg.alphaPdb, "targets/ppar_alpha.pdbqt"),
      ObabelLine(cfg.gammaPdb, "targets/ppar_gamma.pdbqt") ]
  }

  /** One conversion line of the receptor script. */
  function ObabelLine(pdb: string, pdbqt: string): string {
    "obabel " + pdb + " -O " + pdbqt + " -xr --partialcharge gasteiger"
  }

  function ReceptorScript(cfg: UConfig): string {
    Script(ReceptorLines(cfg))
  }

  /** No entry of the table holds a line break, so each interpolated value
      stays on its own script line. */
  predicate NoBreaks(cfg: UConfig) {
    && '\n' !in cfg.condaReinvent && '\n' !in cfg.condaDockstream && '\n' !in cfg.workDir
    && '\n' !in cfg.dockstreamPath && '\n' !in cfg.alphaPdb && '\n' !in cfg.gammaPdb
  }

  /** Cut at its line breaks, the receptor script is the empty first line,
      the activation of the DockStream environment, the conversions of
      both receptors into `targets/`, whatever is on disk already, and the
      closing indentation. */
  lemma ReceptorScriptLines(cfg: UConfig)
    requires NoBreaks(cfg)
    ensures var ls := SplitOn(ReceptorScript(cfg), '\n');
      && |ls| == 5 && ls[0] == "" && ls[4] == INDENT
      && ls[1] == INDENT + ("conda activate " + cfg.condaDockstream)
      && ls[2] == INDENT + ObabelLine(cfg.alphaPdb, "targets/ppar_alpha.pdbqt")
      && ls[3] == INDENT + ObabelLine(cfg.gammaPdb, "targets/ppar_gamma.pdbqt")
  {
    var lines := ReceptorLines(cfg);
    assert '\n' !in lines[0];
    ObabelLineClean(cfg.alphaPdb, "targets/ppar_alpha.pdbqt");
    ObabelLineClean(cfg.gammaPdb, "targets/ppar_gamma.pdbqt");
    ScriptLines(lines);
  }

  /** No line break in the conversion line; a separate lemma so that the
      script proofs do not unfold its literals. */
  lemma ObabelLineClean(pdb: string, pdbqt: string)
    requires '\n' !in pdb && '\n' !in pdbqt
    ensures '\n' !in ObabelLine(pdb, pdbqt)
  {
    assert '\n' !in " -xr --partialcharge gasteiger";
  }

  /** `subprocess.run(cmd, shell=True, cwd=dir, check=True)`: FileNotFoundError
      when the directory `dir` does not exist, CalledProcessError when the
      command fails, and normal completion otherwise. */
  function RunChecked(w: World, cmd: string, dir: Path): (r: Outcome)
    ensures r.Completed? <==> dir in w.fs && Succeeds(w, cmd)
    ensures dir !in w.fs ==> r == Raised(FileNotFoundError)
    ensures dir in w.fs && !Succeeds(w, cmd) ==> r == Raised(CalledProcessError(cmd))
  {
    if dir !in w.fs then Raised(FileNotFoundError)
    else if Succeeds(w, cmd) then Completed
    else Raised(CalledProcessError(cmd))
  }

  /** The directory a subprocess gets for `cwd=s` while the script runs in
      `cwd`: `s` is taken relative to `cwd` and `~` is not expanded. */
  function SubprocessDir(cwd: Path, s: string): (r: Path)
    ensures |s| > 0 && s[0] == '/' ==> r == Parse(s)
    ensures !(|s| > 0 && s[0] == '/') ==> RelativeTo(r, cwd) == Ok(Parse(s))
  {
    var p := Parse(s);
    if p.absolute then p
    else RelativeToJoin(cwd, p); Join(cwd, p)
  }

  // ---------------------------------------------------------------------------
  // the docking document

  const ALPHA_BOX: seq<(string, Num)> := [
    ("--center_x", 10.94), ("--center_y", 5.43), ("--center_z", -7.50),
    ("--size_x", 18.0), ("--size_y", 24.0), ("--size_z", 23.0)]
  /** As written: the anti-target's box centre is still the placeholder origin. */
  const GAMMA_BOX: seq<(string, Num)> := [
    ("--center_x", 0.0), ("--center_y", 0.0), ("--center_z", 0.0),
    ("--size_x", 20.0), ("--size_y", 20.0), ("--size_z", 20.0)]

  /** One literal docking run; `stem` is the suffix of its output file names
      (`poses/docked_<stem>.sdf`, `results/scores_<stem>.csv`). */
  function LiteralRun(user: Option<string>, cfg: UConfig, runId: string, receptor: string,
                      box: seq<(string, Num)>, stem: string): DockingRun
  {
    DockingRun(
      backend := "AutoDockVina",
      runId := runId,
      inputPools := [RDKIT],
      binaryLocation := BinaryLocation(user, cfg.condaDockstream),
      numberCores := 4,
      receptorPdbqtPath := [receptor],
      numberPoses := 1,
      searchSpace := box,
      posesPath := "poses/docked_" + stem + ".sdf",
      scoresPath := "results/scores_" + stem + ".csv",
      overwrite := true)
  }

  const ALPHA_RUN_ID := "PPARa"
  const GAMMA_RUN_ID := "PPARg"

  /** The document `create_dockstream_config` writes. */
  function UntitledDockingDoc(user: Option<string>, cfg: UConfig): DockingDoc {
    DockingDoc("results/dockstream.log", [RdkitPool(None, "poses/conformers.sdf")], [
      LiteralRun(user, cfg, ALPHA_RUN_ID, "targets/ppar_alpha.pdbqt", ALPHA_BOX, "ppara"),
      LiteralRun(user, cfg, GAMMA_RUN_ID, "targets/ppar_gamma.pdbqt", GAMMA_BOX, "pparg")])
  }

  /** The document has two runs, `PPARa` then `PPARg`, with distinct ids,
      both reading from the one declared pool. */
  lemma UntitledDockingRuns(user: Option<string>, cfg: UConfig)
    ensures var d := UntitledDockingDoc(user, cfg);
      && RunIds(d) == [ALPHA_RUN_ID, GAMMA_RUN_ID]
      && UniqueRunIds(d)
      && PoolIds(d) == [RDKIT]
      && PoolsResolved(d)
  {
    var d := UntitledDockingDoc(user, cfg);
    assert RunIds(d) == [ALPHA_RUN_ID, GAMMA_RUN_ID];
    assert ALPHA_RUN_ID[4] != GAMMA_RUN_ID[4];
    assert PoolIds(d) == [RDKIT];
  }

  /** Both runs use the conda binary location, dock one pose against one
      receptor given relative to the working directory, and name their
      outputs after the lower-cased run id, as the parametrised builder
      does; each box lists the six keys in order, prefixed with `--`. */
  lemma UntitledDockingParameters(user: Option<string>, cfg: UConfig)
    ensures var d := UntitledDockingDoc(user, cfg);
      forall i :: 0 <= i < |d.runs| ==>
        && d.runs[i].binaryLocation == BinaryLocation(user, cfg.condaDockstream)
        && d.runs[i].numberPoses == 1
        && |d.runs[i].receptorPdbqtPath| == 1
        && !Parse(d.runs[i].receptorPdbqtPath[0]).absolute
        && d.runs[i].posesPath == "poses/docked_" + Lower(d.runs[i].runId) + ".sdf"
        && d.runs[i].scoresPath == "results/scores_" + Lower(d.runs[i].runId) + ".csv"
        && |d.runs[i].searchSpace| == |BOX_KEYS|
        && forall k :: 0 <= k < |BOX_KEYS| ==> d.runs[i].searchSpace[k].0 == "--" + BOX_KEYS[k]
  {
    LowerRunIds();
    BoxKeys();
  }

  lemma LowerRunIds()
    ensures Lower(ALPHA_RUN_ID) == "ppara" && Lower(GAMMA_RUN_ID) == "pparg"
  {
    assert Lower(ALPHA_RUN_ID) == [LowerChar('P'), LowerChar('P'), LowerChar('A'), LowerChar('R'), LowerChar('a')];
    assert Lower(GAMMA_RUN_ID) == [LowerChar('P'), LowerChar('P'), LowerChar('A'), LowerChar('R'), LowerChar('g')];
  }

  lemma BoxKeys()
    ensures |ALPHA_BOX| == |BOX_KEYS| && |GAMMA_BOX| == |BOX_KEYS|
    ensures forall k :: 0 <= k < |BOX_KEYS| ==> ALPHA_BOX[k].0 == "--" + BOX_KEYS[k] && GAMMA_BOX[k].0 == "--" + BOX_KEYS[k]
  {
  }

  // ---------------------------------------------------------------------------
  // the learning document

  /** One DockStream component of the learning document. */
  function LiteralDockComponent(user: Option<string>, cfg: UConfig, name: string, endpoint: string,
                                runName: string, transform: Transform): Component
  {
    Component(DockStream, Some(name), Some(1.0), [
      Endpoint(Some(endpoint), Some(1.0),
               Some(DockStreamParams("dockstream_config.json", cfg.dockstreamPath + "/docker.py",
                                     DockerPythonPath(user, cfg.condaDockstream), Some(runName))),
               [], Some(transform))])
  }

  /** The document `create_reinvent_config` writes: sigma 30, one stage with
      the step budget of `test_mode`, and four components (the two docking
      scores, QED and molecular weight). */
  function UntitledLearningDoc(user: Option<string>, cfg: UConfig): LearningDoc {
    var components := [
      LiteralDockComponent(user, cfg, "PPARa_affinity", "PPARa Vina", ALPHA_RUN_ID,
                           Curve("reverse_sigmoid", -10.0, -5.0, 0.5)),
      LiteralDockComponent(user, cfg, "PPARg_penalty", "PPARg Vina", GAMMA_RUN_ID,
                           Curve("sigmoid", -5.0, -10.0, 0.5)),
      Component(QED, Some("QED"), Some(0.5), []),
      Component(MolecularWeight, Some("MW"), Some(0.3), [
        Endpoint(None, None, None, [], Some(DoubleSigmoid(500.0, 200.0, 500.0, 20.0, 20.0)))])];
    LearningDoc(None, Parameters(cfg.batchSize, None, None, None, Some(30.0)), None, None,
      [Stage(1.0, MaxSteps(cfg.testMode), "results/stage1.chkpt", None, "geometric_mean", components)])
  }

  /** The learning document has one stage with 5 steps in test mode and 100
      otherwise, and four components in the order affinity, penalty, QED,
      molecular weight; the two docking components name the runs `PPARa`
      and `PPARg` and the interpreter inside the runs' binary location. */
  lemma UntitledLearningShape(user: Option<string>, cfg: UConfig)
    ensures var l := UntitledLearningDoc(user, cfg);
      && |l.stages| == 1
      && l.stages[0].maxSteps == (if cfg.testMode then 5 else 100)
      && |l.stages[0].components| == 4
    ensures var cs := UntitledLearningDoc(user, cfg).stages[0].components;
      && [cs[0].kind, cs[1].kind, cs[2].kind, cs[3].kind] == [DockStream, DockStream, QED, MolecularWeight]
      && forall t :: 0 <= t < 2 ==>
           && |cs[t].endpoints| == 1
           && cs[t].endpoints[0].dockstream.Some?
           && cs[t].endpoints[0].dockstream.value.dockingRunName == Some([ALPHA_RUN_ID, GAMMA_RUN_ID][t])
           && cs[t].endpoints[0].dockstream.value.dockerPythonPath
              == BinaryLocation(user, cfg.condaDockstream) + "/python"
  {
    PythonInBinary(user, cfg.condaDockstream);
  }

  /** Every `docking_run_name` of the learning document is the id of a run of
      the docking document. */
  lemma UntitledCrossReferenced(user: Option<string>, cfg: UConfig)
    ensures CrossReferenced(UntitledLearningDoc(user, cfg), UntitledDockingDoc(user, cfg))
  {
    var l := UntitledLearningDoc(user, cfg);
    var ids := RunIds(UntitledDockingDoc(user, cfg));
    assert ids == [ALPHA_RUN_ID, GAMMA_RUN_ID];
    var cs := l.stages[0].components;
    assert ComponentResolved(cs[0], ids) && ComponentResolved(cs[1], ids);
    assert ComponentResolved(cs[2], ids) && ComponentResolved(cs[3], ids);
    assert StageResolved(l.stages[0], ids);
  }

  // ---------------------------------------------------------------------------
  // the smoke test and the launch

  function TestLines(cfg: UConfig): seq<string> {
    [ "conda activate " + cfg.condaDockstream,
      "cd " + cfg.workDir,
      "python " + cfg.dockstreamPath + "/docker.py \\",
      "  -conf dockstream_config.json \\",
      "  -output_prefix test \\",
      "  -smiles \"CC(=O)Oc1ccccc1C(=O)O\" \\",
      "  -print_scores" ]
  }

  function TestScript(cfg: UConfig): string {
    Script(TestLines(cfg))
  }

  function LaunchLines(cfg: UConfig): seq<string> {
    [ "conda activate " + cfg.condaReinvent,
      "cd " + cfg.workDir,
      "nohup reinvent -l results/rl_run.log" + " rl_ppar_docking.toml" + " > results/reinvent.out 2>&1 &",
      "echo $! > results/reinvent.pid" ]
  }

  function LaunchScript(cfg: UConfig): string {
    Script(LaunchLines(cfg))
  }

  /** No line break in any smoke-test script line. The literal facts sit in
      small lemmas of their own, one literal each, to keep the solver cost low. */
  lemma TestLinesClean(cfg: UConfig)
    requires NoBreaks(cfg)
    ensures forall i | 0 <= i < |TestLines(cfg)| :: '\n' !in TestLines(cfg)[i]
  {
    var l := TestLines(cfg);
    assert '\n' !in l[0] && '\n' !in l[1];
    assert '\n' !in l[2];
    ConfLineClean();
    SmilesLineClean();
    assert '\n' !in l[4];
    assert '\n' !in l[6];
  }

  // one literal per lemma, to keep the solver cost low
  lemma ConfLineClean()
    ensures '\n' !in "  -conf dockstream_config.json \\"
  {
  }

  // one literal per lemma, to keep the solver cost low
  lemma SmilesLineClean()
    ensures '\n' !in "  -smiles \"CC(=O)Oc1ccccc1C(=O)O\" \\"
  {
  }

  /** Cut at its line breaks, the test script activates the DockStream
      environment, changes into the working directory and runs `docker.py`
      as one shell command continued over five lines, the first four ending
      in a backslash. */
  lemma TestScriptLines(cfg: UConfig)
    requires NoBreaks(cfg)
    ensures var ls := SplitOn(TestScript(cfg), '\n');
      && |ls| == 9 && ls[0] == "" && ls[8] == INDENT
      && ls[1] == INDENT + ("conda activate " + cfg.condaDockstream)
      && ls[2] == INDENT + ("cd " + cfg.workDir)
      && ls[3] == INDENT + ("python " + cfg.dockstreamPath + "/docker.py \\")
      && (forall i | 3 <= i < 7 :: |ls[i]| > 0 && ls[i][|ls[i]| - 1] == '\\')
      && ls[7] == INDENT + "  -print_scores"
  {
    var lines := TestLines(cfg);
    TestLinesClean(cfg);
    ScriptLines(lines);
    var ls := SplitOn(TestScript(cfg), '\n');
    forall i | 3 <= i < 7 ensures |ls[i]| > 0 && ls[i][|ls[i]| - 1] == '\\' {
      var l := lines[i - 1];
      assert ls[i] == INDENT + l;
      assert l[|l| - 1] == '\\';
    }
  }

  /** Cut at its line breaks, the launch script activates the REINVENT
      environment, changes into the working directory, starts REINVENT in
      the background (the line ends in `&`) and records its process id. */
  lemma LaunchScriptLines(cfg: UConfig)
    requires NoBreaks(cfg)
    ensures var ls := SplitOn(LaunchScript(cfg), '\n');
      && |ls| == 6 && ls[0] == "" && ls[5] == INDENT
      && ls[1] == INDENT + ("conda activate " + cfg.condaReinvent)
      && ls[2] == INDENT + ("cd " + cfg.workDir)
      && |ls[3]| > 0 && ls[3][|ls[3]| - 1] == '&'
      && ls[4] == INDENT + "echo $! > results/reinvent.pid"
  {
    var lines := LaunchLines(cfg);
    LaunchLinesClean(cfg);
    ScriptLines(lines);
    var ls := SplitOn(LaunchScript(cfg), '\n');
    assert ls[3] == INDENT + lines[2];
  }

  /** No line break in any launch script line, from the one-literal lemmas below. */
  lemma LaunchLinesClean(cfg: UConfig)
    requires NoBreaks(cfg)
    ensures forall i | 0 <= i < |LaunchLines(cfg)| :: '\n' !in LaunchLines(cfg)[i]
  {
    var l := LaunchLines(cfg);
    assert '\n' !in l[0] && '\n' !in l[1];
    NohupLineClean();
    assert '\n' !in l[3];
  }

  // the `nohup` line is split into two literals, each checked on its own, to keep the solver cost low
  lemma NohupLineClean()
    ensures '\n' !in "nohup reinvent -l results/rl_run.log" + " rl_ppar_docking.toml" + " > results/reinvent.out 2>&1 &"
  {
    NohupHeadClean();
    RedirectClean();
  }

  // one literal per lemma, to keep the solver cost low
  lemma NohupHeadClean()
    ensures '\n' !in "nohup reinvent -l results/rl_run.log"
  {
  }

  // one literal per lemma, to keep the solver cost low
  lemma RedirectClean()
    ensures '\n' !in " > results/reinvent.out 2>&1 &"
  {
  }

  /** `test_dockstream`: the verdict is the return code alone. */
  function SmokePassed(p: Proc): bool {
    p.returncode == 0
  }

  /** The verdict does not look at what the tool prints. */
  lemma SmokeIgnoresOutput(p: Proc, q: Proc)
    requires p.returncode == q.returncode
    ensures SmokePassed(p) == SmokePassed(q)
    ensures SmokePassed(Proc("", "error", 1)) == false && SmokePassed(Proc("", "", 0))
  {
  }

  // ---------------------------------------------------------------------------
  // the script

  datatype Step = MakeDirectories | ConvertReceptors | WriteDockingConfig
                | WriteLearningConfig | SmokeTest | Launch

  /** How the `__main__` block ends: the last step begun, the shell scripts
      issued in order, the outcome and whether REINVENT was launched. */
  datatype MainRun = MainRun(last: Step, cmds: seq<string>, outcome: Outcome, launched: bool)

  /** `setup_directories`: the working directory and its three
      subdirectories exist afterwards. */
  function SetupDirectories(w: World, work: Path): (r: World)
    ensures r.run == w.run && w.fs <= r.fs
    ensures work in r.fs && Child(work, "results") in r.fs && Child(work, "poses") in r.fs
      && Child(work, "targets") in r.fs
  {
    World(w.fs + {work, Child(work, "results"), Child(work, "poses"), Child(work, "targets")}, w.run)
  }

  /** `mkdir(parents=True, exist_ok=True)` never fails on what exists:
      setting up twice is setting up once, and a working directory whose
      three subdirectories exist already is left as it is. */
  lemma SetupDirectoriesIdempotent(w: World, work: Path)
    ensures SetupDirectories(SetupDirectories(w, work), work) == SetupDirectories(w, work)
    ensures (&& work in w.fs && Child(work, "results") in w.fs && Child(work, "poses") in w.fs
             && Child(work, "targets") in w.fs) ==> SetupDirectories(w, work) == w
  {
  }

  /** The three shell scripts the block issues, in order. */
  datatype Scripts = Scripts(receptors: string, test: string, launch: string)

  function ScriptsOf(cfg: UConfig): Scripts {
    Scripts(ReceptorScript(cfg), TestScript(cfg), LaunchScript(cfg))
  }

  /** `open(f"{dir}/<name>", "w")`: FileNotFoundError when the directory
      `dir` does not exist. */
  function OpenForWrite(w: World, dir: Path): (r: Outcome)
    ensures r.Completed? <==> dir in w.fs
    ensures r.Raised? ==> r.error == FileNotFoundError
  {
    if dir in w.fs then Completed else Raised(FileNotFoundError)
  }

  /** The `__main__` block once the directories exist. The receptor script
      runs in `prepareDir`; the two documents are then opened for writing in
      `writeDir` (their text is not modelled); then the smoke test runs, and
      REINVENT is launched only when it passed; a failed test ends the
      script normally. */
  function MainFrom(sc: Scripts, prepareDir: Path, writeDir: Path, w: World): MainRun {
    var prepared := RunChecked(w, sc.receptors, prepareDir);
    var written := OpenForWrite(w, writeDir);
    if prepared.Raised? then
      MainRun(ConvertReceptors, if prepareDir in w.fs then [sc.receptors] else [], prepared, false)
    else if written.Raised? then
      MainRun(WriteDockingConfig, [sc.receptors], written, false)
    else if !SmokePassed(w.run(sc.test)) then
      MainRun(SmokeTest, [sc.receptors, sc.test], Completed, false)
    else
      MainRun(Launch, [sc.receptors, sc.test, sc.launch],
              if Succeeds(w, sc.launch) then Completed else Raised(CalledProcessError(sc.launch)), true)
  }

  /** Once the receptor directory and the document directory exist, the
      receptor script always runs, with no check of which receptors are
      converted already, and both documents are written; REINVENT is
      launched exactly when both the receptor script and the smoke test
      succeed, and then the three scripts were issued in order; a failed
      smoke test ends the block normally, without a launch; the only
      exception is a failing checked script. */
  lemma MainFromGating(sc: Scripts, dir: Path, writeDir: Path, w: World)
    requires dir in w.fs && writeDir in w.fs
    ensures var r := MainFrom(sc, dir, writeDir, w);
      && |r.cmds| >= 1 && r.cmds[0] == sc.receptors
      && r.last != WriteDockingConfig && r.last != WriteLearningConfig
      && (r.launched <==> Succeeds(w, sc.receptors) && SmokePassed(w.run(sc.test)))
      && (r.launched ==> r.cmds == [sc.receptors, sc.test, sc.launch] && r.last == Launch)
      && (r.outcome.Raised? <==>
            !Succeeds(w, sc.receptors) || (r.launched && !Succeeds(w, sc.launch)))
      && (r.outcome.Raised? ==> r.outcome.error == CalledProcessError(r.cmds[|r.cmds| - 1]))
      && !r.outcome.Exited?
      && (r.last == SmokeTest <==> Succeeds(w, sc.receptors) && !SmokePassed(w.run(sc.test)))
      && (r.last == SmokeTest ==> r.outcome.Completed? && !r.launched)
  {
  }

  /** The block as written, for the scripts `sc` (those of `ScriptsOf(CONFIG)`),
      the table's `work_dir` string and the home directory `home`: it changes
      into the expanded working directory, then hands the unexpanded
      `work_dir` string to the receptor subprocess as its `cwd`. */
  function MainAsWritten(sc: Scripts, workDir: string, home: Path, w: World): MainRun {
    var work := ExpandUser(Parse(workDir), home);
    MainFrom(sc, SubprocessDir(work, workDir), SubprocessDir(work, workDir), SetupDirectories(w, work))
  }

  /** The block with only the receptor `cwd` corrected: the two `open`
      calls still resolve the unexpanded `work_dir` string against the
      directory the script changed into. */
  function MainCwdFixed(sc: Scripts, workDir: string, home: Path, w: World): MainRun {
    var work := ExpandUser(Parse(workDir), home);
    MainFrom(sc, work, SubprocessDir(work, workDir), SetupDirectories(w, work))
  }

  /** The block as evidently intended: the receptor subprocess runs, and
      both documents are written, in the expanded working directory the
      script changed into. */
  function Main(sc: Scripts, workDir: string, home: Path, w: World): MainRun {
    var work := ExpandUser(Parse(workDir), home);
    MainFrom(sc, work, work, SetupDirectories(w, work))
  }

  /** As written, the table's `~/reinvent_docking` sends the receptor
      subprocess to `<home>/reinvent_docking/~/reinvent_docking`; unless a
      directory named `~` exists there, it raises FileNotFoundError before
      converting anything, so nothing is tested or launched. */
  lemma AsWrittenPrepareFails(sc: Scripts, home: Path, w: World)
    requires Path(home.absolute, home.parts + ["reinvent_docking", "~", "reinvent_docking"]) !in w.fs
    ensures MainAsWritten(sc, CONFIG.workDir, home, w) == MainRun(ConvertReceptors, [], Raised(FileNotFoundError), false)
  {
    TildeDirMissing(home, w);
  }

  /** Correcting the receptor `cwd` alone is not enough: once the receptor
      script succeeds, opening `dockstream_config.json` under the same
      unexpanded directory raises FileNotFoundError, so nothing is tested
      or launched. */
  lemma CwdFixAloneFails(sc: Scripts, home: Path, w: World)
    requires Path(home.absolute, home.parts + ["reinvent_docking", "~", "reinvent_docking"]) !in w.fs
    requires Succeeds(w, sc.receptors)
    ensures MainCwdFixed(sc, CONFIG.workDir, home, w) == MainRun(WriteDockingConfig, [sc.receptors], Raised(FileNotFoundError), false)
  {
    TildeDirMissing(home, w);
  }

  /** The expanded working directory exists after `setup_directories`, and
      the unexpanded `work_dir` resolved against it does not. */
  lemma TildeDirMissing(home: Path, w: World)
    requires Path(home.absolute, home.parts + ["reinvent_docking", "~", "reinvent_docking"]) !in w.fs
    ensures var work := ExpandUser(Parse(CONFIG.workDir), home);
      && work in SetupDirectories(w, work).fs
      && SubprocessDir(work, CONFIG.workDir) !in SetupDirectories(w, work).fs
  {
    var work := Path(home.absolute, home.parts + WORK_DIR.parts[1..]);
    ParseWorkDir();
    assert ExpandUser(Parse(CONFIG.workDir), home) == work;
    var dir := SubprocessDir(work, CONFIG.workDir);
    assert dir == Path(home.absolute, home.parts + ["reinvent_docking", "~", "reinvent_docking"]);
    var w1 := SetupDirectories(w, work);
    assert dir != work && dir != Child(work, "results") && dir != Child(work, "poses") && dir != Child(work, "targets") by {
      assert |dir.parts| == |work.parts| + 2;
    }
    assert dir !in w1.fs;
  }

  lemma ParseWorkDir()
    ensures Parse(CONFIG.workDir) == WORK_DIR
  {
    assert ValidPart("~") && ValidPart("reinvent_docking");
    ParseStr(WORK_DIR);
  }

  /** As intended, the receptor subprocess always starts and both documents
      are written, because `setup_directories` created the working
      directory, and what follows is
      gated as `MainFromGating` states; in particular REINVENT is launched
      exactly when the receptor script and the smoke test succeed. */
  lemma MainGating(sc: Scripts, workDir: string, home: Path, w: World)
    ensures var r := Main(sc, workDir, home, w);
      && |r.cmds| >= 1 && r.cmds[0] == sc.receptors
      && r.last != WriteDockingConfig && r.last != WriteLearningConfig
      && (r.launched <==> Succeeds(w, sc.receptors) && SmokePassed(w.run(sc.test)))
      && (r.launched ==> r.cmds == [sc.receptors, sc.test, sc.launch])
      && !r.outcome.Exited?
  {
    var work := ExpandUser(Parse(workDir), home);
    var w1 := SetupDirectories(w, work);
    assert work in w1.fs;
    MainFromGating(sc, work, work, w1);
  }
}

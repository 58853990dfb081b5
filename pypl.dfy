/** The single-target pipeline (pypl.py): a top-level script of numbered
    steps. It installs DockStream and its environment when missing,
    downloads, cleans and converts the PPARα receptor step by step, each
    step only when its output is absent, writes a one-run docking
    document, accepts the smoke test when some output line looks like a
    score, and launches REINVENT only when the prior model exists. */
module Pypl {
  import opened Results
  import opened Text
  import opened Paths
  import opened Shell
  import opened Docking

  // ---------------------------------------------------------------------------
  // the run helper

  /** Python truthiness of the `env` argument: `None` and `""` are false. */
  predicate Truthy(env: Option<string>) {
    env.Some? && env.value != ""
  }

  /** The command `run(cmd, env)` hands to the shell. */
  function Run(cmd: string, env: Option<string>): (r: string)
    ensures Truthy(env) ==> r == CondaRun(env.value, cmd)
    ensures !Truthy(env) ==> r == cmd
  {
    var prefix := if Truthy(env) then "conda run -n " + env.value + " " else "";
    prefix + cmd
  }

  /** The command is always the tail of what is run, after a prefix that is
      empty exactly when `env` is falsy. */
  lemma RunEndsWithCommand(cmd: string, env: Option<string>)
    ensures |Run(cmd, env)| >= |cmd| && Run(cmd, env)[|Run(cmd, env)| - |cmd|..] == cmd
    ensures Run(cmd, env) == cmd <==> !Truthy(env)
  {
    var r := Run(cmd, env);
    if Truthy(env) {
      var prefix := "conda run -n " + env.value + " ";
      assert r == prefix + cmd;
      assert r[|prefix|..] == cmd;
      assert |r| > |cmd|;
    }
  }

  // ---------------------------------------------------------------------------
  // paths

  const DS_ENV := "DockStream"
  const R4_ENV := "reinvent4"

  function Work(home: Path): Path { Child(home, "reinvent_docking") }
  function DsDir(home: Path): Path { Child(home, "DockStream") }
  function Targets(home: Path): Path { Child(Work(home), "targets") }
  function ResultsDir(home: Path): Path { Child(Work(home), "results") }
  function Poses(home: Path): Path { Child(Work(home), "poses") }
  function RecRaw(home: Path): Path { Child(Targets(home), "ppar_alpha.pdb") }
  function RecPdb(home: Path): Path { Child(Targets(home), "ppar_receptor.pdb") }
  function RecPdbqt(home: Path): Path { Child(Targets(home), "ppar_receptor.pdbqt") }
  function DsCfg(home: Path): Path { Child(Work(home), "dockstream_config.json") }
  function RlToml(home: Path): Path { Child(Work(home), "rl_ppar_docking.toml") }
  function DockerPy(home: Path): Path { Child(DsDir(home), "docker.py") }
  function Prior(home: Path): Path { Child(Work(home), "reinvent.prior") }

  /** The three receptor files are distinct, so each existence check of
      step 3 looks at its own file. Each command of the step writes only
      the file its own check looks at, so no later check sees a file an
      earlier command wrote, and reading all three checks from the file
      system as the script found it is exact. */
  lemma ReceptorFilesDistinct(home: Path)
    ensures RecRaw(home) != RecPdb(home) && RecPdb(home) != RecPdbqt(home) && RecRaw(home) != RecPdbqt(home)
  {
    assert RecRaw(home).parts[|RecRaw(home).parts| - 1] == "ppar_alpha.pdb";
    assert RecPdb(home).parts[|RecPdb(home).parts| - 1] == "ppar_receptor.pdb";
    assert RecPdbqt(home).parts[|RecPdbqt(home).parts| - 1] == "ppar_receptor.pdbqt";
    assert "ppar_alpha.pdb"[5] != "ppar_receptor.pdb"[5];
    assert |"ppar_receptor.pdb"| != |"ppar_receptor.pdbqt"|;
    assert |"ppar_alpha.pdb"| != |"ppar_receptor.pdbqt"|;
  }

  // ---------------------------------------------------------------------------
  // the shell commands

  /** The external commands the script can issue, in the order it issues
      them. */
  datatype Action = Clone | EnvList | CreateEnv | InstallVina | InstallPdbTools
                  | Download | Clean | Convert | SmokeRun | Launch

  function Rank(a: Action): nat {
    match a
    case Clone => 0
    case EnvList => 1
    case CreateEnv => 2
    case InstallVina => 3
    case InstallPdbTools => 4
    case Download => 5
    case Clean => 6
    case Convert => 7
    case SmokeRun => 8
    case Launch => 9
  }

  /** The actions are issued in the script's order: each ranks below the
      next. */
  predicate Ordered(acts: seq<Action>) {
    |acts| <= 1 || (Rank(acts[0]) < Rank(acts[1]) && Ordered(acts[1..]))
  }

  /** An ordered list ranks every action below every later one, so no
      action occurs twice. */
  lemma {:induction false} OrderedPairs(acts: seq<Action>)
    requires Ordered(acts)
    ensures forall i, j :: 0 <= i < j < |acts| ==> Rank(acts[i]) < Rank(acts[j])
  {
    if |acts| > 1 {
      OrderedPairs(acts[1..]);
      forall i, j | 0 <= i < j < |acts| ensures Rank(acts[i]) < Rank(acts[j]) {
        assert acts[j] == acts[1..][j - 1];
        if i > 0 {
          assert acts[i] == acts[1..][i - 1];
        } else if j > 1 {
          assert acts[1] == acts[1..][0];
        }
      }
    }
  }

  lemma {:induction false} OrderedAppend(a: seq<Action>, b: seq<Action>)
    requires Ordered(a) && Ordered(b)
    requires a == [] || b == [] || Rank(a[|a| - 1]) < Rank(b[0])
    ensures Ordered(a + b)
  {
    if a == [] {
      assert a + b == b;
    } else if |a| == 1 {
      if b != [] {
        assert (a + b)[1..] == b;
      }
    } else {
      OrderedAppend(a[1..], b);
      assert (a + b)[1..] == a[1..] + b;
    }
  }

  /** Every action in `acts` ranks within `[lo, hi)`. */
  predicate RanksIn(acts: seq<Action>, lo: nat, hi: nat) {
    forall i :: 0 <= i < |acts| ==> lo <= Rank(acts[i]) < hi
  }

  /** Two ordered lists, the first ranking below the second, join into an
      ordered list. */
  lemma OrderedJoin(a: seq<Action>, b: seq<Action>, lo: nat, mid: nat, hi: nat)
    requires lo <= mid <= hi
    requires Ordered(a) && Ordered(b) && RanksIn(a, lo, mid) && RanksIn(b, mid, hi)
    ensures Ordered(a + b) && RanksIn(a + b, lo, hi)
  {
    if a != [] && b != [] {
      assert Rank(a[|a| - 1]) < mid <= Rank(b[0]);
    }
    OrderedAppend(a, b);
    forall i | 0 <= i < |a + b| ensures lo <= Rank((a + b)[i]) < hi {
      if i < |a| {
        assert (a + b)[i] == a[i];
      } else {
        assert (a + b)[i] == b[i - |a|];
      }
    }
  }

  /** The shell text of every command. */
  datatype Commands = Commands(
    clone: string, envList: string, createEnv: string, installVina: string, installPdbTools: string,
    download: string, clean: string, convert: string, smoke: string, launch: string)

  /** The commands as the script spells them for the home directory `home`. */
  function CommandsOf(home: Path): Commands {
    Commands(
      clone := CloneCommand(home),
      envList := "conda env list",
      createEnv := Run("conda env create -f " + Str(DsDir(home)) + "/environment.yml", None),
      installVina := Run("conda install -c conda-forge autodock-vina meeko -y", Some(DS_ENV)),
      installPdbTools := Run("pip install pdb-tools", Some(DS_ENV)),
      download := DownloadCommand(home),
      clean := CleanCommand(home),
      convert := ConvertCommand(home),
      smoke := SmokeCommand(home),
      launch := LaunchCommand(home))
  }

  function CloneCommand(home: Path): string {
    Run("git clone https://github.com/MolecularAI/DockStream " + Str(DsDir(home)), None)
  }

  function DownloadCommand(home: Path): string {
    Run("wget -q https://files.rcsb.org/download/7E5G.pdb -O " + Str(RecRaw(home)), None)
  }

  function CleanCommand(home: Path): string {
    Run("bash -c \"pdb_selchain -A " + Str(RecRaw(home)) + " | pdb_delhetatm | pdb_tidy > "
        + Str(RecPdb(home)) + "\"", Some(DS_ENV))
  }

  function ConvertCommand(home: Path): string {
    Run("obabel " + Str(RecPdb(home)) + " -O " + Str(RecPdbqt(home)) + " -xr --partialcharge gasteiger", Some(DS_ENV))
  }

  function SmokeCommand(home: Path): string {
    CondaRun(DS_ENV, "python " + Str(DockerPy(home)) + " -conf " + Str(DsCfg(home))
                     + " -output_prefix test -smiles 'CC(=O)Oc1ccccc1C(=O)O' -print_scores")
  }

  function LaunchCommand(home: Path): string {
    Run("reinvent -l results/rl_run.log " + Str(RlToml(home)), Some(R4_ENV))
  }

  /** Each command names the files it works on, and these are the files
      the script checks: the clone writes the DockStream directory; the
      download writes the raw structure; the clean reads it and writes the
      cleaned one; the conversion reads that and writes the converted one;
      the smoke test reads the docking document of step 4 and the launch
      reads the learning document of step 5. */
  lemma CommandsNameGatedFiles(home: Path)
    ensures var c := CommandsOf(home); var f := FilesOf(home);
      && Contains(c.clone, Str(f.dsDir))
      && Contains(c.download, Str(f.recRaw))
      && Contains(c.clean, Str(f.recRaw)) && Contains(c.clean, Str(f.recPdb))
      && Contains(c.convert, Str(f.recPdb)) && Contains(c.convert, Str(f.recPdbqt))
      && Contains(c.smoke, Str(DsCfg(home)))
      && Contains(c.launch, Str(RlToml(home)))
  {
    FetchNameFiles(home);
    CleanNameFiles(home);
    ConvertNameFiles(home);
    SmokeLaunchNameFiles(home);
  }

  lemma FetchNameFiles(home: Path)
    ensures Contains(CloneCommand(home), Str(DsDir(home))) && Contains(DownloadCommand(home), Str(RecRaw(home)))
  {
    var clone := "git clone https://github.com/MolecularAI/DockStream ";
    assert CloneCommand(home) == clone + Str(DsDir(home)) + "";
    ContainsMiddle(clone, Str(DsDir(home)), "");
    var wget := "wget -q https://files.rcsb.org/download/7E5G.pdb -O ";
    assert DownloadCommand(home) == wget + Str(RecRaw(home)) + "";
    ContainsMiddle(wget, Str(RecRaw(home)), "");
  }

  lemma CleanNameFiles(home: Path)
    ensures Contains(CleanCommand(home), Str(RecRaw(home))) && Contains(CleanCommand(home), Str(RecPdb(home)))
  {
    var raw, pdb := Str(RecRaw(home)), Str(RecPdb(home));
    var ds := "conda run -n " + DS_ENV + " ";
    var sel := "bash -c \"pdb_selchain -A ";
    var tidy := " | pdb_delhetatm | pdb_tidy > ";
    assert CleanCommand(home) == ds + sel + raw + (tidy + pdb + "\"");
    ContainsMiddle(ds + sel, raw, tidy + pdb + "\"");
    assert CleanCommand(home) == ds + sel + raw + tidy + pdb + "\"";
    ContainsMiddle(ds + sel + raw + tidy, pdb, "\"");
  }

  lemma ConvertNameFiles(home: Path)
    ensures Contains(ConvertCommand(home), Str(RecPdb(home))) && Contains(ConvertCommand(home), Str(RecPdbqt(home)))
  {
    var pdb, pdbqt := Str(RecPdb(home)), Str(RecPdbqt(home));
    var ds := "conda run -n " + DS_ENV + " ";
    var gast := " -xr --partialcharge gasteiger";
    assert ConvertCommand(home) == ds + "obabel " + pdb + (" -O " + pdbqt + gast);
    ContainsMiddle(ds + "obabel ", pdb, " -O " + pdbqt + gast);
    assert ConvertCommand(home) == ds + "obabel " + pdb + " -O " + pdbqt + gast;
    ContainsMiddle(ds + "obabel " + pdb + " -O ", pdbqt, gast);
  }

  lemma SmokeLaunchNameFiles(home: Path)
    ensures Contains(SmokeCommand(home), Str(DsCfg(home))) && Contains(LaunchCommand(home), Str(RlToml(home)))
  {
    var ds := "conda run -n " + DS_ENV + " ";
    var py := "python " + Str(DockerPy(home)) + " -conf ";
    var tail := " -output_prefix test -smiles 'CC(=O)Oc1ccccc1C(=O)O' -print_scores";
    assert SmokeCommand(home) == ds + py + Str(DsCfg(home)) + tail;
    ContainsMiddle(ds + py, Str(DsCfg(home)), tail);
    var r4 := "conda run -n " + R4_ENV + " ";
    assert LaunchCommand(home) == r4 + "reinvent -l results/rl_run.log " + Str(RlToml(home)) + "";
    ContainsMiddle(r4 + "reinvent -l results/rl_run.log ", Str(RlToml(home)), "");
  }

  /** The shell text of one action. */
  function Command(c: Commands, a: Action): string {
    match a
    case Clone => c.clone
    case EnvList => c.envList
    case CreateEnv => c.createEnv
    case InstallVina => c.installVina
    case InstallPdbTools => c.installPdbTools
    case Download => c.download
    case Clean => c.clean
    case Convert => c.convert
    case SmokeRun => c.smoke
    case Launch => c.launch
  }

  /** The files whose existence the script checks. */
  datatype Files = Files(dsDir: Path, recRaw: Path, recPdb: Path, recPdbqt: Path, prior: Path)

  function FilesOf(home: Path): Files {
    Files(DsDir(home), RecRaw(home), RecPdb(home), RecPdbqt(home), Prior(home))
  }

  // ---------------------------------------------------------------------------
  // step 4: the docking document

  const BOX: seq<(string, Num)> := [
    ("--center_x", 12.0), ("--center_y", 5.5), ("--center_z", -6.0),
    ("--size_x", 25.0), ("--size_y", 25.0), ("--size_z", 25.0)]

  /** `ds_config`: one RDKit pool with an empty execution prefix and one
      AutoDock Vina run, every path absolute under `home`. */
  function PyplDockingDoc(home: Path): DockingDoc {
    var bin := Child(Child(Child(Child(home, "anaconda3"), "envs"), DS_ENV), "bin");
    DockingDoc(
      Str(Child(ResultsDir(home), "dockstream.log")),
      [RdkitPool(Some(""), Str(Child(Poses(home), "conformers.sdf")))],
      [DockingRun(
        backend := "AutoDockVina",
        runId := "AutoDockVina",
        inputPools := [RDKIT],
        binaryLocation := Str(bin),
        numberCores := 4,
        receptorPdbqtPath := [Str(RecPdbqt(home))],
        numberPoses := 3,
        searchSpace := BOX,
        posesPath := Str(Child(Poses(home), "docked.sdf")),
        scoresPath := Str(Child(ResultsDir(home), "scores.csv")),
        overwrite := true)])
  }

  /** The document has a single run, `AutoDockVina`, reading from the one
      declared pool; it docks three poses against exactly the converted
      receptor file in the box as given. */
  lemma PyplDockingShape(home: Path)
    ensures var d := PyplDockingDoc(home);
      && RunIds(d) == ["AutoDockVina"]
      && UniqueRunIds(d)
      && PoolIds(d) == [RDKIT]
      && PoolsResolved(d)
      && d.runs[0].numberPoses == 3
      && d.runs[0].receptorPdbqtPath == [Str(RecPdbqt(home))]
      && d.runs[0].searchSpace == BOX
  {
    var d := PyplDockingDoc(home);
    assert RunIds(d) == ["AutoDockVina"];
    assert PoolIds(d) == [RDKIT];
  }

  /** The box lists the six keys in order, each with its `--` prefix. */
  lemma PyplBoxKeys()
    ensures |BOX| == |BOX_KEYS| && forall k :: 0 <= k < |BOX_KEYS| ==> BOX[k].0 == "--" + BOX_KEYS[k]
  {
  }

  /** The receptor path written into the document reads back as the file
      step 3 produces, absolute whenever the home directory is. */
  lemma ReceptorPathReadsBack(home: Path)
    requires Valid(home)
    ensures Parse(Str(RecPdbqt(home))) == RecPdbqt(home)
    ensures RecPdbqt(home).absolute == home.absolute
  {
    assert ValidPart("reinvent_docking") && ValidPart("targets") && ValidPart("ppar_receptor.pdbqt");
    ParseStr(RecPdbqt(home));
  }

  // ---------------------------------------------------------------------------
  // step 6: the score filter

  /** The filter of the smoke test: after `strip()`, `lstrip('-')` and
      deleting every `.`, a non-empty run of ASCII digits remains. */
  predicate IsScoreLine(l: string) {
    ScoreText(Strip(l))
  }

  /** The filter on the already stripped text. */
  predicate ScoreText(t: string) {
    IsDigits(Remove(LStripChar(t, '-'), '.'))
  }

  predicate DigitsAndDots(s: string) {
    forall i :: 0 <= i < |s| ==> IsDigit(s[i]) || s[i] == '.'
  }

  predicate HasDigit(s: string) {
    exists i :: 0 <= i < |s| && IsDigit(s[i])
  }

  /** The shape of text the filter accepts: a run of minus signs followed
      by digits and dots, at least one of them a digit. */
  predicate NumberShaped(t: string) {
    exists k :: 0 <= k <= |t| && (forall i :: 0 <= i < k ==> t[i] == '-') && DigitsAndDots(t[k..]) && HasDigit(t[k..])
  }

  lemma {:induction false} RemoveDotsDigits(r: string)
    ensures IsDigits(Remove(r, '.')) <==> DigitsAndDots(r) && HasDigit(r)
  {
    if r != [] {
      RemoveDotsDigits(r[1..]);
      var rest := Remove(r[1..], '.');
      if r[0] == '.' {
        assert Remove(r, '.') == rest;
        assert DigitsAndDots(r) <==> DigitsAndDots(r[1..]) by {
          assert forall i :: 1 <= i < |r| ==> r[i] == r[1..][i - 1];
        }
        assert HasDigit(r) <==> HasDigit(r[1..]) by {
          if HasDigit(r) {
            var i :| 0 <= i < |r| && IsDigit(r[i]);
            assert r[1..][i - 1] == r[i];
          }
          if HasDigit(r[1..]) {
            var i :| 0 <= i < |r[1..]| && IsDigit(r[1..][i]);
            assert r[i + 1] == r[1..][i];
          }
        }
      } else {
        assert Remove(r, '.') == [r[0]] + rest;
        RemoveDotsAll(r[1..]);
        if IsDigit(r[0]) {
          assert HasDigit(r) by { assert IsDigit(r[0]); }
          assert DigitsAndDots(r) <==> DigitsAndDots(r[1..]) by {
            assert forall i :: 1 <= i < |r| ==> r[i] == r[1..][i - 1];
          }
          assert IsDigits([r[0]] + rest) <==> forall k :: 0 <= k < |rest| ==> IsDigit(rest[k]) by {
            assert forall k :: 0 <= k < |rest| ==> ([r[0]] + rest)[k + 1] == rest[k];
          }
        } else {
          assert !IsDigits([r[0]] + rest) by { assert ([r[0]] + rest)[0] == r[0]; }
          assert !DigitsAndDots(r) by { assert !(IsDigit(r[0]) || r[0] == '.'); }
        }
      }
    }
  }

  /** Every character left after deleting the dots is a digit exactly when
      every character was a digit or a dot. */
  lemma {:induction false} RemoveDotsAll(r: string)
    ensures (forall k :: 0 <= k < |Remove(r, '.')| ==> IsDigit(Remove(r, '.')[k])) <==> DigitsAndDots(r)
  {
    if r != [] {
      RemoveDotsAll(r[1..]);
      var rest := Remove(r[1..], '.');
      assert DigitsAndDots(r) <==> (IsDigit(r[0]) || r[0] == '.') && DigitsAndDots(r[1..]) by {
        assert forall i :: 1 <= i < |r| ==> r[i] == r[1..][i - 1];
      }
      if r[0] != '.' {
        var x := [r[0]] + rest;
        assert Remove(r, '.') == x;
        if forall k :: 0 <= k < |x| ==> IsDigit(x[k]) {
          assert IsDigit(x[0]);
          forall k | 0 <= k < |rest| ensures IsDigit(rest[k]) {
            assert x[k + 1] == rest[k];
          }
        }
        if DigitsAndDots(r) {
          forall k | 0 <= k < |x| ensures IsDigit(x[k]) {
            if k > 0 {
              assert x[k] == rest[k - 1];
            }
          }
        }
      } else {
        assert Remove(r, '.') == rest;
      }
    }
  }

  /** The filter accepts a line exactly when its stripped text is a run of
      minus signs followed by digits and dots, at least one a digit. */
  lemma ScoreLineShape(l: string)
    ensures IsScoreLine(l) <==> NumberShaped(Strip(l))
  {
    ScoreTextShape(Strip(l));
  }

  lemma ScoreTextShape(t: string)
    ensures ScoreText(t) <==> NumberShaped(t)
  {
    var r := LStripChar(t, '-');
    var k := |t| - |r|;
    RemoveDotsDigits(r);
    assert t[k..] == r;
    if NumberShaped(t) {
      var k' :| 0 <= k' <= |t| && (forall i :: 0 <= i < k' ==> t[i] == '-') && DigitsAndDots(t[k'..]) && HasDigit(t[k'..]);
      var j :| 0 <= j < |t[k'..]| && IsDigit(t[k'..][j]);
      assert t[k'] != '-' by { assert t[k'] == t[k'..][0]; }
      assert k == k';
    }
  }

  /** Number-shaped text holds only minus signs, digits and dots, and at
      least one digit. */
  lemma ShapedChars(t: string)
    ensures NumberShaped(t) ==>
      HasDigit(t) && forall j :: 0 <= j < |t| ==> t[j] == '-' || IsDigit(t[j]) || t[j] == '.'
  {
    if NumberShaped(t) {
      var k :| 0 <= k <= |t| && (forall i :: 0 <= i < k ==> t[i] == '-') && DigitsAndDots(t[k..]) && HasDigit(t[k..]);
      forall j | k <= j < |t| ensures IsDigit(t[j]) || t[j] == '.' {
        assert t[j] == t[k..][j - k];
      }
      var d :| 0 <= d < |t[k..]| && IsDigit(t[k..][d]);
      assert t[k + d] == t[k..][d];
    }
  }

  /** `strip()` keeps every non-blank character, at a fixed offset. */
  lemma StripKeeps(l: string, i: int)
    requires 0 <= i < |l| && !IsSpace(l[i])
    ensures var off := |l| - |StripLeft(l)|; off <= i < off + |Strip(l)| && Strip(l)[i - off] == l[i]
  {
    var left := StripLeft(l);
    var off := |l| - |left|;
    assert i >= off;
    assert left[i - off] == l[i];
    assert Strip(l) == StripRight(left);
  }

  lemma DigitSurvivesStrip(l: string)
    ensures HasDigit(Strip(l)) ==> HasDigit(l)
  {
    var left := StripLeft(l);
    var t := Strip(l);
    assert t == StripRight(left);
    if HasDigit(t) {
      var j :| 0 <= j < |t| && IsDigit(t[j]);
      assert t[j] == left[j];
      assert left[j] == l[|l| - |left| + j];
    }
  }

  /** A line without a digit is never taken for a score. */
  lemma NoDigitRejected(l: string)
    ensures !HasDigit(l) ==> !IsScoreLine(l)
  {
    ScoreLineShape(l);
    ShapedChars(Strip(l));
    DigitSurvivesStrip(l);
  }

  /** Nor is a line holding any character other than blanks, minus signs,
      digits and dots (a letter of an error message, a comma). */
  lemma ForeignCharRejected(l: string, i: int)
    requires 0 <= i < |l| && !IsSpace(l[i]) && l[i] != '-' && l[i] != '.' && !IsDigit(l[i])
    ensures !IsScoreLine(l)
  {
    ScoreLineShape(l);
    StripKeeps(l, i);
    ShapedChars(Strip(l));
  }

  lemma StripUnchanged(s: string)
    requires s != [] && !IsSpace(s[0]) && !IsSpace(s[|s| - 1])
    ensures Strip(s) == s
  {
    assert StripLeft(s) == s;
    assert StripRight(s) == s;
  }

  /** Stripped number-shaped text is a score line. */
  lemma ShapedAccepted(t: string)
    requires NumberShaped(t) && !IsSpace(t[0]) && !IsSpace(t[|t| - 1])
    ensures IsScoreLine(t)
  {
    ShapedChars(t);
    StripUnchanged(t);
    ScoreLineShape(t);
  }

  lemma DecimalShape(a: string, b: string)
    requires IsDigits(a) && IsDigits(b)
    ensures DigitsAndDots(a + ['.'] + b) && HasDigit(a + ['.'] + b)
  {
    var u := a + ['.'] + b;
    forall j | 0 <= j < |u| ensures IsDigit(u[j]) || u[j] == '.' {
      if j < |a| {
        assert u[j] == a[j];
      } else if j > |a| {
        assert u[j] == b[j - |a| - 1];
      }
    }
    assert u[0] == a[0];
  }

  /** A negative decimal such as the Vina score `-6.3` is kept. */
  lemma NegativeDecimalAccepted(a: string, b: string)
    requires IsDigits(a) && IsDigits(b)
    ensures IsScoreLine(['-'] + a + ['.'] + b)
  {
    var u := a + ['.'] + b;
    var t := ['-'] + u;
    DecimalShape(a, b);
    assert t[1..] == u;
    assert t[|t| - 1] == b[|b| - 1];
    assert (forall i :: 0 <= i < 1 ==> t[i] == '-') && DigitsAndDots(t[1..]) && HasDigit(t[1..]);
    assert t == ['-'] + a + ['.'] + b;
    ShapedAccepted(t);
  }

  /** The score aspirin is expected to dock with is kept. */
  lemma VinaScoreKept(l: string)
    requires l == "-6.3"
    ensures IsScoreLine(l)
  {
    assert l == ['-'] + "6" + ['.'] + "3";
    NegativeDecimalAccepted("6", "3");
  }

  /** The filter drops an error message. */
  lemma ErrorDropped(l: string)
    requires l == "error: no pose"
    ensures !IsScoreLine(l)
  {
    ForeignCharRejected(l, 0);
  }

  /** The filter drops an empty line and a lone minus sign. */
  lemma BlankDropped(l: string)
    requires l == "" || l == "-"
    ensures !IsScoreLine(l)
  {
    assert !HasDigit(l);
    NoDigitRejected(l);
  }

  /** `[f(l) for l in lines if keep(l)]`. */
  function FilterMap(lines: seq<string>, keep: string -> bool, f: string -> string): (r: seq<string>)
    ensures |r| <= |lines|
  {
    if lines == [] then []
    else (if keep(lines[0]) then [f(lines[0])] else []) + FilterMap(lines[1..], keep, f)
  }

  /** `lines[i]` is the last line `keep` accepts. */
  predicate LastKept(lines: seq<string>, keep: string -> bool, i: int) {
    0 <= i < |lines| && keep(lines[i]) && forall j :: i < j < |lines| ==> !keep(lines[j])
  }

  /** Something is kept exactly when `keep` accepts some line, and the last
      entry kept is `f` of the last accepted line. */
  lemma {:induction false} FilterMapLast(lines: seq<string>, keep: string -> bool, f: string -> string)
    ensures FilterMap(lines, keep, f) != [] <==> exists i :: 0 <= i < |lines| && keep(lines[i])
    ensures var r := FilterMap(lines, keep, f);
      r != [] ==> exists i :: LastKept(lines, keep, i) && r[|r| - 1] == f(lines[i])
  {
    if lines != [] {
      var rest := lines[1..];
      FilterMapLast(rest, keep, f);
      var r := FilterMap(lines, keep, f);
      var rr := FilterMap(rest, keep, f);
      assert r == (if keep(lines[0]) then [f(lines[0])] else []) + rr;
      if rr != [] {
        var i :| LastKept(rest, keep, i) && rr[|rr| - 1] == f(rest[i]);
        FirstAndRest(lines, keep, i);
        assert r[|r| - 1] == rr[|rr| - 1];
      } else {
        NoneInRest(lines, keep);
        if keep(lines[0]) {
          assert LastKept(lines, keep, 0);
        }
      }
    }
  }

  /** A line `keep` accepts last in `lines[1..]` is the last one in `lines`. */
  lemma FirstAndRest(lines: seq<string>, keep: string -> bool, i: int)
    requires lines != [] && LastKept(lines[1..], keep, i)
    ensures LastKept(lines, keep, i + 1) && lines[i + 1] == lines[1..][i]
  {
    forall j | i + 1 < j < |lines| ensures !keep(lines[j]) {
      assert lines[j] == lines[1..][j - 1];
    }
  }

  /** When `keep` accepts nothing in `lines[1..]`, only `lines[0]` can be kept. */
  lemma NoneInRest(lines: seq<string>, keep: string -> bool)
    requires lines != [] && !(exists i :: 0 <= i < |lines| - 1 && keep(lines[1..][i]))
    ensures forall j :: 0 < j < |lines| ==> !keep(lines[j])
  {
    forall j | 0 < j < |lines| ensures !keep(lines[j]) {
      assert lines[j] == lines[1..][j - 1];
    }
  }

  /** The scores step 6 collects: the stripped lines the filter keeps. */
  function ScoreLines(lines: seq<string>): seq<string> {
    FilterMap(lines, IsScoreLine, Strip)
  }

  /** Step 6's verdict on the tool's output: the last kept score line, or
      the last 800 characters of stderr. */
  function PyplSmokeCheck(p: Proc): SmokeResult {
    var scores := ScoreLines(SplitLines(p.stdout));
    if scores != [] then Passed(scores[|scores| - 1]) else Failed(Tail(p.stderr, 800))
  }

  /** The smoke test passes exactly when some stdout line passes the filter;
      the score it shows is the stripped last such line. */
  lemma PyplSmokePasses(p: Proc)
    ensures var lines := SplitLines(p.stdout);
      PyplSmokeCheck(p).Passed? <==> exists i :: 0 <= i < |lines| && IsScoreLine(lines[i])
    ensures var lines := SplitLines(p.stdout);
      PyplSmokeCheck(p).Passed? ==> exists i :: LastKept(lines, IsScoreLine, i) && PyplSmokeCheck(p).score == Strip(lines[i])
  {
    var lines := SplitLines(p.stdout);
    FilterMapLast(lines, IsScoreLine, Strip);
    var r := ScoreLines(lines);
    if r != [] {
      var i :| LastKept(lines, IsScoreLine, i) && r[|r| - 1] == Strip(lines[i]);
      assert PyplSmokeCheck(p).score == r[|r| - 1];
    }
  }

  /** A docking run whose stdout ends with a line the filter keeps passes
      step 6 with that line, stripped, as its score, whatever it printed
      before. */
  lemma PyplSmokeOnLast(prefix: string, x: string, stderr: string, code: int)
    requires x != [] && (forall k :: 0 <= k < |x| ==> !IsLineBreak(x[k])) && IsScoreLine(x)
    ensures PyplSmokeCheck(Proc(prefix + "\n" + x, stderr, code)) == Passed(Strip(x))
  {
    SplitLinesLast(prefix, x);
    PyplSmokeLastLine(Proc(prefix + "\n" + x, stderr, code), x);
  }

  /** Output whose last line `x` the filter keeps passes with `x`, stripped. */
  lemma PyplSmokeLastLine(p: Proc, x: string)
    requires var lines := SplitLines(p.stdout); |lines| >= 2 && lines[|lines| - 1] == x
    requires IsScoreLine(x)
    ensures PyplSmokeCheck(p) == Passed(Strip(x))
  {
    FilterMapOnLast(SplitLines(p.stdout), IsScoreLine, Strip);
  }

  /** When `keep` accepts the last line, the last entry kept is `f` of it. */
  lemma FilterMapOnLast(lines: seq<string>, keep: string -> bool, f: string -> string)
    requires lines != [] && keep(lines[|lines| - 1])
    ensures var r := FilterMap(lines, keep, f);
      r != [] && r[|r| - 1] == f(lines[|lines| - 1])
  {
    FilterMapLast(lines, keep, f);
    var r := FilterMap(lines, keep, f);
    var i :| LastKept(lines, keep, i) && r[|r| - 1] == f(lines[i]);
    assert i == |lines| - 1;
  }

  /** The Vina score `-6.3` printed last passes step 6 with that score. */
  lemma PyplSmokeOnScore(prefix: string, x: string, stderr: string, code: int)
    requires x == "-6.3"
    ensures PyplSmokeCheck(Proc(prefix + "\n" + x, stderr, code)) == Passed(x)
  {
    VinaScoreLine(x);
    PyplSmokeOnLast(prefix, x, stderr, code);
  }

  /** `-6.3` is one line, kept by the filter and unchanged by `strip()`. */
  lemma VinaScoreLine(x: string)
    requires x == "-6.3"
    ensures x != [] && (forall k :: 0 <= k < |x| ==> !IsLineBreak(x[k])) && IsScoreLine(x) && Strip(x) == x
  {
    VinaScoreKept(x);
    VinaScoreChars(x);
    StripClean(x);
  }

  // the characters of `-6.3` on their own, to keep the solver cost low
  lemma VinaScoreChars(x: string)
    requires x == "-6.3"
    ensures x != [] && !IsSpace(x[0]) && !IsSpace(x[|x| - 1])
    ensures forall k :: 0 <= k < |x| ==> !IsLineBreak(x[k])
  {
    assert |x| == 4 && x[0] == '-' && x[1] == '6' && x[2] == '.' && x[3] == '3';
  }

  /** A failure reports the last min(800, |stderr|) characters of stderr. */
  lemma PyplSmokeReport(p: Proc)
    ensures var r := PyplSmokeCheck(p);
      r.Failed? ==> |r.report| == Min(800, |p.stderr|) && r.report == p.stderr[|p.stderr| - |r.report|..]
  {
  }

  // ---------------------------------------------------------------------------
  // running checked commands

  /** A command gets past its check: every command but the smoke test is
      run with `check=True` (or through `check_output`). */
  predicate Passes(c: Commands, w: World, a: Action) {
    a == SmokeRun || Succeeds(w, Command(c, a))
  }

  predicate AllPass(c: Commands, w: World, acts: seq<Action>) {
    forall i :: 0 <= i < |acts| ==> Passes(c, w, acts[i])
  }

  /** Running `plan` in order: the commands issued and how the run ends,
      stopping at the first command whose check fails. */
  function Execute(c: Commands, w: World, plan: seq<Action>): (seq<Action>, Outcome) {
    if plan == [] then ([], Completed)
    else if !Passes(c, w, plan[0]) then ([plan[0]], Raised(CalledProcessError(Command(c, plan[0]))))
    else
      var rest := Execute(c, w, plan[1..]);
      ([plan[0]] + rest.0, rest.1)
  }

  lemma ExecuteCons(c: Commands, w: World, a: Action, rest: seq<Action>)
    ensures Execute(c, w, [a] + rest) ==
      if Passes(c, w, a) then ([a] + Execute(c, w, rest).0, Execute(c, w, rest).1)
      else ([a], Raised(CalledProcessError(Command(c, a))))
  {
    assert ([a] + rest)[0] == a;
    assert ([a] + rest)[1..] == rest;
  }

  /** Running two plans one after the other is running their concatenation. */
  lemma {:induction false} ExecuteAppend(c: Commands, w: World, p: seq<Action>, q: seq<Action>)
    ensures Execute(c, w, p + q) ==
      var r := Execute(c, w, p);
      if r.1.Raised? then r else (r.0 + Execute(c, w, q).0, Execute(c, w, q).1)
  {
    if p != [] {
      ExecuteAppend(c, w, p[1..], q);
      assert p + q == [p[0]] + (p[1..] + q);
      ExecuteCons(c, w, p[0], p[1..] + q);
      assert p == [p[0]] + p[1..];
      ExecuteCons(c, w, p[0], p[1..]);
      var r := Execute(c, w, p[1..]);
      if Passes(c, w, p[0]) && !r.1.Raised? {
        assert [p[0]] + (r.0 + Execute(c, w, q).0) == ([p[0]] + r.0) + Execute(c, w, q).0;
      }
    } else {
      assert p + q == q;
      assert Execute(c, w, p) == ([], Completed);
      assert [] + Execute(c, w, q).0 == Execute(c, w, q).0;
    }
  }

  /** What running a plan means: it issues a prefix of the plan, and it
      ends normally exactly when every check passes, after issuing all of
      it. */
  lemma {:induction false} ExecuteSpec(c: Commands, w: World, plan: seq<Action>)
    ensures var (acts, outcome) := Execute(c, w, plan);
      && (outcome.Completed? || outcome.Raised?)
      && |acts| <= |plan| && acts == plan[..|acts|]
      && (outcome.Completed? <==> AllPass(c, w, plan))
      && (outcome.Completed? ==> acts == plan)
  {
    if plan != [] {
      ExecuteSpec(c, w, plan[1..]);
      var rest := Execute(c, w, plan[1..]);
      assert forall i :: 1 <= i < |plan| ==> plan[i] == plan[1..][i - 1];
      if Passes(c, w, plan[0]) {
        var acts := [plan[0]] + rest.0;
        assert acts == plan[..|acts|];
        assert AllPass(c, w, plan) <==> AllPass(c, w, plan[1..]);
      } else {
        assert !AllPass(c, w, plan);
      }
    }
  }

  /** A run that raises issued commands that all passed their checks but
      the last, whose failure is the error raised. */
  lemma {:induction false} ExecuteRaised(c: Commands, w: World, plan: seq<Action>)
    ensures var (acts, outcome) := Execute(c, w, plan);
      outcome.Raised? ==>
        && acts != [] && AllPass(c, w, acts[..|acts| - 1])
        && !Passes(c, w, acts[|acts| - 1])
        && outcome.error == CalledProcessError(Command(c, acts[|acts| - 1]))
  {
    if plan != [] && Passes(c, w, plan[0]) {
      ExecuteRaised(c, w, plan[1..]);
      var rest := Execute(c, w, plan[1..]);
      if rest.1.Raised? {
        var acts := [plan[0]] + rest.0;
        assert acts[..|acts| - 1] == [plan[0]] + rest.0[..|rest.0| - 1];
        assert acts[|acts| - 1] == rest.0[|rest.0| - 1];
      }
    }
  }


  lemma ExecuteOne(c: Commands, w: World, a: Action)
    ensures Execute(c, w, [a]) ==
      if Passes(c, w, a) then ([a], Completed) else ([a], Raised(CalledProcessError(Command(c, a))))
  {
    assert [a][0] == a;
    assert [a][1..] == [];
    assert Execute(c, w, []) == ([], Completed);
    assert [a] + [] == [a];
  }

  /** Issuing one more command after `p`: nothing happens once `p` raised. */
  lemma ExecuteSnoc(c: Commands, w: World, p: seq<Action>, a: Action)
    ensures Execute(c, w, p + [a]) ==
      var r := Execute(c, w, p);
      if r.1.Raised? then r
      else (r.0 + [a], if Passes(c, w, a) then Completed else Raised(CalledProcessError(Command(c, a))))
  {
    ExecuteAppend(c, w, p, [a]);
    ExecuteOne(c, w, a);
  }

  /** Running the script's plan: the install commands, the receptor
      commands, the smoke test (never a failure, as it runs unchecked) and
      possibly the launch. */
  lemma ExecuteSteps(c: Commands, w: World, install: seq<Action>, receptor: seq<Action>, launch: seq<Action>)
    ensures var ei := Execute(c, w, install);
      var er := Execute(c, w, receptor);
      var el := Execute(c, w, launch);
      Execute(c, w, install + receptor + [SmokeRun] + launch) ==
        if ei.1.Raised? then ei
        else if er.1.Raised? then (ei.0 + er.0, er.1)
        else (ei.0 + er.0 + [SmokeRun] + el.0, el.1)
  {
    ExecuteAppend(c, w, install + receptor + [SmokeRun], launch);
    ExecuteAppend(c, w, install + receptor, [SmokeRun]);
    ExecuteAppend(c, w, install, receptor);
    ExecuteOne(c, w, SmokeRun);
  }

  /** `run(cmd)` with its default `check=True`, reached only when no earlier
      command raised: it issues the command and raises when it fails. */
  method Issue(c: Commands, w: World, acts: seq<Action>, outcome: Outcome, a: Action)
    returns (acts': seq<Action>, outcome': Outcome)
    requires a != SmokeRun
    ensures outcome.Raised? ==> acts' == acts && outcome' == outcome
    ensures !outcome.Raised? ==>
      && acts' == acts + [a]
      && outcome' == if Succeeds(w, Command(c, a)) then Completed else Raised(CalledProcessError(Command(c, a)))
  {
    if outcome.Raised? {
      return acts, outcome;
    }
    acts' := acts + [a];
    if Succeeds(w, Command(c, a)) {
      outcome' := Completed;
    } else {
      outcome' := Raised(CalledProcessError(Command(c, a)));
    }
  }

  // ---------------------------------------------------------------------------
  // the script

  /** The numbered steps of the script. */
  datatype Step = MakeDirectories | InstallDockStream | PrepareReceptor | WriteDockingConfig
                | WriteLearningConfig | SmokeTest | LaunchReinvent

  /** `"DockStream" in envs` for the output of `conda env list`. */
  predicate HasDockStreamEnv(c: Commands, w: World) {
    Contains(w.run(c.envList).stdout, DS_ENV)
  }

  /** The verdict `judge` gives on what the docking tool prints in `w`;
      step 6 judges with `PyplSmokeCheck`. */
  function Verdict(c: Commands, w: World, judge: Proc -> SmokeResult): SmokeResult {
    judge(w.run(c.smoke))
  }

  /** What the script's existence and environment checks find. */
  datatype Found = Found(dsDir: bool, dsEnv: bool, recRaw: bool, recPdb: bool, recPdbqt: bool, prior: bool)

  function Observe(f: Files, c: Commands, w: World): Found {
    Found(f.dsDir in w.fs, HasDockStreamEnv(c, w), f.recRaw in w.fs, f.recPdb in w.fs,
          f.recPdbqt in w.fs, f.prior in w.fs)
  }

  /** Step 2's commands in order. */
  function InstallActions(o: Found): seq<Action> {
    (if o.dsDir then [] else [Clone]) + [EnvList]
    + (if o.dsEnv then [] else [CreateEnv, InstallVina, InstallPdbTools])
  }

  /** Step 3's commands in order. */
  function ReceptorActions(o: Found): seq<Action> {
    (if o.recRaw then [] else [Download])
    + (if o.recPdb then [] else [Clean])
    + (if o.recPdbqt then [] else [Convert])
  }

  /** Both gates of step 7: a passing smoke test and the prior model. */
  predicate MayLaunch(o: Found, passed: bool) {
    passed && o.prior
  }

  /** Every command the script would issue if none of its checks failed;
      `passed` is whether the smoke test passes. */
  function Plan(o: Found, passed: bool): seq<Action> {
    InstallActions(o) + ReceptorActions(o) + [SmokeRun] + (if MayLaunch(o, passed) then [Launch] else [])
  }

  /** The gate of each command, stated independently of the step order. */
  predicate Needed(o: Found, passed: bool, a: Action) {
    match a
    case Clone => !o.dsDir
    case EnvList => true
    case CreateEnv => !o.dsEnv
    case InstallVina => !o.dsEnv
    case InstallPdbTools => !o.dsEnv
    case Download => !o.recRaw
    case Clean => !o.recPdb
    case Convert => !o.recPdbqt
    case SmokeRun => true
    case Launch => MayLaunch(o, passed)
  }

  /** Step 2: clone DockStream when its directory is missing, list the conda
      environments and create and equip the environment only when the
      listing does not mention `DockStream`. */
  method InstallStep(f: Files, c: Commands, w: World) returns (acts: seq<Action>, outcome: Outcome)
    ensures (acts, outcome) == Execute(c, w, InstallActions(Observe(f, c, w)))
  {
    ghost var done: seq<Action> := [];
    acts, outcome := [], Completed;
    if f.dsDir !in w.fs {
      ExecuteSnoc(c, w, done, Clone);
      acts, outcome := Issue(c, w, acts, outcome, Clone);
      done := done + [Clone];
      assert (acts, outcome) == Execute(c, w, done);
    }
    ExecuteSnoc(c, w, done, EnvList);
    acts, outcome := Issue(c, w, acts, outcome, EnvList);
    done := done + [EnvList];
    assert (acts, outcome) == Execute(c, w, done);
    if !HasDockStreamEnv(c, w) {
      ExecuteSnoc(c, w, done, CreateEnv);
      acts, outcome := Issue(c, w, acts, outcome, CreateEnv);
      done := done + [CreateEnv];
      assert (acts, outcome) == Execute(c, w, done);
      ExecuteSnoc(c, w, done, InstallVina);
      acts, outcome := Issue(c, w, acts, outcome, InstallVina);
      done := done + [InstallVina];
      assert (acts, outcome) == Execute(c, w, done);
      ExecuteSnoc(c, w, done, InstallPdbTools);
      acts, outcome := Issue(c, w, acts, outcome, InstallPdbTools);
      done := done + [InstallPdbTools];
      assert (acts, outcome) == Execute(c, w, done);
    }
    assert done == InstallActions(Observe(f, c, w));
  }

  /** Step 3: download, clean and convert the receptor, in that order, each
      only when its own output file is absent. */
  method ReceptorStep(f: Files, c: Commands, w: World) returns (acts: seq<Action>, outcome: Outcome)
    ensures (acts, outcome) == Execute(c, w, ReceptorActions(Observe(f, c, w)))
  {
    ghost var done: seq<Action> := [];
    acts, outcome := [], Completed;
    if f.recRaw !in w.fs {
      ExecuteSnoc(c, w, done, Download);
      acts, outcome := Issue(c, w, acts, outcome, Download);
      done := done + [Download];
      assert (acts, outcome) == Execute(c, w, done);
    }
    if f.recPdb !in w.fs {
      ExecuteSnoc(c, w, done, Clean);
      acts, outcome := Issue(c, w, acts, outcome, Clean);
      done := done + [Clean];
      assert (acts, outcome) == Execute(c, w, done);
    }
    if f.recPdbqt !in w.fs {
      ExecuteSnoc(c, w, done, Convert);
      acts, outcome := Issue(c, w, acts, outcome, Convert);
      done := done + [Convert];
      assert (acts, outcome) == Execute(c, w, done);
    }
    assert done == ReceptorActions(Observe(f, c, w));
  }

  /** Steps 6 and 7: run the smoke test unchecked, exit with status 1 on a
      failed verdict, otherwise show the score, exit with status 1 when the
      prior model is missing and launch the learning run when it is there. */
  method SmokeAndLaunch(f: Files, c: Commands, w: World, judge: Proc -> SmokeResult)
    returns (last: Step, acts: seq<Action>, outcome: Outcome, score: Option<string>)
    ensures var launch: seq<Action> := if Verdict(c, w, judge).Passed? && f.prior in w.fs then [Launch] else [];
      && acts == [SmokeRun] + Execute(c, w, launch).0
      && outcome == (if Execute(c, w, launch).1.Raised? then Execute(c, w, launch).1
                     else if launch == [] then Exited(1) else Completed)
    ensures last in {SmokeTest, LaunchReinvent}
    ensures last == SmokeTest <==> Verdict(c, w, judge).Failed?
    ensures last == SmokeTest ==> score.None?
    ensures last == LaunchReinvent ==> score == Some(Verdict(c, w, judge).score)
  {
    ExecuteOne(c, w, Launch);
    last := SmokeTest;
    score := None;
    acts := [SmokeRun];
    var verdict := Verdict(c, w, judge);
    if verdict.Failed? {
      outcome := Exited(1);
      return;
    }

    last := LaunchReinvent;
    score := Some(verdict.score);
    if f.prior !in w.fs {
      outcome := Exited(1);
      return;
    }
    acts, outcome := Issue(c, w, acts, Completed, Launch);
  }

  /** The script from step 2 on, for the files `f`, the command texts `c`,
      the docking document `doc` and the smoke-test verdict `judge`
      (`FilesOf(home)`, `CommandsOf(home)`, `PyplDockingDoc(home)` and
      `PyplSmokeCheck` in the script, as `RunPypl` fixes it): `last` is the
      last step begun, `acts` the external commands issued, `score` the
      score step 6 shows, `docking` the document step 4 writes.
      A failing checked command ends the run with its error; otherwise the
      whole plan runs, and a failed smoke test or a missing prior model
      exits with status 1. */
  method RunPyplWith(f: Files, c: Commands, doc: DockingDoc, w: World, judge: Proc -> SmokeResult)
    returns (last: Step, acts: seq<Action>, outcome: Outcome, score: Option<string>, docking: Option<DockingDoc>)
    ensures var plan := Plan(Observe(f, c, w), Verdict(c, w, judge).Passed?);
      acts == Execute(c, w, plan).0
      && outcome == (if Execute(c, w, plan).1.Raised? then Execute(c, w, plan).1
                     else if MayLaunch(Observe(f, c, w), Verdict(c, w, judge).Passed?) then Completed else Exited(1))
    ensures outcome.Raised? ==> last in {InstallDockStream, PrepareReceptor, LaunchReinvent}
    ensures last == SmokeTest <==> outcome.Exited? && Verdict(c, w, judge).Failed?
    ensures last == LaunchReinvent ==>
      && Verdict(c, w, judge).Passed? && score == Some(Verdict(c, w, judge).score)
      && (outcome.Exited? <==> f.prior !in w.fs)
    ensures docking.Some? <==> last !in {InstallDockStream, PrepareReceptor}
    ensures docking.None? || docking == Some(doc)
    ensures last in {InstallDockStream, PrepareReceptor, SmokeTest, LaunchReinvent}
    ensures last == InstallDockStream <==> Execute(c, w, InstallActions(Observe(f, c, w))).1.Raised?
    ensures last == PrepareReceptor <==>
      && !Execute(c, w, InstallActions(Observe(f, c, w))).1.Raised?
      && Execute(c, w, ReceptorActions(Observe(f, c, w))).1.Raised?
    ensures docking.Some? <==>
      !Execute(c, w, InstallActions(Observe(f, c, w)) + ReceptorActions(Observe(f, c, w))).1.Raised?
    ensures score.Some? <==> last == LaunchReinvent
  {
    ghost var o := Observe(f, c, w);
    ghost var launch: seq<Action> := if MayLaunch(o, Verdict(c, w, judge).Passed?) then [Launch] else [];
    assert Plan(o, Verdict(c, w, judge).Passed?) == InstallActions(o) + ReceptorActions(o) + [SmokeRun] + launch;
    ExecuteSteps(c, w, InstallActions(o), ReceptorActions(o), launch);
    ExecuteAppend(c, w, InstallActions(o), ReceptorActions(o));
    ghost var ei := Execute(c, w, InstallActions(o));
    ghost var er := Execute(c, w, ReceptorActions(o));
    score := None;
    docking := None;

    last := InstallDockStream;
    var installed;
    acts, installed := InstallStep(f, c, w);
    assert installed == ei.1;
    if installed.Raised? {
      outcome := installed;
      return;
    }

    last := PrepareReceptor;
    var receptorActs, prepared := ReceptorStep(f, c, w);
    acts := acts + receptorActs;
    assert prepared == er.1;
    if prepared.Raised? {
      outcome := prepared;
      return;
    }

    last := WriteDockingConfig;
    docking := Some(doc);

    last := WriteLearningConfig;

    var tailActs;
    last, tailActs, outcome, score := SmokeAndLaunch(f, c, w, judge);
    assert (Verdict(c, w, judge).Passed? && f.prior in w.fs) == MayLaunch(o, Verdict(c, w, judge).Passed?);
    ghost var el := Execute(c, w, launch);
    assert tailActs == [SmokeRun] + el.0;
    assert Execute(c, w, Plan(o, Verdict(c, w, judge).Passed?)) == (acts + [SmokeRun] + el.0, el.1);
    acts := acts + tailActs;
    assert acts == Execute(c, w, Plan(o, Verdict(c, w, judge).Passed?)).0;
  }

  /** The script with step 6's own verdict: the commands issued are the
      plan for what the checks find, cut at the first failing checked
      command; the script stops at the smoke test exactly when it exits
      there on a failed verdict, and a score is shown exactly when step 6
      is reached and its verdict passes. */
  method RunPypl(f: Files, c: Commands, doc: DockingDoc, w: World)
    returns (last: Step, acts: seq<Action>, outcome: Outcome, score: Option<string>, docking: Option<DockingDoc>)
    ensures var plan := Plan(Observe(f, c, w), PyplSmokeCheck(w.run(c.smoke)).Passed?);
      acts == Execute(c, w, plan).0
      && outcome == (if Execute(c, w, plan).1.Raised? then Execute(c, w, plan).1
                     else if MayLaunch(Observe(f, c, w), PyplSmokeCheck(w.run(c.smoke)).Passed?) then Completed else Exited(1))
    ensures outcome.Raised? ==> last in {InstallDockStream, PrepareReceptor, LaunchReinvent}
    ensures last == SmokeTest <==> outcome.Exited? && PyplSmokeCheck(w.run(c.smoke)).Failed?
    ensures last == LaunchReinvent ==>
      && PyplSmokeCheck(w.run(c.smoke)).Passed? && score == Some(PyplSmokeCheck(w.run(c.smoke)).score)
      && (outcome.Exited? <==> f.prior !in w.fs)
    ensures docking.Some? <==> last !in {InstallDockStream, PrepareReceptor}
    ensures docking.None? || docking == Some(doc)
    ensures last in {InstallDockStream, PrepareReceptor, SmokeTest, LaunchReinvent}
    ensures last == InstallDockStream <==> Execute(c, w, InstallActions(Observe(f, c, w))).1.Raised?
    ensures last == PrepareReceptor <==>
      && !Execute(c, w, InstallActions(Observe(f, c, w))).1.Raised?
      && Execute(c, w, ReceptorActions(Observe(f, c, w))).1.Raised?
    ensures docking.Some? <==>
      !Execute(c, w, InstallActions(Observe(f, c, w)) + ReceptorActions(Observe(f, c, w))).1.Raised?
    ensures score.Some? <==> last == LaunchReinvent
  {
    last, acts, outcome, score, docking := RunPyplWith(f, c, doc, w, PyplSmokeCheck);
  }

  /** Each command is in the plan exactly when its own gate holds: the clone
      only without a DockStream directory, the environment set-up only when
      the listing lacks `DockStream`, each receptor command only when its
      output is absent, the launch only after a passing smoke test with the
      prior model present. */
  lemma PlanGates(o: Found, passed: bool, a: Action)
    ensures a in Plan(o, passed) <==> Needed(o, passed, a)
  {
  }

  lemma InstallOrdered(o: Found)
    ensures Ordered(InstallActions(o)) && RanksIn(InstallActions(o), 0, 5)
  {
    var clone: seq<Action> := if o.dsDir then [] else [Clone];
    var setup: seq<Action> := if o.dsEnv then [] else [CreateEnv, InstallVina, InstallPdbTools];
    assert Ordered(setup) by {
      if !o.dsEnv {
        assert setup[1..] == [InstallVina, InstallPdbTools];
        assert setup[1..][1..] == [InstallPdbTools];
      }
    }
    OrderedJoin(clone, [EnvList], 0, 1, 2);
    OrderedJoin(clone + [EnvList], setup, 0, 2, 5);
  }

  lemma ReceptorOrdered(o: Found)
    ensures Ordered(ReceptorActions(o)) && RanksIn(ReceptorActions(o), 5, 8)
  {
    var download: seq<Action> := if o.recRaw then [] else [Download];
    var clean: seq<Action> := if o.recPdb then [] else [Clean];
    var convert: seq<Action> := if o.recPdbqt then [] else [Convert];
    OrderedJoin(download, clean, 5, 6, 7);
    OrderedJoin(download + clean, convert, 5, 7, 8);
  }

  /** Joining the steps' lists, each ranking below the next, gives an
      ordered list without repetitions. */
  lemma OrderedSteps(install: seq<Action>, receptor: seq<Action>, launch: seq<Action>)
    requires Ordered(install) && RanksIn(install, 0, 5)
    requires Ordered(receptor) && RanksIn(receptor, 5, 8)
    requires launch == [] || launch == [Launch]
    ensures var acts := install + receptor + [SmokeRun] + launch;
      Ordered(acts) && forall i, j :: 0 <= i < j < |acts| ==> acts[i] != acts[j]
  {
    OrderedJoin(install, receptor, 0, 5, 8);
    OrderedJoin(install + receptor, [SmokeRun], 0, 8, 9);
    OrderedJoin(install + receptor + [SmokeRun], launch, 0, 9, 10);
    OrderedPairs(install + receptor + [SmokeRun] + launch);
  }

  /** The plan issues its commands in the order of the script, each at most
      once. */
  lemma PlanOrdered(o: Found, passed: bool)
    ensures Ordered(Plan(o, passed))
    ensures forall i, j :: 0 <= i < j < |Plan(o, passed)| ==> Plan(o, passed)[i] != Plan(o, passed)[j]
  {
    InstallOrdered(o);
    ReceptorOrdered(o);
    OrderedSteps(InstallActions(o), ReceptorActions(o), if MayLaunch(o, passed) then [Launch] else []);
  }


}

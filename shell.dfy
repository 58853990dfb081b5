/** What the scripts see of the machine they run on. The file system is a set
    of existing paths; an external command is a shell string, and what
    running it prints and returns is given by an oracle. Running a command has
    no modelled effect on the file system. */
module Shell {
  import opened Paths
  import opened Text

  /** The result of `subprocess.run(..., capture_output=True, text=True)`. */
  datatype Proc = Proc(stdout: string, stderr: string, returncode: int)

  /** `fs`: the paths for which `Path.exists()` holds;
      `run`: what each shell command prints and returns. */
  datatype World = World(fs: set<Path>, run: string -> Proc)

  /** `subprocess.run(cmd, ..., check=True)` raises exactly when this fails. */
  predicate Succeeds(w: World, cmd: string) {
    w.run(cmd).returncode == 0
  }

  /** A shell command run inside a conda environment. */
  function CondaRun(env: string, cmd: string): string {
    "conda run -n " + env + " " + cmd
  }

  /** A command written as a conda prefix followed by words is the words
      `conda run -n <env>` and then the command's words, joined by spaces. */
  lemma CondaRunWords(env: string, ws: seq<string>)
    requires |ws| >= 1
    ensures CondaRun(env, JoinWith(ws, ' ')) == JoinWith(["conda", "run", "-n", env] + ws, ' ')
  {
    var t := JoinWith(ws, ' ');
    var w1 := [env] + ws;
    var w2 := ["-n"] + w1;
    var w3 := ["run"] + w2;
    JoinCons(env, ws, ' ');
    JoinCons("-n", w1, ' ');
    JoinCons("run", w2, ' ');
    JoinCons("conda", w3, ' ');
    assert ["conda"] + w3 == ["conda", "run", "-n", env] + ws;
    CondaPrefix(env, t);
  }

  lemma CondaPrefix(env: string, t: string)
    ensures "conda" + [' '] + ("run" + [' '] + ("-n" + [' '] + (env + [' '] + t))) == CondaRun(env, t)
  {
    var pre := "conda run -n ";
    assert pre == "conda" + [' '] + ("run" + [' '] + ("-n" + [' ']));
    assert "conda" + [' '] + ("run" + [' '] + ("-n" + [' '] + (env + [' '] + t))) == pre + (env + [' '] + t);
  }

  lemma JoinCons(a: string, rest: seq<string>, c: char)
    requires |rest| >= 1
    ensures JoinWith([a] + rest, c) == a + [c] + JoinWith(rest, c)
  {
    assert ([a] + rest)[1..] == rest;
  }

  /** The verdict of a smoke test: the score it shows, or the error text it
      reports. */
  datatype SmokeResult = Passed(score: string) | Failed(report: string)

  /** The indentation of the lines of a triple-quoted shell script. */
  const INDENT := "    "

  /** The lines of a triple-quoted shell script as they appear in the
      script's text: each indented by four spaces. */
  function Indented(lines: seq<string>): (r: seq<string>)
    ensures |r| == |lines|
    ensures forall i :: 0 <= i < |lines| ==> r[i] == INDENT + lines[i]
  {
    if lines == [] then [] else [INDENT + lines[0]] + Indented(lines[1..])
  }

  /** The text of a triple-quoted shell script written as `f"""` followed
      by a line break, the indented lines, and the indented closing quotes:
      a leading line break, every line indented by four spaces and ended by
      a line break, and four trailing spaces. */
  function Script(lines: seq<string>): string {
    JoinWith([""] + Indented(lines) + [INDENT], '\n')
  }

  /** Cutting the script text at its line breaks gives back its lines,
      indented, between the empty first line and the closing indentation. */
  lemma ScriptLines(lines: seq<string>)
    requires forall i :: 0 <= i < |lines| ==> '\n' !in lines[i]
    ensures SplitOn(Script(lines), '\n') == [""] + Indented(lines) + [INDENT]
  {
    var parts := [""] + Indented(lines) + [INDENT];
    ScriptPartsClean(lines, parts);
    SplitJoin(parts, '\n');
  }

  /** No line break in the pieces that `Script` joins. */
  lemma ScriptPartsClean(lines: seq<string>, parts: seq<string>)
    requires forall i :: 0 <= i < |lines| ==> '\n' !in lines[i]
    requires parts == [""] + Indented(lines) + [INDENT]
    ensures |parts| >= 1 && forall i :: 0 <= i < |parts| ==> '\n' !in parts[i]
  {
    var ind := Indented(lines);
    IndentClean();
    IndentedClean(lines);
    forall i | 0 <= i < |parts| ensures '\n' !in parts[i] {
      if i == 0 {
        assert parts[i] == [];
      } else if i == |parts| - 1 {
        assert parts[i] == INDENT;
      } else {
        assert parts[i] == ind[i - 1];
      }
    }
  }

  // the indentation literal on its own, to keep the solver cost low
  lemma IndentClean()
    ensures '\n' !in INDENT
  {
    var pad := INDENT;
    assert |pad| == 4 && pad[0] == ' ' && pad[1] == ' ' && pad[2] == ' ' && pad[3] == ' ';
  }

  /** Indenting adds no line break. */
  lemma IndentedClean(lines: seq<string>)
    requires forall i :: 0 <= i < |lines| ==> '\n' !in lines[i]
    ensures forall i :: 0 <= i < |lines| ==> '\n' !in Indented(lines)[i]
  {
    IndentClean();
    forall i | 0 <= i < |lines| ensures '\n' !in Indented(lines)[i] {
      assert Indented(lines)[i] == INDENT + lines[i];
    }
  }
}

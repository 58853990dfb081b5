# reinvent_docking in Dafny

The repository has three Python scripts. Each one sets up a REINVENT4 reinforcement-learning run whose scoring function docks molecules with AutoDock Vina through DockStream:

- `reinvent_ppar_pipeline__wolffe.py`: the two-target selectivity pipeline, driven by a parameter table.
- `untitled.py`: an earlier version that writes literal documents.
- `pypl.py`: a single-target script of seven numbered steps.

Most of the scripts' work is shelling out. This project models the deterministic logic around those calls:

- the command strings issued, with `untitled.py`'s triple-quoted shell scripts kept as their literal text;
- the existence checks that gate them;
- the first-match search for DockStream;
- the DockStream docking document and the REINVENT staged-learning document, as structured values;
- the three smoke-test verdicts;
- the order in which the steps may run.

Modules:

- `Results`: Option, Result, the Python exceptions the scripts raise, how a run ends (`Completed`, `Raised`, `Exited`), insertion-ordered dicts, and collecting a list in a loop that stops at the first exception.
- `Text`: `split`, `join`, `strip`, `splitlines`, `lower`, `lstrip(ch)`, `replace(ch, '')`, `isdigit`, the `[-n:]` tail, and `in` on strings.
- `Paths`: `pathlib.PurePosixPath`. This covers parsing, `str`, `/`, `parent`, `relative_to` (with its ValueError) and `expanduser`.
- `Shell`: what a script sees of the machine.
  - The file system is the set of existing paths.
  - A shell command's stdout, stderr and return code come from an oracle `run: string -> Proc`.
  - `check=True` raises CalledProcessError exactly when the return code is non-zero.
- `Docking`: `dockstream_config.json`, with its embedding pools and ordered docking runs.
- `Learning`: the staged-learning TOML, as parameters, stages and scoring components with endpoints and transforms.
- `Wolffe`, `Untitled` and `Pypl`: one module per script.

Where a script loops and appends, the model does the same with a `for` loop. That covers `find_dockstream`, `prepare_receptors` and the run loop of `create_dockstream_config`. `create_reinvent_config` builds its component list with three straight-line appends, and the model is a method with the same three appends. Each method is proved against a function of the inputs. Pure parts are functions: the `get_conda_*` helpers, the `run` prefix, the literal documents, the score filter and `untitled.py`'s `__main__`.

`pypl.py` is a top-level script of existence-guarded steps, and it is modelled as methods. Each method is proved equal to running a plan: the plan is the list of commands the checks call for, cut at the first checked command that fails (`Execute`). The plan's gates and order are stated separately, by `PlanGates` and `PlanOrdered`.

Places where the code differs from what a reader of the scripts would expect (the model follows the code):

- The smoke-test failure does not exit non-zero in `reinvent_ppar_pipeline__wolffe.py` or `untitled.py`. Both only print and end normally (`Wolffe.RunMain` and `Untitled.MainFromGating` state `!outcome.Exited?`). Only `pypl.py` calls `sys.exit(1)`.
- The primary target's transform has `high` = -10.0 below `low` = -5.0. This holds in `reinvent_ppar_pipeline__wolffe.py:51-52` and in `untitled.py:147-148`. The values are copied as written, and no `high > low` property is claimed.
- `pypl.py` does not parse the last line as a float. It accepts the run when any stdout line passes a digit filter, and it shows the last line that does.
- `untitled.py` has no existence check before converting the receptors.
- In `reinvent_ppar_pipeline__wolffe.py` the receptor paths are absolute constants, so `BASE_DIR / path` is `path`. `relative_to(BASE_DIR)` therefore raises ValueError unless the script's directory is `/mnt/tank/scratch/YOU_USERNAME/targets` or one of its ancestors (`Wolffe.DefaultDockingDoc`).

## Model

| member | source | states |
|---|---|---|
| Results.Get | reinvent_ppar_pipeline__wolffe.py:265 | A dict lookup finds nothing exactly when no entry has the key. Otherwise the value it returns is the value of an entry with that key. |
| Results.CollectSpec | reinvent_ppar_pipeline__wolffe.py:188-217 | A list built by a loop that stops at the first exception holds every item's value, in order, exactly when every item succeeds. Otherwise the loop ends with the error of the first item that fails. |
| Results.CollectErrorStays | reinvent_ppar_pipeline__wolffe.py:188-217 | Once an item has failed, the items after it do not change how the loop ends. |
| Text.SplitOn | reinvent_ppar_pipeline__wolffe.py:378 | `split(c)` yields at least one piece, and no piece contains `c`. |
| Text.JoinSplit | reinvent_ppar_pipeline__wolffe.py:378 | Joining the pieces of `split(c)` with `c` gives back the string. |
| Text.SplitJoin | reinvent_ppar_pipeline__wolffe.py:140 | Splitting a join of `c`-free pieces gives back the pieces. |
| Text.LastPiece | reinvent_ppar_pipeline__wolffe.py:378 | `split(c)[-1]` is a `c`-free suffix of the string. The suffix is the whole string or is preceded by `c`. |
| Text.LastPieceUnique | reinvent_ppar_pipeline__wolffe.py:378 | Only one suffix has those properties, so `split(c)[-1]` is determined by them. |
| Text.StripLeft | reinvent_ppar_pipeline__wolffe.py:377 | `lstrip()` removes a prefix made only of whitespace and leaves a suffix that starts with a non-space character or is empty. |
| Text.StripRight | reinvent_ppar_pipeline__wolffe.py:377 | `rstrip()` removes a suffix made only of whitespace and leaves a prefix that ends with a non-space character or is empty. |
| Text.StripSpec | reinvent_ppar_pipeline__wolffe.py:377 | `strip()` gives a slice of the text with only whitespace before and after it, and the slice neither starts nor ends with whitespace. |
| Text.SplitLinesSpec | pypl.py:218 | No line that `splitlines()` returns contains a line boundary. |
| Text.LinesFrom | pypl.py:218 | `splitlines()` returns no lines exactly when the text is empty. |
| Text.SplitLinesJoin | pypl.py:218 | Joining boundary-free lines with `\n` and applying `splitlines()` gives back the lines, when the last one is not empty. |
| Text.SplitLinesLast | pypl.py:218 | Whatever text comes first, a non-empty boundary-free line after the last `\n` is the last line `splitlines()` returns. |
| Text.Lower | reinvent_ppar_pipeline__wolffe.py:213-214 | `lower()` keeps the length and lowers each character in place. |
| Text.Tail | reinvent_ppar_pipeline__wolffe.py:382 | `s[-n:]` is the suffix of length `min(n, len(s))`. |
| Text.LStripChar | pypl.py:219 | `lstrip('-')` removes a prefix made only of `-` and leaves a suffix that does not start with `-`. |
| Text.Remove | pypl.py:219 | After `replace('.', '')` no `.` is left, and the text is no longer than before. |
| Text.ContainsAt | pypl.py:58 | `sub in s` holds exactly when `sub` occurs in `s` as a contiguous slice at some index. |
| Paths.Parse | reinvent_ppar_pipeline__wolffe.py:201 | `Path(s)` has only valid components, and it is absolute exactly when `s` starts with `/`. |
| Paths.ParseStr | reinvent_ppar_pipeline__wolffe.py:201 | Parsing the `str` of a valid path gives back the path. |
| Paths.Parent | reinvent_ppar_pipeline__wolffe.py:74 | `parent` drops the last component and keeps absoluteness. The root is its own parent. |
| Paths.RelativeTo | reinvent_ppar_pipeline__wolffe.py:201 | `relative_to(base)` succeeds exactly when `base` is the path or one of its ancestors. The result is relative and leads from `base` back to the path. Otherwise it raises ValueError. |
| Paths.RelativeToJoin | reinvent_ppar_pipeline__wolffe.py:201 | `(base / rel).relative_to(base)` is `rel`. |
| Paths.ExpandUser | untitled.py:31 | `expanduser()` re-roots a relative path whose first component is `~` at the home directory: the result lies under the home directory and leads from it to the rest of the path. A path that does not start with `~` is kept as it is. The `~user` form is not modelled (see "## Left out"). |
| Wolffe.DefaultConfig | reinvent_ppar_pipeline__wolffe.py:91-133 | The script's table has every per-target key the builders look up for both targets: a receptor, a converted receptor, a box, score parameters and a run id. It is in test mode, and its `target_run_ids` is PPARa then PPARg. |
| Wolffe.FindDockstream | reinvent_ppar_pipeline__wolffe.py:70-84 | Returns the first candidate, in order, that holds `docker.py`. Raises FileNotFoundError exactly when no candidate does. |
| Wolffe.CondaBinPath | reinvent_ppar_pipeline__wolffe.py:138-140 | `get_conda_bin` names `<conda base>/envs/<env>/bin`, where the environment name is parsed as a path: its components go between `envs` and `bin`, an absolute name replaces the conda base, and a plain name is one component. |
| Wolffe.CondaPythonInBin | reinvent_ppar_pipeline__wolffe.py:142-144 | `get_conda_python` is `python` inside the directory `get_conda_bin` names. |
| Wolffe.ObabelCommandWords | reinvent_ppar_pipeline__wolffe.py:174-178 | With an environment name and paths free of spaces, the shell splits a conversion into `conda run -n <env>`, then `obabel <pdb> -O <pdbqt> -xr --partialcharge gasteiger`. |
| Wolffe.ConversionsOnlyAbsent | reinvent_ppar_pipeline__wolffe.py:165-180 | Every conversion due is the `obabel ... -xr --partialcharge gasteiger` command of a target whose converted file is absent. |
| Wolffe.PrepareReceptors | reinvent_ppar_pipeline__wolffe.py:158-180 | Visits TARGET_1 then TARGET_2. It issues exactly the conversions of the targets whose converted file is absent, in that order. It stops at the first missing key (KeyError) or failing conversion (CalledProcessError). Every command it issued succeeded, except the last one when a conversion stops it. |
| Wolffe.SearchEntries | reinvent_ppar_pipeline__wolffe.py:203-210 | The search space is built exactly when the box has all six keys. Each entry is `--<key>` with the box's value, in key order. Otherwise it raises KeyError for the first missing key. |
| Wolffe.MakeRunSpec | reinvent_ppar_pipeline__wolffe.py:190-216 | A run is built exactly when the target has a box with all six keys and a receptor inside the working directory. Errors come in the source's order. The run's fields: <br>• run id as given; `AutoDockVina`; pools `["RDkit"]`; 1 pose; 4 cores; <br>• a one-element receptor list holding the path relative to the working directory, which reads back as the receptor file; <br>• `poses/docked_<lower id>.sdf` and `results/scores_<lower id>.csv`; <br>• box entries copied in key order. |
| Wolffe.MakeRunErrors | reinvent_ppar_pipeline__wolffe.py:190-216 | The error half of `MakeRunSpec`: a run is built exactly when the box, the receptor under the working directory and all six box keys are present. Otherwise the error is the missing target's KeyError, then ValueError, then the first missing box key's KeyError. |
| Wolffe.MakeRunFields | reinvent_ppar_pipeline__wolffe.py:194-216 | The field half of `MakeRunSpec`: a built run has every field `RunFields` lists. |
| Wolffe.BuildRuns | reinvent_ppar_pipeline__wolffe.py:188-217 | The loop yields the run of every `target_run_ids` entry, in insertion order, or the error of the first entry that fails. |
| Wolffe.CreateDockstreamConfig | reinvent_ppar_pipeline__wolffe.py:184-233 | Produces the document of one log file, the single RDKit pool and the runs of `BuildRuns`. |
| Wolffe.DockingDocShape | reinvent_ppar_pipeline__wolffe.py:188-233 | The document has one run per `target_run_ids` entry, in order, each with its entry's run id. It has one pool, `RDkit`, and every run reads from it. Its run ids are unique exactly when the table's are. |
| Wolffe.DockingDocErrors | reinvent_ppar_pipeline__wolffe.py:188-217 | The document is built exactly when every entry's run is. Otherwise the builder fails with the KeyError or ValueError of the first entry that fails. |
| Wolffe.DockingDocReceptors | reinvent_ppar_pipeline__wolffe.py:201 | With every box and receptor present, the document is built exactly when every receptor lies inside the working directory. Otherwise the builder raises ValueError. |
| Wolffe.DefaultReceptorPaths | reinvent_ppar_pipeline__wolffe.py:101-104 | Whatever the script directory, the table's receptor files are the absolute constants. |
| Wolffe.DefaultDockingDoc | reinvent_ppar_pipeline__wolffe.py:94-104 | On the script's own table the document is built exactly when the script directory is `/mnt/tank/scratch/YOU_USERNAME/targets` or one of its ancestors. Otherwise it raises ValueError. |
| Wolffe.DefaultScoreKeys | reinvent_ppar_pipeline__wolffe.py:109-131 | The script's table gives both targets score parameters and a run id, and it is in test mode. |
| Wolffe.DefaultBoxesComplete | reinvent_ppar_pipeline__wolffe.py:39-47 | Both boxes have the six box keys. |
| Wolffe.CreateReinventConfig | reinvent_ppar_pipeline__wolffe.py:242-352 | Appends the two docking components, then the three standard ones. It raises KeyError for the first target missing its score parameters or run id. The document has one stage with the step budget of `test_mode`. |
| Wolffe.ScoringComponents | reinvent_ppar_pipeline__wolffe.py:244-323 | 5 steps in test mode and 100 otherwise, in the single stage. Exactly five components, in order: `<target 1>_affinity`, `<target 2>_penalty`, QED, MolecularWeight, custom_alerts. Each docking component names its target's run id and copies its transform type, high, low and k. No other component docks. |
| Wolffe.DockComponentDocks | reinvent_ppar_pipeline__wolffe.py:254-290 | A target's component has one DockStream endpoint that names the given run and copies the score parameters. |
| Wolffe.StandardComponentsShape | reinvent_ppar_pipeline__wolffe.py:293-323 | The three appended components are QED, MolecularWeight and custom_alerts, and none of them docks. |
| Wolffe.CrossReference | reinvent_ppar_pipeline__wolffe.py:253-290 | Every `docking_run_name` of the learning document is the `run_id` of a run in the docking document built from the same table. |
| Wolffe.StagesNameTableRuns | reinvent_ppar_pipeline__wolffe.py:265-285 | The learning document names only the run ids the table gives the two targets. |
| Wolffe.RunIdInDoc | reinvent_ppar_pipeline__wolffe.py:190-192 | The run id the table gives a target is the id of a run of the docking document. |
| Wolffe.TestCommandWords | reinvent_ppar_pipeline__wolffe.py:368-374 | With an environment name and directories free of spaces, the shell splits the smoke test into `conda run -n <env>`, then `python <dockstream>/docker.py -conf <work_dir>/dockstream_config.json -output_prefix test -smiles '<aspirin>' -print_scores`. |
| Wolffe.SmokeCheck | reinvent_ppar_pipeline__wolffe.py:375-383 | The smoke test passes exactly when the last line of the stripped stdout parses as a float. The score shown is the stripped stdout. A failure reports the last min(300, len(stderr)) characters of stderr. |
| Wolffe.LastLineOfStripped | reinvent_ppar_pipeline__wolffe.py:378 | The last line of stripped output that ends in a blank-free line `x` is `x`. |
| Wolffe.SmokePassesOnScore | reinvent_ppar_pipeline__wolffe.py:375-380 | Output that ends by printing `-6.3` passes. |
| Wolffe.SmokeFailsOnError | reinvent_ppar_pipeline__wolffe.py:378-383 | Output that ends with `error: no pose` fails and reports the stderr tail. |
| Wolffe.RunMain | reinvent_ppar_pipeline__wolffe.py:415-435 | The block converts receptors, writes the docking document, then writes the learning document, each only after the previous one succeeded. Each stage can fail only with its own errors. On completion it issued the conversions and the smoke-test command, both documents are the builders' results, and the verdict is `test_dockstream`'s. It never exits non-zero and never launches REINVENT. |
| Wolffe.RunScript | reinvent_ppar_pipeline__wolffe.py:415-435 | The script stops while its table is built exactly when no candidate holds DockStream, and then it raises FileNotFoundError. On the script's own table, once the receptors are converted, it stops while building the docking document exactly when the script directory is neither `/mnt/tank/scratch/YOU_USERNAME/targets` nor one of its ancestors, and then it raises ValueError. It never stops while building the learning document. On completion that document has 5 steps and names only runs of the docking document. |
| Untitled.PythonInBinary | untitled.py:144 | `docker_python_path` is the runs' `binary_location` plus `/python`. |
| Untitled.BinaryLocationPath | untitled.py:74 | `binary_location` reads back as the absolute path `/home/<USER>/anaconda3/envs/<env>/bin`. |
| Untitled.ReceptorScriptLines | untitled.py:44-48 | Cut at its line breaks, the receptor script is an empty line, the activation of the DockStream environment, the conversions of both receptors into `targets/ppar_alpha.pdbqt` and `targets/ppar_gamma.pdbqt`, and the closing indentation. Nothing in it depends on what is on disk. |
| Untitled.SubprocessDir | untitled.py:50 | A `cwd=` string is taken relative to the directory the script is in, without expanding `~`: a relative string gives a directory under it that leads back to the string's own components. An absolute string is taken as it is. |
| Untitled.RunChecked | untitled.py:50 | A checked subprocess ends normally exactly when its directory exists and the command succeeds. A missing directory raises FileNotFoundError. A failing command raises CalledProcessError. |
| Untitled.UntitledDockingRuns | untitled.py:56-109 | The document has exactly two runs, PPARa then PPARg, with distinct ids. Both read from the one declared pool `RDkit`. |
| Untitled.UntitledDockingParameters | untitled.py:68-107 | Both runs: <br>• use the conda binary location and dock one pose against one relative receptor path; <br>• name their outputs after the lower-cased run id; <br>• list the six box keys in order with `--`. |
| Untitled.BoxKeys | untitled.py:78-100 | Both boxes list the six keys in order, each prefixed with `--`. |
| Untitled.UntitledLearningShape | untitled.py:116-186 | One stage with 5 steps in test mode and 100 otherwise. Four components: affinity, penalty, QED, molecular weight. The two docking components name PPARa and PPARg and use the interpreter inside the runs' binary location. |
| Untitled.UntitledCrossReferenced | untitled.py:145-163 | Both `docking_run_name` values are run ids of the docking document. |
| Untitled.TestScriptLines | untitled.py:197-205 | Cut at its line breaks, the test script activates the DockStream environment, changes into `work_dir` and runs `docker.py` as one command continued over five lines, the first four ending in a backslash. |
| Untitled.LaunchScriptLines | untitled.py:221-226 | Cut at its line breaks, the launch script activates the REINVENT environment, changes into `work_dir`, starts REINVENT in the background (the line ends in `&`) and writes its process id to `results/reinvent.pid`. |
| Untitled.SmokeIgnoresOutput | untitled.py:207-214 | The verdict depends on the return code alone: 0 passes, anything else fails, and stdout is never inspected. |
| Untitled.SetupDirectories | untitled.py:30-37 | Afterwards the working directory and its `results/`, `poses/` and `targets/` subdirectories exist. Nothing that existed before is removed, and commands behave as before. |
| Untitled.SetupDirectoriesIdempotent | untitled.py:33-35 | With `exist_ok=True`, setting up twice is setting up once, and a working directory whose three subdirectories exist already is left as it is. |
| Untitled.OpenForWrite | untitled.py:111 | Opening a document for writing succeeds exactly when its directory exists, and otherwise raises FileNotFoundError. |
| Untitled.MainFromGating | untitled.py:258-268 | Once the receptor directory and the document directory exist, the receptor script always runs first, with no existence check. When it succeeds, both documents are written. REINVENT is launched exactly when that script and the smoke test succeed, after the three scripts in order. A failed smoke test ends normally without a launch. Only a failing checked script raises. |
| Untitled.AsWrittenPrepareFails | untitled.py:50 | As written, the receptor subprocess is sent to `<home>/reinvent_docking/~/reinvent_docking`. It raises FileNotFoundError before any conversion, so nothing is launched. |
| Untitled.CwdFixAloneFails | untitled.py:111 | With only the receptor `cwd` corrected, a successful receptor script is followed by FileNotFoundError when `dockstream_config.json` is opened under the unexpanded directory, so nothing is tested or launched. |
| Untitled.MainGating | untitled.py:247-268 | As intended, the receptor script runs in the working directory `setup_directories` created, and when it succeeds both documents are written there. The launch gating is that of `MainFromGating`. |
| Shell.ScriptLines | untitled.py:44-48 | Cutting a triple-quoted script's text at its line breaks gives an empty first line, each script line indented by four spaces, and the closing indentation. |
| Pypl.Run | pypl.py:34-36 | `run(cmd, env)` issues `conda run -n <env> <cmd>` when `env` is truthy and `cmd` unchanged otherwise. |
| Pypl.RunEndsWithCommand | pypl.py:35-36 | The command is always the tail of what is run. The prefix is empty exactly when `env` is falsy. |
| Pypl.ReceptorFilesDistinct | pypl.py:22-24 | The raw, cleaned and converted receptor files are three different paths. |
| Pypl.CommandsNameGatedFiles | pypl.py:54-239 | Each command names the files whose existence the script checks for it: the clone writes the DockStream directory, the download writes the raw structure, the clean reads it and writes the cleaned one, the conversion reads that and writes the converted one. The smoke test reads the docking document of step 4 and the launch reads the learning document of step 5. |
| Pypl.PyplDockingShape | pypl.py:86-126 | A single run `AutoDockVina` reads from the one declared pool `RDkit`. It docks 3 poses against exactly the converted receptor file, with the box verbatim. |
| Pypl.PyplBoxKeys | pypl.py:30-31 | The box lists the six keys in order, each prefixed with `--`. |
| Pypl.ReceptorPathReadsBack | pypl.py:115 | The receptor path in the document reads back as the file step 3 produces, and it is absolute when the home directory is. |
| Pypl.ScoreLineShape | pypl.py:218-219 | A line is kept exactly when its stripped text is a run of `-`, then digits and dots, with at least one digit. |
| Pypl.ScoreTextShape | pypl.py:219 | On stripped text, the `lstrip('-')`, `replace('.', '')`, `isdigit()` chain accepts exactly that shape. |
| Pypl.RemoveDotsDigits | pypl.py:219 | Deleting the dots leaves a non-empty run of digits exactly when the text is digits and dots with at least one digit. |
| Pypl.RemoveDotsAll | pypl.py:219 | Every character left after deleting the dots is a digit exactly when every character was a digit or a dot. |
| Pypl.NoDigitRejected | pypl.py:219 | A line without a digit is never kept. |
| Pypl.ForeignCharRejected | pypl.py:219 | A line holding any character other than blanks, `-`, digits and `.` is never kept. |
| Pypl.ShapedAccepted | pypl.py:218-219 | Number-shaped text without surrounding blanks is kept. |
| Pypl.NegativeDecimalAccepted | pypl.py:218-219 | Every negative decimal `-<digits>.<digits>` is kept. |
| Pypl.VinaScoreKept | pypl.py:206-219 | `-6.3` is kept. |
| Pypl.ErrorDropped | pypl.py:218-219 | `error: no pose` is dropped. |
| Pypl.BlankDropped | pypl.py:218-219 | An empty line and a lone `-` are dropped. |
| Pypl.FilterMap | pypl.py:218-219 | The comprehension keeps at most as many entries as there are lines. |
| Pypl.FilterMapLast | pypl.py:218-221 | Something is kept exactly when the filter accepts some line. The last entry kept is the stripped form of the last accepted line. |
| Pypl.FilterMapOnLast | pypl.py:218-221 | When the last line is accepted, the last entry kept is that line after `f`. |
| Pypl.PyplSmokePasses | pypl.py:215-221 | Step 6 passes exactly when some stdout line passes the filter. The score shown is the stripped last such line. |
| Pypl.PyplSmokeOnLast | pypl.py:215-221 | Whatever it printed before, a run whose stdout ends with a kept line passes step 6 with that line, stripped, as its score. |
| Pypl.PyplSmokeLastLine | pypl.py:215-221 | Output whose last line is kept by the filter passes step 6 with that line, stripped. |
| Pypl.PyplSmokeOnScore | pypl.py:206-221 | A run whose stdout ends with the line `-6.3` passes step 6 with the score `-6.3`. |
| Pypl.PyplSmokeReport | pypl.py:222-223 | A failure reports the last min(800, len(stderr)) characters of stderr. |
| Pypl.ExecuteSpec | pypl.py:34-39 | Running a plan of checked commands: <br>• it issues a prefix of the plan; <br>• it ends normally exactly when every check passes, and then it has issued the whole plan; <br>• it never exits. |
| Pypl.ExecuteRaised | pypl.py:34-39 | A run that raises: every command before the last passed its check, and the last one failed with the error raised. |
| Pypl.ExecuteAppend | pypl.py:50-81 | Running two plans one after the other is running their concatenation. A raise in the first stops everything. |
| Pypl.ExecuteSteps | pypl.py:50-239 | The whole plan runs as steps 2 and 3, then the unchecked smoke test, then possibly the launch. A step that raises stops the rest. |
| Pypl.Issue | pypl.py:34-39 | `run(cmd)` issues the command and raises CalledProcessError when it fails. It is reached only when nothing earlier raised. |
| Pypl.InstallStep | pypl.py:50-64 | Step 2: <br>• the clone only without a DockStream directory; <br>• then the environment listing; <br>• then environment creation, Vina and pdb-tools only when the listing lacks `DockStream`; <br>• in this order, stopping at the first failure. |
| Pypl.ReceptorStep | pypl.py:66-81 | Step 3: download, clean and convert, in this order, each only when its own output file is absent, stopping at the first failure. |
| Pypl.SmokeAndLaunch | pypl.py:205-239 | Steps 6 and 7: <br>• a failed verdict exits with status 1; <br>• a passing one shows its score; <br>• a missing prior model then exits with status 1; <br>• a present one launches REINVENT. |
| Pypl.RunPyplWith | pypl.py:50-239 | The script from step 2 on, for any verdict function: <br>• the commands issued are the plan for what the checks find, cut at the first failing checked command; <br>• it completes exactly when the launch is allowed and succeeds; <br>• when a checked command fails it raises that command's CalledProcessError, the first one only; <br>• otherwise it exits with status 1; <br>• the run stops in step 2 exactly when step 2's commands raise, and in step 3 exactly when step 2 completes and step 3's commands raise; <br>• the docking document is written exactly when steps 2 and 3 together complete without raising; <br>• a score is shown exactly when step 6 is reached and its verdict passes. |
| Pypl.RunPypl | pypl.py:50-239 | The same for step 6's own verdict, including the step at which a raise stops the run, when the docking document is written and when a score is shown. In particular the script stops at the smoke test exactly when it exits there on a failed verdict. |
| Pypl.PlanGates | pypl.py:50-239 | Each command is in the plan exactly when its own gate holds. The launch is in it exactly when the smoke test passes and the prior model exists. |
| Pypl.InstallOrdered | pypl.py:53-62 | Step 2's commands come in the script's order. |
| Pypl.ReceptorOrdered | pypl.py:69-80 | Step 3's commands come in the script's order. |
| Pypl.PlanOrdered | pypl.py:50-239 | The plan issues its commands in the script's order, each at most once. |

## Left out

- Effects of external commands. Running a command changes nothing in the modelled file system: each existence check reads the file system as the script found it, and each path is checked once (in `pypl.py` step 3 the three checks look at three different files, `Pypl.ReceptorFilesDistinct`). Clone, download, conversion, the launched REINVENT process and its pid file are known only by their command strings and their return codes.
- Working directories of most commands. The `cwd=` of the commands in `pypl.py` and of the smoke tests is not modelled. The one cwd that matters, `untitled.py:50`, is modelled.
- JSON and TOML text. Indentation and float `repr` are not modelled. Both documents are datatypes. Numbers are `real` values that are only copied.
- The writing of the documents to disk. This covers `json.dump`, `write_text` and `open(...).write`. `Wolffe.CreateDockstreamConfig` and `Wolffe.CreateReinventConfig` return the documents.
- `pypl.py` step 5 (131-203), a literal TOML text with no logic.
- `pypl.py` step 1 and both `setup_directories`. Directory creation is modelled only as the fact that `untitled.py`'s working directory exists afterwards (`Untitled.SetupDirectories`).
- `os.chdir` in the `__main__` blocks, except in `untitled.py`, where it is what turns `cwd=` into a wrong directory.
- Environment lookups, which are parameters:
  - `conda info --base` is `condaBase`;
  - `USER` is `user`;
  - `Path.home()` is `home`;
  - `Path(__file__).parent.resolve()` is `baseDir`.
- The interactive `input()` prompt of `untitled.py:256` and all `print` output.
- `analyze_results` in both scripts, a thin wrapper over pandas `read_csv` and `nlargest`.
- `reinvent_ppar_pipeline (Копия).py` is not part of this model.
- Wolffe.SmokeCheck: Python's `float()` is the parameter `isFloat`, because its grammar (`inf`, exponents, underscores) belongs to the library, not to the script.
- Text.IsSpace: only ASCII whitespace. Python's `strip()` also removes Unicode spaces such as U+00A0, and these do not occur in the output being parsed.
- Text.IsDigits: only ASCII digits. Python's `isdigit()` also accepts other Unicode digits, such as superscripts.
- Text.Lower: only ASCII letters are lowered, which covers the run ids.
- Text.Tail: requires a positive count, because `s[-0:]` would be the whole string. The scripts use only 300 and 800.
- Text.Remove: its contract states only that the character is gone and the length does not grow. What deleting dots means for the filter is stated by `Pypl.RemoveDotsDigits` and `Pypl.RemoveDotsAll`.
- Pypl.RunPypl takes three parameters, which the script fixes for its home directory:
  - the checked file locations (`FilesOf(home)`);
  - the command texts (`CommandsOf(home)`);
  - the docking document (`PyplDockingDoc(home)`).

  `Pypl.RunPyplWith` also takes the smoke-test verdict as a parameter, and `RunPypl` fixes it to `PyplSmokeCheck`.
- Untitled.MainFrom: of the two document writes (`untitled.py:111`, `untitled.py:188`) only the opening of the file is modelled, as a check that its directory exists. Both resolve the same directory, so the model stops at the first document when that directory is missing.
- Wolffe.Config: the top-level `CONFIG` keys and the fields of a score-parameter entry (`transform`, `high`, `low`, `k`, read at `reinvent_ppar_pipeline__wolffe.py:266-269`) are record fields, so a KeyError for one of them missing cannot be expressed. Only the per-target lookups into the tables can fail.
- Paths.ExpandUser: only the bare `~` form is modelled. A first component `~alice` is kept unchanged. Python's `expanduser()` would replace it with that user's home directory, or raise RuntimeError when there is none. The scripts only expand `~/reinvent_docking` (`untitled.py:24`). `Untitled.MainGating` ranges over every working directory, so for a `~user` directory it describes the unexpanded path.
- Paths.Parse: a path that starts with exactly two slashes is folded into one absolute root. Python's `PurePosixPath` keeps `//` as a separate anchor. No path in the scripts starts that way.

## Findings

| source | as written | input that shows it | evidently intended | confidence | as-written member | corrected member |
|---|---|---|---|---|---|---|
| untitled.py:50 | The process has already changed into the expanded working directory (`untitled.py:251-252`). The receptor subprocess is then given `cwd="~/reinvent_docking"`, which `subprocess` does not expand. It resolves to `<home>/reinvent_docking/~/reinvent_docking`. | the script's own `CONFIG`, any home directory without a `reinvent_docking/~/reinvent_docking` subdirectory: FileNotFoundError before any conversion | the receptor script (line 50) and the two document writes (`untitled.py:111`, `untitled.py:188`) all use the working directory that `setup_directories` created. The writes resolve the same unexpanded string, so the smoke test and launch follow only once all three are corrected; correcting line 50 alone fails at line 111 (`Untitled.CwdFixAloneFails`) | not executed | Untitled.AsWrittenPrepareFails | Untitled.MainGating |

/** The checkpointed sweep runner of `scripts/alpha_sweep.py`: it validates
    result files, builds the command line of each simulation, splits the fixed
    list of simulations into those to run and those already complete, runs the
    former one by one and records each outcome in a checkpoint.

    The file system, the JSON checkpoint file, the subprocess and the
    confirmation prompt are inputs: `files` maps a path to what `read_hdf`
    would find there, `stored` is what `load_checkpoint` would read, `execute`
    says what running a simulation's command leads to, `response` is the
    line typed at the prompt. */
module AlphaSweep {
  import opened Common

  // ---------------------------------------------------------------------------
  // Result files
  // ---------------------------------------------------------------------------

  /** A results file as `pd.read_hdf(path, 'results')` finds it. */
  datatype StoredFile = Unreadable | Table(rows: nat, columns: set<string>)

  const RequiredColumns: seq<string> := ["M1_initial", "M2_initial", "P_initial", "Z"]

  /** The required columns a table lacks, in the order they are listed. */
  function MissingColumns(required: seq<string>, columns: set<string>): (missing: seq<string>)
    ensures forall c :: c in missing <==> c in required && c !in columns
  {
    if required == [] then []
    else
      var rest := MissingColumns(required[1..], columns);
      assert forall c :: c in required <==> c == required[0] || c in required[1..];
      if required[0] in columns then rest else [required[0]] + rest
  }

  /** `validate_hdf5(path)`; `None` is a path with no file, where reading raises. */
  function ValidateHdf5(file: Option<StoredFile>): (ok: bool)
    ensures ok <==> file.Some? && file.value.Table? && file.value.rows > 0
                    && forall c :: c in RequiredColumns ==> c in file.value.columns
  {
    match file
    case None => false
    case Some(Unreadable) => false
    case Some(Table(rows, columns)) =>
      var missing := MissingColumns(RequiredColumns, columns);
      assert missing != [] ==> missing[0] in missing;
      if rows == 0 then false else missing == []
  }

  function FileAt(files: map<string, StoredFile>, path: string): Option<StoredFile>
  {
    if path in files then Some(files[path]) else None
  }

  // ---------------------------------------------------------------------------
  // Simulation configurations and their command lines
  // ---------------------------------------------------------------------------

  /** One entry of SIMULATIONS. Numbers are held in the text that Python's
      `str()` gives them; `params` is the insertion-ordered `params` dict. */
  datatype SimConfig = SimConfig(
    name: string,
    metallicity: string,
    alphaCE: string,
    output: string,
    nSystems: string,
    params: seq<(string, string)>)

  function GridParams(): seq<(string, string)>
  {
    [("M1_min", "10"), ("M1_max", "20"), ("M1_samples", "10"),
     ("M2_min", "8"), ("M2_max", "15"), ("M2_samples", "10"),
     ("P_min", "50"), ("P_max", "500"), ("P_samples", "20")]
  }

  /** SIMULATIONS: two metallicities times two CE efficiencies. */
  function Simulations(): seq<SimConfig>
  {
    [SimConfig("Low Z, α=1.0", "0.001", "1.0", "data/low_Z_alpha1p0.h5", "200", GridParams()),
     SimConfig("Low Z, α=2.0", "0.001", "2.0", "data/low_Z_alpha2p0.h5", "200", GridParams()),
     SimConfig("Mid Z, α=1.0", "0.006", "1.0", "data/mid_Z_alpha1p0.h5", "200", GridParams()),
     SimConfig("Mid Z, α=2.0", "0.006", "2.0", "data/mid_Z_alpha2p0.h5", "200", GridParams())]
  }

  ghost predicate DistinctNames(sims: seq<SimConfig>)
  {
    forall i, j :: 0 <= i < j < |sims| ==> sims[i].name != sims[j].name
  }

  lemma SimulationsHaveDistinctNames()
    ensures DistinctNames(Simulations())
  {
  }

  /** Reads `--key value` pairs back from the tail of a command line. */
  function ReadPairs(tokens: seq<string>): seq<(string, string)>
  {
    if |tokens| < 2 then []
    else
      var flag := tokens[0];
      var key := if |flag| >= 2 && flag[..2] == "--" then flag[2..] else flag;
      [(key, tokens[1])] + ReadPairs(tokens[2..])
  }

  ghost predicate RendersParams(tokens: seq<string>, params: seq<(string, string)>)
  {
    && |tokens| == 2 * |params|
    && forall k :: 0 <= k < |params| ==>
         tokens[2 * k] == "--" + params[k].0 && tokens[2 * k + 1] == params[k].1
  }

  /** The parameter flags of a command line give back the parameters. */
  lemma {:induction false} ReadPairsOfRendering(tokens: seq<string>, params: seq<(string, string)>)
    requires RendersParams(tokens, params)
    ensures ReadPairs(tokens) == params
  {
    if params != [] {
      var rest := tokens[2..];
      assert RendersParams(rest, params[1..]) by {
        forall k | 0 <= k < |params[1..]|
          ensures rest[2 * k] == "--" + params[1..][k].0 && rest[2 * k + 1] == params[1..][k].1
        {
          assert rest[2 * k] == tokens[2 * (k + 1)];
          assert rest[2 * k + 1] == tokens[2 * (k + 1) + 1];
        }
      }
      ReadPairsOfRendering(rest, params[1..]);
      var flag := tokens[0];
      assert flag == "--" + params[0].0;
      assert flag[..2] == "--" && flag[2..] == params[0].0;
    }
  }

  /** `build_command(sim_config)`: the fixed ten tokens, then one `--key value`
      pair per parameter, in insertion order. */
  method BuildCommand(cfg: SimConfig) returns (cmd: seq<string>)
    ensures |cmd| == 10 + 2 * |cfg.params|
    ensures cmd[..10] == ["python", "run_population.py",
                          "--metallicity", cfg.metallicity,
                          "--alpha_CE", cfg.alphaCE,
                          "--n_systems", cfg.nSystems,
                          "--output", cfg.output]
    ensures forall k :: 0 <= k < |cfg.params| ==>
              cmd[10 + 2 * k] == "--" + cfg.params[k].0 && cmd[11 + 2 * k] == cfg.params[k].1
    ensures ReadPairs(cmd[10..]) == cfg.params
  {
    cmd := ["python", "run_population.py",
            "--metallicity", cfg.metallicity,
            "--alpha_CE", cfg.alphaCE,
            "--n_systems", cfg.nSystems,
            "--output", cfg.output];
    var i := 0;
    while i < |cfg.params|
      invariant 0 <= i <= |cfg.params|
      invariant |cmd| == 10 + 2 * i
      invariant cmd[..10] == ["python", "run_population.py",
                              "--metallicity", cfg.metallicity,
                              "--alpha_CE", cfg.alphaCE,
                              "--n_systems", cfg.nSystems,
                              "--output", cfg.output]
      invariant forall k :: 0 <= k < i ==>
                  cmd[10 + 2 * k] == "--" + cfg.params[k].0 && cmd[11 + 2 * k] == cfg.params[k].1
    {
      var (key, value) := cfg.params[i];
      cmd := cmd + ["--" + key, value];
      i := i + 1;
    }
    assert RendersParams(cmd[10..], cfg.params);
    ReadPairsOfRendering(cmd[10..], cfg.params);
  }

  // ---------------------------------------------------------------------------
  // Running one simulation
  // ---------------------------------------------------------------------------

  /** What running a simulation's command leads to: the process exits with a
      return code, leaving `output` at the configured path (None: no file), or
      it is killed at the two-hour timeout, or launching it raises. */
  datatype RunReport =
    | Exited(returnCode: int, output: Option<StoredFile>)
    | TimedOut
    | LaunchFailed(error: string)

  /** The message `run_simulation` returns next to its success flag. Entries
      read from an existing checkpoint file keep their text as `Stored`. */
  datatype Message =
    | Succeeded
    | DryRunOnly
    | ValidationFailed
    | ExitCode(code: int)
    | Timeout
    | Raised(error: string)
    | Stored(text: string)

  /** `run_simulation(sim_config, dry_run)`, after the subprocess has run. */
  function RunSimulation(dryRun: bool, report: RunReport): (r: (bool, Message))
    ensures r.0 <==> dryRun || (report.Exited? && report.returnCode == 0 && ValidateHdf5(report.output))
    ensures !dryRun && report.Exited? && report.returnCode != 0 ==> r.1 == ExitCode(report.returnCode)
    ensures !dryRun && report.TimedOut? ==> r.1 == Timeout
  {
    if dryRun then (true, DryRunOnly)
    else
      match report
      case Exited(code, output) =>
        if code == 0 then
          if ValidateHdf5(output) then (true, Succeeded) else (false, ValidationFailed)
        else (false, ExitCode(code))
      case TimedOut => (false, Timeout)
      case LaunchFailed(e) => (false, Raised(e))
  }

  // ---------------------------------------------------------------------------
  // The checkpoint
  // ---------------------------------------------------------------------------

  /** A checkpoint entry; `status` is None when a loaded entry has no status. */
  datatype Entry = Entry(status: Option<string>, message: Message)

  type Checkpoint = map<string, Entry>

  /** `load_checkpoint() if args.resume else {}`; `stored` is None when the file
      is absent or cannot be parsed, both of which give `{}`. */
  function InitialCheckpoint(resume: bool, stored: Option<Checkpoint>): (cp: Checkpoint)
    ensures !resume ==> cp == map[]
    ensures resume && stored.Some? ==> cp == stored.value
  {
    if resume && stored.Some? then stored.value else map[]
  }

  /** The checkpoint entry written after a simulation ran. */
  function EntryFor(report: RunReport): (e: Entry)
    ensures e.status == Some("complete") <==> RunSimulation(false, report).0
    ensures e.status == Some("complete") || e.status == Some("failed")
  {
    var (success, message) := RunSimulation(false, report);
    Entry(Some(if success then "complete" else "failed"), message)
  }

  /** The checkpoint after recording, in order, the simulations in `done`. */
  function Recorded(cp: Checkpoint, done: seq<SimConfig>, execute: SimConfig -> RunReport): Checkpoint
  {
    if done == [] then cp
    else
      var last := done[|done| - 1];
      Recorded(cp, done[..|done| - 1], execute)[last.name := EntryFor(execute(last))]
  }

  /** After recording distinct simulations, a recorded name's status is
      "complete" exactly when its run succeeded, and every other name keeps the
      entry (or the absence of one) it had before. */
  lemma {:induction false} RecordedEntries(cp: Checkpoint, done: seq<SimConfig>, execute: SimConfig -> RunReport)
    requires DistinctNames(done)
    ensures forall k :: 0 <= k < |done| ==>
              done[k].name in Recorded(cp, done, execute)
              && Recorded(cp, done, execute)[done[k].name] == EntryFor(execute(done[k]))
              && (Recorded(cp, done, execute)[done[k].name].status == Some("complete")
                  <==> RunSimulation(false, execute(done[k])).0)
    ensures forall name :: (forall k :: 0 <= k < |done| ==> done[k].name != name) ==>
              (name in Recorded(cp, done, execute) <==> name in cp)
              && (name in cp ==> Recorded(cp, done, execute)[name] == cp[name])
  {
    if done != [] {
      var init := done[..|done| - 1];
      assert DistinctNames(init);
      RecordedEntries(cp, init, execute);
      forall k | 0 <= k < |init|
        ensures done[k].name != done[|done| - 1].name && init[k] == done[k]
      {
      }
    }
  }

  /** The checkpoints saved while recording `done`: one after each simulation. */
  function Snapshots(cp: Checkpoint, done: seq<SimConfig>, execute: SimConfig -> RunReport): seq<Checkpoint>
  {
    if done == [] then []
    else Snapshots(cp, done[..|done| - 1], execute) + [Recorded(cp, done, execute)]
  }

  /** One checkpoint is saved per simulation, the k-th holding the outcomes
      of the first k + 1 simulations. */
  lemma {:induction false} SnapshotsAfterEach(cp: Checkpoint, done: seq<SimConfig>, execute: SimConfig -> RunReport)
    ensures |Snapshots(cp, done, execute)| == |done|
    ensures forall k :: 0 <= k < |done| ==> Snapshots(cp, done, execute)[k] == Recorded(cp, done[..k + 1], execute)
  {
    if done != [] {
      var init := done[..|done| - 1];
      SnapshotsAfterEach(cp, init, execute);
      assert Snapshots(cp, done, execute) == Snapshots(cp, init, execute) + [Recorded(cp, done, execute)];
      forall k | 0 <= k < |done|
        ensures Snapshots(cp, done, execute)[k] == Recorded(cp, done[..k + 1], execute)
      {
        if k < |init| {
          assert init[..k + 1] == done[..k + 1];
        } else {
          assert done[..k + 1] == done;
        }
      }
    }
  }

  function Successes(done: seq<SimConfig>, execute: SimConfig -> RunReport): (n: nat)
    ensures n <= |done|
  {
    if done == [] then 0
    else Successes(done[..|done| - 1], execute) + (if RunSimulation(false, execute(done[|done| - 1])).0 then 1 else 0)
  }

  // ---------------------------------------------------------------------------
  // Planning
  // ---------------------------------------------------------------------------

  /** A simulation counts as complete when its output exists and validates, or
      when the checkpoint marks it "complete". */
  predicate AlreadyComplete(sim: SimConfig, files: map<string, StoredFile>, cp: Checkpoint)
  {
    (sim.output in files && ValidateHdf5(FileAt(files, sim.output)))
    || (sim.name in cp && cp[sim.name].status == Some("complete"))
  }

  /** The simulations of `sims` whose completeness is `complete`, in order. */
  function Select(sims: seq<SimConfig>, files: map<string, StoredFile>, cp: Checkpoint, complete: bool): seq<SimConfig>
  {
    if sims == [] then []
    else
      var init := Select(sims[..|sims| - 1], files, cp, complete);
      if AlreadyComplete(sims[|sims| - 1], files, cp) == complete then init + [sims[|sims| - 1]] else init
  }

  /** Selecting the complete and the incomplete simulations partitions the
      list: together they are the list ... */
  lemma {:induction false} SelectPartitions(sims: seq<SimConfig>, files: map<string, StoredFile>, cp: Checkpoint)
    ensures multiset(Select(sims, files, cp, false)) + multiset(Select(sims, files, cp, true)) == multiset(sims)
  {
    if sims != [] {
      var init := sims[..|sims| - 1];
      SelectPartitions(init, files, cp);
      assert sims == init + [sims[|sims| - 1]];
    }
  }

  /** ... and each holds only simulations of its own kind. */
  lemma {:induction false} SelectKinds(sims: seq<SimConfig>, files: map<string, StoredFile>, cp: Checkpoint)
    ensures forall s :: s in Select(sims, files, cp, false) ==> s in sims && !AlreadyComplete(s, files, cp)
    ensures forall s :: s in Select(sims, files, cp, true) ==> s in sims && AlreadyComplete(s, files, cp)
  {
    if sims != [] {
      var init := sims[..|sims| - 1];
      SelectKinds(init, files, cp);
      assert forall s :: s in init ==> s in sims;
    }
  }

  /** Scanning one more simulation adds it to exactly one of the two lists. */
  lemma SelectSnoc(sims: seq<SimConfig>, sim: SimConfig, files: map<string, StoredFile>, cp: Checkpoint)
    ensures Select(sims + [sim], files, cp, false)
              == Select(sims, files, cp, false) + (if AlreadyComplete(sim, files, cp) then [] else [sim])
    ensures Select(sims + [sim], files, cp, true)
              == Select(sims, files, cp, true) + (if AlreadyComplete(sim, files, cp) then [sim] else [])
  {
    assert (sims + [sim])[..|sims|] == sims;
  }

  /** The scan keeps its simulations in list order, so simulations with
      distinct names give a plan with distinct names. */
  lemma {:induction false} SelectKeepsDistinctNames(sims: seq<SimConfig>, files: map<string, StoredFile>,
                                                    cp: Checkpoint, complete: bool)
    requires DistinctNames(sims)
    ensures DistinctNames(Select(sims, files, cp, complete))
  {
    if sims != [] {
      var init := sims[..|sims| - 1];
      var last := sims[|sims| - 1];
      var sel := Select(init, files, cp, complete);
      assert DistinctNames(init);
      SelectKeepsDistinctNames(init, files, cp, complete);
      SelectKinds(init, files, cp);
      assert forall s :: s in sel ==> s in init by {
        if complete {
          assert sel == Select(init, files, cp, true);
        } else {
          assert sel == Select(init, files, cp, false);
        }
      }
      forall s | s in sel
        ensures s.name != last.name
      {
        var i :| 0 <= i < |init| && init[i] == s;
        assert sims[i] == s;
      }
      assert forall i :: 0 <= i < |sel| ==> sel[i] in sel;
    }
  }

  /** Running a prefix of the plan of distinctly named simulations leaves, for
      each simulation run, a status that is "complete" exactly when it
      succeeded, and every other entry as it was. */
  lemma PlanPrefixEntries(sims: seq<SimConfig>, files: map<string, StoredFile>, cp: Checkpoint,
                          processed: seq<SimConfig>, execute: SimConfig -> RunReport)
    requires DistinctNames(sims)
    requires |processed| <= |Select(sims, files, cp, false)|
    requires processed == Select(sims, files, cp, false)[..|processed|]
    ensures forall k :: 0 <= k < |processed| ==>
              processed[k].name in Recorded(cp, processed, execute)
              && (Recorded(cp, processed, execute)[processed[k].name].status == Some("complete")
                  <==> RunSimulation(false, execute(processed[k])).0)
    ensures forall name :: (forall k :: 0 <= k < |processed| ==> processed[k].name != name) ==>
              (name in Recorded(cp, processed, execute) <==> name in cp)
              && (name in cp ==> Recorded(cp, processed, execute)[name] == cp[name])
  {
    var plan := Select(sims, files, cp, false);
    SelectKeepsDistinctNames(sims, files, cp, false);
    assert forall i :: 0 <= i < |processed| ==> processed[i] == plan[i];
    assert DistinctNames(processed);
    RecordedEntries(cp, processed, execute);
  }

  /** The checks of the scan for one simulation: a valid output file, then a
      "complete" status in the checkpoint. */
  method IsComplete(sim: SimConfig, files: map<string, StoredFile>, cp: Checkpoint) returns (complete: bool)
    ensures complete == AlreadyComplete(sim, files, cp)
  {
    var output := FileAt(files, sim.output);
    if output.Some? && ValidateHdf5(output) {
      return true;
    }
    if sim.name in cp {
      var status := cp[sim.name].status;
      if status == Some("complete") {
        return true;
      }
    }
    return false;
  }

  /** The scan over SIMULATIONS: each simulation goes to `toRun` or to
      `skipped`, both in list order. */
  method Plan(sims: seq<SimConfig>, files: map<string, StoredFile>, cp: Checkpoint)
    returns (toRun: seq<SimConfig>, skipped: seq<SimConfig>)
    ensures toRun == Select(sims, files, cp, false)
    ensures skipped == Select(sims, files, cp, true)
    ensures |toRun| + |skipped| == |sims|
  {
    toRun, skipped := [], [];
    for i := 0 to |sims|
      invariant toRun == Select(sims[..i], files, cp, false)
      invariant skipped == Select(sims[..i], files, cp, true)
    {
      var sim := sims[i];
      assert sims[..i + 1] == sims[..i] + [sim];
      SelectSnoc(sims[..i], sim, files, cp);
      var complete := IsComplete(sim, files, cp);
      if complete {
        skipped := skipped + [sim];
      } else {
        toRun := toRun + [sim];
      }
    }
    assert sims[..|sims|] == sims;
    SelectPartitions(sims, files, cp);
    assert |multiset(sims)| == |multiset(toRun)| + |multiset(skipped)|;
  }

  // ---------------------------------------------------------------------------
  // The sweep
  // ---------------------------------------------------------------------------

  /** The command-line flags `run_sweep` reads. */
  datatype Args = Args(resume: bool, dryRun: bool, stopOnError: bool, yes: bool)

  /** The user declines at the prompt: it is shown unless `--yes`, and only "y"
      (in any case) continues. */
  predicate Declined(args: Args, response: string)
  {
    !args.yes && Lower(response) != "y"
  }

  /** Recording one more simulation updates its entry, saves one more
      checkpoint and counts its success. */
  lemma RecordOne(cp: Checkpoint, done: seq<SimConfig>, sim: SimConfig, execute: SimConfig -> RunReport)
    ensures Recorded(cp, done + [sim], execute) == Recorded(cp, done, execute)[sim.name := EntryFor(execute(sim))]
    ensures Snapshots(cp, done + [sim], execute) == Snapshots(cp, done, execute) + [Recorded(cp, done + [sim], execute)]
    ensures Successes(done + [sim], execute) == Successes(done, execute) + (if RunSimulation(false, execute(sim)).0 then 1 else 0)
    ensures EntryFor(execute(sim)) == Entry(Some(if RunSimulation(false, execute(sim)).0 then "complete" else "failed"),
                                            RunSimulation(false, execute(sim)).1)
  {
    assert (done + [sim])[..|done|] == done;
  }

  /** One pass of the run loop: run `sim`, record its outcome in the
      checkpoint, save the checkpoint and bump a counter. */
  method RunAndRecord(cp0: Checkpoint, done: seq<SimConfig>, sim: SimConfig, execute: SimConfig -> RunReport,
                      checkpoint: Checkpoint, saves: seq<Checkpoint>, successes: nat, failures: nat)
    returns (success: bool, checkpoint': Checkpoint, saves': seq<Checkpoint>, successes': nat, failures': nat)
    requires checkpoint == Recorded(cp0, done, execute)
    requires saves == Snapshots(cp0, done, execute)
    requires successes == Successes(done, execute)
    ensures success == RunSimulation(false, execute(sim)).0
    ensures checkpoint' == Recorded(cp0, done + [sim], execute)
    ensures saves' == Snapshots(cp0, done + [sim], execute)
    ensures successes' == Successes(done + [sim], execute)
    ensures failures' == if success then failures else failures + 1
  {
    RecordOne(cp0, done, sim, execute);
    var outcome := RunSimulation(false, execute(sim));
    success := outcome.0;
    checkpoint' := checkpoint[sim.name := Entry(Some(if success then "complete" else "failed"), outcome.1)];
    saves' := saves + [checkpoint'];
    if success {
      successes', failures' := successes + 1, failures;
    } else {
      successes', failures' := successes, failures + 1;
    }
  }

  /** Every simulation of `ps` ran successfully. */
  predicate AllSucceed(ps: seq<SimConfig>, execute: SimConfig -> RunReport)
  {
    forall k :: 0 <= k < |ps| ==> RunSimulation(false, execute(ps[k])).0
  }

  lemma TakeOneMore<T>(s: seq<T>, i: nat)
    requires i < |s|
    ensures s[..i + 1] == s[..i] + [s[i]]
  {
  }

  /** The run loop of `run_sweep`: each planned simulation is run, its
      outcome recorded in the checkpoint, the checkpoint saved and a counter
      bumped; under --stop-on-error the loop ends after the first failure. */
  method ExecutePlan(cp0: Checkpoint, toRun: seq<SimConfig>, stopOnError: bool,
                     execute: SimConfig -> RunReport)
    returns (processed: seq<SimConfig>, successes: nat, failures: nat,
             checkpoint: Checkpoint, saves: seq<Checkpoint>)
    ensures |processed| <= |toRun| && processed == toRun[..|processed|]
    ensures |toRun| > 0 ==> |processed| >= 1
    ensures checkpoint == Recorded(cp0, processed, execute)
    ensures saves == Snapshots(cp0, processed, execute)
    ensures successes == Successes(processed, execute)
    ensures successes + failures == |processed|
    ensures stopOnError ==> failures <= 1
    ensures stopOnError ==> forall k :: 0 <= k < |processed| - 1 ==> RunSimulation(false, execute(processed[k])).0
    ensures |processed| < |toRun| ==> stopOnError && !RunSimulation(false, execute(processed[|processed| - 1])).0
  {
    processed, successes, failures, checkpoint, saves := [], 0, 0, cp0, [];
    var stopped := false;
    while |processed| < |toRun| && !stopped
      invariant |processed| <= |toRun| && processed == toRun[..|processed|]
      invariant checkpoint == Recorded(cp0, processed, execute)
      invariant saves == Snapshots(cp0, processed, execute)
      invariant successes == Successes(processed, execute) && successes + failures == |processed|
      invariant stopOnError && !stopped ==> failures == 0 && AllSucceed(processed, execute)
      invariant stopped ==> stopOnError && failures == 1 && |processed| >= 1
                            && AllSucceed(processed[..|processed| - 1], execute)
                            && !RunSimulation(false, execute(processed[|processed| - 1])).0
      decreases |toRun| - |processed|, !stopped
    {
      var sim := toRun[|processed|];
      var success;
      success, checkpoint, saves, successes, failures :=
        RunAndRecord(cp0, processed, sim, execute, checkpoint, saves, successes, failures);
      TakeOneMore(toRun, |processed|);
      assert (processed + [sim])[..|processed|] == processed;
      processed := processed + [sim];
      if !success && stopOnError {
        stopped := true;
      }
    }
    if stopped {
      assert processed[..|processed| - 1] + [processed[|processed| - 1]] == processed;
    }
  }

  /** `run_sweep(args)`. Besides the verdict it returns the plan, the
      simulations it ran, the counters, the final checkpoint and every
      checkpoint it saved, in order. */
  method RunSweep(sims: seq<SimConfig>, args: Args, stored: Option<Checkpoint>,
                  files: map<string, StoredFile>, response: string,
                  execute: SimConfig -> RunReport)
    returns (ok: bool, toRun: seq<SimConfig>, skipped: seq<SimConfig>, processed: seq<SimConfig>,
             successes: nat, failures: nat, checkpoint: Checkpoint, saves: seq<Checkpoint>)
    ensures toRun == Select(sims, files, InitialCheckpoint(args.resume, stored), false)
    ensures skipped == Select(sims, files, InitialCheckpoint(args.resume, stored), true)
    // Nothing to run, a dry run, or a refusal: nothing runs and nothing is saved.
    ensures (|toRun| == 0 || args.dryRun || Declined(args, response)) ==>
              processed == [] && saves == [] && successes == 0 && failures == 0
              && checkpoint == InitialCheckpoint(args.resume, stored)
    ensures (|toRun| == 0 || args.dryRun) ==> ok
    // Otherwise the simulations run in plan order, each recorded and saved.
    ensures |processed| <= |toRun| && processed == toRun[..|processed|]
    ensures !(|toRun| == 0 || args.dryRun || Declined(args, response)) ==> |processed| >= 1
    ensures checkpoint == Recorded(InitialCheckpoint(args.resume, stored), processed, execute)
    ensures saves == Snapshots(InitialCheckpoint(args.resume, stored), processed, execute)
    ensures successes == Successes(processed, execute)
    ensures successes + failures == |processed|
    // The run stops early only after a failure under --stop-on-error.
    ensures args.stopOnError ==> failures <= 1
    ensures args.stopOnError ==> forall k :: 0 <= k < |processed| - 1 ==> RunSimulation(false, execute(processed[k])).0
    ensures |processed| < |toRun| && !(|toRun| == 0 || args.dryRun || Declined(args, response)) ==>
              args.stopOnError && !RunSimulation(false, execute(processed[|processed| - 1])).0
    // The verdict.
    ensures !ok <==> (|toRun| > 0 && !args.dryRun && Declined(args, response)) || failures > 0
    // Over SIMULATIONS, the checkpoint says "complete" for a simulation run
    // exactly when it succeeded, and leaves every other entry as it was.
    ensures sims == Simulations() ==>
              forall k :: 0 <= k < |processed| ==>
                processed[k].name in checkpoint
                && (checkpoint[processed[k].name].status == Some("complete")
                    <==> RunSimulation(false, execute(processed[k])).0)
    ensures sims == Simulations() ==>
              forall name :: (forall k :: 0 <= k < |processed| ==> processed[k].name != name) ==>
                (name in checkpoint <==> name in InitialCheckpoint(args.resume, stored))
                && (name in InitialCheckpoint(args.resume, stored) ==>
                      checkpoint[name] == InitialCheckpoint(args.resume, stored)[name])
  {
    var cp := InitialCheckpoint(args.resume, stored);
    toRun, skipped := Plan(sims, files, cp);
    processed, successes, failures, checkpoint, saves := [], 0, 0, cp, [];
    if |toRun| == 0 || args.dryRun {
      ok := true;
    } else if !args.yes && Lower(response) != "y" {
      ok := false;
    } else {
      processed, successes, failures, checkpoint, saves := ExecutePlan(cp, toRun, args.stopOnError, execute);
      ok := failures == 0;
    }
    if sims == Simulations() {
      SimulationsHaveDistinctNames();
      PlanPrefixEntries(sims, files, cp, processed, execute);
    }
  }
}

/**
 Hosted runs: no state file outlives a run. Each run restores one from the exports of all runs before it
 (src/pipeline/history.py), is killed wherever it is killed, and exports the rows it appended. Such a
 campaign refines the one that keeps appending to a single file: the exports put together are its log, and
 every step of every run is a step of it.
 */
module Hosted {
  import opened Wrappers
  import opened Schemas
  import opened Settlement
  import opened Protocol
  import opened Host
  import opened Runner
  import opened Pipeline
  import History

  /** The restored file reads like the full record, and holds nothing else. */
  ghost predicate Restores(seed: seq<Candidate>, full: seq<Candidate>) {
    && (forall id :: Latest(seed, id) == Latest(full, id))
    && (forall row :: row in seed ==> row in full)
  }

  /** The snapshot with the full record in place of the restored file. */
  function Continued(s: Snapshot, seed: seq<Candidate>, full: seq<Candidate>): Snapshot
    requires seed <= s.log
  {
    s.(log := full + s.log[|seed|..])
  }

  // ---- what is restored --------------------------------------------------------------------------

  lemma {:induction false} PutAddsOnly(table: seq<Candidate>, c: Candidate)
    ensures forall x :: x in History.Put(table, c) ==> x in table || x == c
  {
    if table != [] && table[0].candidateId != c.candidateId {
      PutAddsOnly(table[1..], c);
    }
  }

  lemma {:induction false} CollapseAddsNothing(rows: seq<Candidate>)
    ensures forall x :: x in History.Collapse(rows) ==> x in rows
  {
    if rows != [] {
      var n := |rows| - 1;
      CollapseAddsNothing(rows[..n]);
      PutAddsOnly(History.Collapse(rows[..n]), rows[n]);
    }
  }

  /** Seeding from the full record of a safe snapshot restores it, and the restored snapshot is safe. */
  lemma SeedIsSafe(w: World, full: seq<Candidate>)
    requires Invariant(Snapshot(w, full))
    ensures var seed := History.Collapse(History.Accepted(full));
            Restores(seed, full) && Invariant(Snapshot(w, seed))
  {
    hide Latest, RowKnown, History.Collapse;
    History.WellFormedIsAccepted(full);
    var seed := History.Collapse(full);
    History.CollapseKeepsLatest(full);
    CollapseAddsNothing(full);
    OneRowEachIsSafe(w, full, seed);
  }

  lemma OneRowEachIsSafe(w: World, full: seq<Candidate>, seed: seq<Candidate>)
    requires Invariant(Snapshot(w, full)) && Restores(seed, full) && History.OneRowEach(seed)
    ensures Invariant(Snapshot(w, seed))
  {
    hide RowKnown, Latest;
    var s, t := Snapshot(w, full), Snapshot(w, seed);
    forall k | 0 <= k < |seed|
      ensures RowKnown(w, seed[k]) && Admitted(seed[..k], seed[k]) && HeadKept(seed[..k], seed[k])
    {
      assert seed[k] in full;
      LoggedRowIsKnown(s, seed[k]);
      FirstOfItsCandidate(seed, k);
    }
    forall k | 0 <= k < |w.ledger| ensures LedgerBacked(t, w.ledger[k]) {
      assert LedgerBacked(s, w.ledger[k]);
    }
  }

  lemma FirstOfItsCandidate(table: seq<Candidate>, k: nat)
    requires History.OneRowEach(table) && k < |table|
    ensures Latest(table[..k], table[k].candidateId).None?
  {}

  // ---- every hosted step is a continuous one -------------------------------------------------------

  lemma ContinuedReadsAlike(s: Snapshot, seed: seq<Candidate>, full: seq<Candidate>)
    requires seed <= s.log && Restores(seed, full)
    ensures forall id :: Latest(Continued(s, seed, full).log, id) == Latest(s.log, id)
    ensures forall row :: row in s.log ==> row in Continued(s, seed, full).log
  {
    var tail := s.log[|seed|..];
    assert s.log == seed + tail;
    forall id ensures Latest(full + tail, id) == Latest(seed + tail, id) {
      LatestConcat(full, tail, id);
      LatestConcat(seed, tail, id);
    }
  }

  lemma HandoverIsMonotone(log: seq<Candidate>, log': seq<Candidate>, row: Candidate, run: Run)
    requires Handover(log, row, run) && forall c :: c in log ==> c in log'
    ensures Handover(log', row, run)
  {
    hide ChecksPassed, JudgedAfter, Underpins;
    var v :| v in log && Underpins(v, row, run);
    assert v in log';
  }

  /** A step of a run on its restored file is the same step on the full record. */
  lemma ContinuedStep(s: Snapshot, step: Step, s': Snapshot, seed: seq<Candidate>, full: seq<Candidate>)
    requires Takes(s, step, s') && seed <= s.log && Restores(seed, full)
    ensures seed <= s'.log && Takes(Continued(s, seed, full), step, Continued(s', seed, full))
  {
    hide Latest, RowKnown, Handover, SettledWithArtifact, MayFollow, Restores;
    StepIsLater(s, step, s');
    ContinuedReadsAlike(s, seed, full);
    if step.AppendRow? {
      if step.row.state.AwaitingHumanMerge? {
        HandoverIsMonotone(s.log, Continued(s, seed, full).log, step.row, step.run);
      }
      assert s'.log[|seed|..] == s.log[|seed|..] + [step.row];
    }
  }

  /** A run on a restored file prolongs the execution on the full record. */
  lemma {:induction false} ContinuedRun(states: seq<Snapshot>, steps: seq<Step>, runStates: seq<Snapshot>,
                                        runSteps: seq<Step>, seed: seq<Candidate>, full: seq<Candidate>)
    returns (states': seq<Snapshot>, steps': seq<Step>)
    requires Execution(states, steps) && Execution(runStates, runSteps) && Restores(seed, full)
    requires runStates[0].log == seed && states[|states| - 1] == Snapshot(runStates[0].world, full)
    ensures Execution(states', steps') && states'[0] == states[0] && steps' == steps + runSteps
    ensures seed <= runStates[|runStates| - 1].log
    ensures states'[|states'| - 1] == Continued(runStates[|runStates| - 1], seed, full)
    decreases |runSteps|
  {
    hide Latest, Restores, Invariant, Takes;
    var n := |runSteps|;
    if n == 0 {
      states', steps' := states, steps;
    } else {
      var early, tail := runStates[..n], runSteps[..n - 1];
      PrefixIsExecution(runStates, runSteps);
      states', steps' := ContinuedRun(states, steps, early, tail, seed, full);
      assert Takes(runStates[n - 1], runSteps[n - 1], runStates[n]);
      ContinuedStep(runStates[n - 1], runSteps[n - 1], runStates[n], seed, full);
      states', steps' := Prolonged(states', steps', runSteps[n - 1], Continued(runStates[n], seed, full));
    }
  }

  lemma PrefixIsExecution(states: seq<Snapshot>, steps: seq<Step>)
    requires Execution(states, steps) && steps != []
    ensures Execution(states[..|states| - 1], steps[..|steps| - 1])
  {
    hide Takes, Invariant;
    var n := |steps|;
    forall k | 0 <= k < n - 1 ensures Takes(states[..n][k], steps[..n - 1][k], states[..n][k + 1]) {
      assert Takes(states[k], steps[k], states[k + 1]);
    }
  }

  lemma Prolonged(states: seq<Snapshot>, steps: seq<Step>, step: Step, next: Snapshot)
    returns (states': seq<Snapshot>, steps': seq<Step>)
    requires Execution(states, steps) && Takes(states[|states| - 1], step, next)
    ensures Execution(states', steps') && states' == states + [next] && steps' == steps + [step]
  {
    hide Takes, Invariant;
    states', steps' := states + [next], steps + [step];
    forall k | 0 <= k < |steps'| ensures Takes(states'[k], steps'[k], states'[k + 1]) {
      if k < |steps| {
        assert Takes(states[k], steps[k], states[k + 1]);
      }
    }
  }

  // ---- any number of hosted runs -------------------------------------------------------------------

  /** The exports so far are the log of an execution that ends in this world. */
  ghost predicate OnRecord(states: seq<Snapshot>, steps: seq<Step>, start: World, w: World,
                           exports: seq<seq<Candidate>>, runs: seq<Run>) {
    && Execution(states, steps) && states[0] == Snapshot(start, [])
    && states[|states| - 1] == Snapshot(w, History.Recorded(History.Files(exports)))
    && RowsComeFrom(steps, runs)
  }

  /** Any number of hosted runs, each of which starts from what the others exported and exports what it
      appended. The exports together are the log of one continuous execution, so everything `Campaign`
      promises of a single state file holds of them. */
  method HostedCampaign(world: World, inputs: seq<RunInput>)
    returns (world': World, exports: seq<seq<Candidate>>, ghost states: seq<Snapshot>, ghost steps: seq<Step>)
    requires WellFormedWorld(world) && world.ledger == []
    requires forall input :: input in inputs ==> Sound(input, world)
    ensures |exports| == |inputs| && OnRecord(states, steps, world, world', exports, RunsOf(inputs))
    ensures var log := History.Recorded(History.Files(exports));
            && Invariant(Snapshot(world', log))
            && AtMostOnce(world'.ledger) && RepeatsOnlyUnrecorded(Snapshot(world', log))
            && MergesAreReal(Snapshot(world', log)) && HandoversAreProven(log, inputs)
  {
    hide OnRecord, Sound, Invariant, MergesAreReal, HandoversAreProven, AtMostOnce, RepeatsOnlyUnrecorded;
    world', exports := world, [];
    states, steps := [Snapshot(world, [])], [];
    NothingOnRecord(world, RunsOf(inputs));
    for k := 0 to |inputs|
      invariant |exports| == k && world'.nodes == world.nodes
      invariant OnRecord(states, steps, world, world', exports, RunsOf(inputs))
    {
      SoundIsAboutNodes(inputs[k], world, world');
      assert RunsOf(inputs)[k] in RunsOf(inputs);
      var next;
      world', next, states, steps := HostedOnce(world, world', exports, inputs[k], RunsOf(inputs), states, steps);
      exports := exports + [next];
    }
    RecordIsSafe(states, steps, world, world', exports, inputs);
  }

  lemma NothingOnRecord(w: World, runs: seq<Run>)
    requires WellFormedWorld(w) && w.ledger == []
    ensures OnRecord([Snapshot(w, [])], [], w, w, [], runs)
  {
    InitialIsSafe(Snapshot(w, []));
  }

  lemma RecordIsSafe(states: seq<Snapshot>, steps: seq<Step>, start: World, w: World, exports: seq<seq<Candidate>>,
                     inputs: seq<RunInput>)
    requires OnRecord(states, steps, start, w, exports, RunsOf(inputs))
    ensures var log := History.Recorded(History.Files(exports));
            && Invariant(Snapshot(w, log))
            && AtMostOnce(w.ledger) && RepeatsOnlyUnrecorded(Snapshot(w, log))
            && MergesAreReal(Snapshot(w, log)) && HandoversAreProven(log, inputs)
  {
    hide Execution, Invariant, MergesAreReal, HandoversAreProven, AtMostOnce, RepeatsOnlyUnrecorded, RowsComeFrom;
    LastIsSnapshot(states, steps);
    ReachableIsSafe(states, steps, |states| - 1);
    SafeIsOnce(states[|states| - 1]);
    SafeMergesAreReal(states[|states| - 1]);
    ExecutedHandovers(states, steps, inputs);
  }

  /** One hosted run: restore the state file, run, export. */
  method HostedOnce(ghost start: World, world: World, exports: seq<seq<Candidate>>, input: RunInput,
                    ghost runs: seq<Run>, ghost states: seq<Snapshot>, ghost steps: seq<Step>)
    returns (world': World, next: seq<Candidate>, ghost states': seq<Snapshot>, ghost steps': seq<Step>)
    requires OnRecord(states, steps, start, world, exports, runs) && Sound(input, world) && input.config.run in runs
    ensures world'.nodes == world.nodes
    ensures OnRecord(states', steps', start, world', exports + [next], runs)
  {
    hide OnRecord, Sound, Invariant, Execution, Restores, RowsComeFrom, History.Recorded, History.Collapse,
         History.Accepted;
    ghost var full := History.Recorded(History.Files(exports));
    var report := History.Seed(History.Files(exports), []);
    var seed := report.value.rows;
    RestoredIsSafe(states, steps, start, world, exports, runs, seed);
    var host := new Host(world, seed, runs);
    var _, _, _ := RunOnce(host, input);
    world' := host.world;
    LogGrew(host, seed);
    next := Export(host.log, |seed|);
    states', steps' := Recorded(states, steps, start, world, exports, runs, seed, host);
  }

  lemma RestoredIsSafe(states: seq<Snapshot>, steps: seq<Step>, start: World, w: World, exports: seq<seq<Candidate>>,
                       runs: seq<Run>, seed: seq<Candidate>)
    requires OnRecord(states, steps, start, w, exports, runs)
    requires seed == History.Collapse(History.Accepted(History.Recorded(History.Files(exports))))
    ensures Invariant(Snapshot(w, seed)) && Restores(seed, History.Recorded(History.Files(exports)))
  {
    hide Execution, Invariant, Restores;
    LastIsSnapshot(states, steps);
    ReachableIsSafe(states, steps, |states| - 1);
    SeedIsSafe(w, History.Recorded(History.Files(exports)));
  }

  lemma LogGrew(host: Host, seed: seq<Candidate>)
    requires host.Valid() && host.states != [] && host.states[0].log == seed
    ensures seed <= host.log
  {
    LastIsSnapshot(host.states, host.steps);
    HistoryOnlyGrows(host.states, host.steps, 0, |host.states| - 1);
  }

  /** The rows after the restored ones. */
  method Export(log: seq<Candidate>, seeded: nat) returns (next: seq<Candidate>)
    requires seeded <= |log|
    ensures next == log[seeded..]
  {
    assert History.Lines(log)[seeded..] == History.Lines(log[seeded..]);
    History.LinesAreRows(log[seeded..]);
    var exported := History.ExportRows(Some(History.Lines(log)), History.SeededRows(seeded));
    next := exported.value;
  }

  /** The run's trace, continued on the full record. */
  lemma Recorded(states: seq<Snapshot>, steps: seq<Step>, start: World, w: World, exports: seq<seq<Candidate>>,
                 runs: seq<Run>, seed: seq<Candidate>, host: Host)
    returns (states': seq<Snapshot>, steps': seq<Step>)
    requires OnRecord(states, steps, start, w, exports, runs)
    requires Restores(seed, History.Recorded(History.Files(exports)))
    requires host.Valid() && host.runs == runs && host.states != []
    requires host.states[0] == Snapshot(w, seed) && seed <= host.log
    ensures OnRecord(states', steps', start, host.world, exports + [host.log[|seed|..]], runs)
  {
    hide Invariant, Takes, Restores, History.Recorded;
    var full := History.Recorded(History.Files(exports));
    states', steps' := ContinuedRun(states, steps, host.states, host.steps, seed, full);
    NothingIsSimulated(host, seed);
    History.RecordedAppend(exports, host.log[|seed|..]);
    assert forall k :: |steps| <= k < |steps'| ==> steps'[k] == host.steps[k - |steps|];
  }

  lemma NothingIsSimulated(host: Host, seed: seq<Candidate>)
    requires host.Valid() && seed <= host.log
    ensures forall c :: c in host.log[|seed|..] ==> !c.artifactSimulated
  {
    hide Execution, Invariant;
    host.Safe();
    forall c | c in host.log[|seed|..] ensures !c.artifactSimulated {
      LoggedRowIsKnown(host.Now(), c);
    }
  }
}

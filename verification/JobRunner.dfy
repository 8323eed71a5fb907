/** Long jobs: a worker thread reports its progress in the job table while a watchdog marks
    silent jobs, retention prunes old ones and the server may restart. Every step is one SQL
    statement; all interleavings are runs of this machine. */
module JobRunner {
  import opened Prelude
  import opened JobTable

  /** How far a worker is. */
  datatype Phase =
    | Waiting
    | Working
    | Returned(result: Option<string>)
    | Raised(message: string)
    | Closing
    | Abandoning
    | Ended

  /** `submitted` remembers the identifiers handed out, `returned` what each job's function
      returned. */
  datatype World = World(
    jobs: seq<JobRow>, workers: map<string, Phase>, submitted: set<string>, returned: map<string, Option<string>>)

  datatype Step =
    | Submit(jid: string, kind: string, session: Option<string>, now: real)
    /** Worker steps; `works` says whether the store call succeeds. */
    | Begin(jid: string, works: bool, now: real)
    | Progress(jid: string, pct: real, stage: string, now: real)
    | FnReturns(jid: string, result: Option<string>)
    | FnRaises(jid: string, message: string)
    | FnKilled(jid: string)
    | WriteDone(jid: string, works: bool, now: real)
    | WriteError(jid: string, works: bool, now: real)
    | ReadBack(jid: string)
    | WriteAbandoned(jid: string, now: real)
    /** The others. */
    | Watchdog(jid: string, now: real)
    | Prune(days: int, now: real)
    | Restart(now: real)

  const BEGIN_STAGE := "begin"
  const END_STAGE := "end"
  const STORE_FAILED := "store failed"
  const STALE := "no heartbeat"
  const ABANDONED := "ended unexpectedly"
  const RESTARTED := "server restarted"

  // ---------------------------------------------------------------- SQL statements

  /** The columns one UPDATE sets; None leaves a column alone. */
  datatype Change = Change(
    status: Option<Status>, progress: Option<real>, stage: Option<string>,
    error: Option<string>, result: Option<string>, now: real)

  function OrElse<T>(a: Option<T>, b: T): T {
    match a case Some(x) => x case None => b
  }

  function Changed(j: JobRow, c: Change): JobRow {
    j.(status := OrElse(c.status, j.status), progress := OrElse(c.progress, j.progress),
       stage := OrElse(c.stage, j.stage), error := if c.error.Some? then c.error else j.error,
       result := if c.result.Some? then c.result else j.result, updatedAt := c.now)
  }

  function IfIs(jid: string, c: Change): JobRow -> JobRow {
    (j: JobRow) => if j.jid == jid then Changed(j, c) else j
  }

  function IfLive(jid: string, c: Change): JobRow -> JobRow {
    (j: JobRow) => if j.jid == jid && Live(j) then Changed(j, c) else j
  }

  function IfAnyLive(c: Change): JobRow -> JobRow {
    (j: JobRow) => if Live(j) then Changed(j, c) else j
  }

  function Started(progress: real, stage: string, now: real): Change {
    Change(Some(Running), Some(progress), Some(stage), None, None, now)
  }

  function Finished(result: Option<string>, now: real): Change {
    Change(Some(Done), Some(100.0), Some(END_STAGE), None, result, now)
  }

  function Failure(message: string, now: real): Change {
    Change(Some(Failed), None, None, Some(message), None, now)
  }

  function Clamp(pct: real): real {
    var top := if pct < 100.0 then pct else 100.0;
    if top > 0.0 then top else 0.0
  }

  /** What is stored is between 0 and 100, and nothing between these is nearer to what was said. */
  lemma ClampIsNearest(pct: real, other: real)
    requires 0.0 <= other <= 100.0
    ensures var kept := Clamp(pct);
            && 0.0 <= kept <= 100.0 && (0.0 <= pct <= 100.0 ==> kept == pct)
            && (if pct < kept then kept - pct else pct - kept) <= (if pct < other then other - pct else pct - other)
  {
  }

  function NewJob(jid: string, kind: string, session: Option<string>, now: real): JobRow {
    JobRow(jid, kind, session, Queued, 0.0, "", None, None, now, now)
  }

  // ---------------------------------------------------------------- steps

  function PhaseOf(w: World, jid: string): Option<Phase> {
    if jid in w.workers then Some(w.workers[jid]) else None
  }

  predicate HasJob(jobs: seq<JobRow>, jid: string) {
    exists j | j in jobs :: j.jid == jid
  }

  predicate HasLive(jobs: seq<JobRow>, jid: string) {
    exists j | j in jobs :: j.jid == jid && Live(j)
  }

  function Move(w: World, jid: string, phase: Phase): World {
    w.(workers := w.workers[jid := phase])
  }

  function Update(w: World, jid: string, c: Change): World {
    w.(jobs := Map(w.jobs, IfIs(jid, c)))
  }

  function Apply(w: World, step: Step): World {
    match step
    case Submit(jid, kind, session, now) =>
      if jid in w.submitted then w
      else Move(w.(jobs := w.jobs + [NewJob(jid, kind, session, now)], submitted := w.submitted + {jid}), jid, Waiting)
    case Begin(jid, works, now) =>
      if PhaseOf(w, jid) != Some(Waiting) then w
      else if works then Move(Update(w, jid, Started(1.0, BEGIN_STAGE, now)), jid, Working)
      else Move(w, jid, Closing)
    case Progress(jid, pct, stage, now) =>
      if PhaseOf(w, jid) != Some(Working) then w else Update(w, jid, Started(Clamp(pct), stage, now))
    case FnReturns(jid, result) =>
      if PhaseOf(w, jid) != Some(Working) then w
      else Move(w.(returned := w.returned[jid := result]), jid, Returned(result))
    case FnRaises(jid, message) =>
      if PhaseOf(w, jid) != Some(Working) then w else Move(w, jid, Raised(message))
    case FnKilled(jid) =>
      if PhaseOf(w, jid) != Some(Working) then w else Move(w, jid, Closing)
    case WriteDone(jid, works, now) =>
      (match PhaseOf(w, jid)
       case Some(Returned(result)) =>
         if works then Move(Update(w, jid, Finished(result, now)), jid, Closing) else Move(w, jid, Raised(STORE_FAILED))
       case _ => w)
    case WriteError(jid, works, now) =>
      (match PhaseOf(w, jid)
       case Some(Raised(message)) =>
         if works then Move(Update(w, jid, Failure(message, now)), jid, Closing) else Move(w, jid, Closing)
       case _ => w)
    case ReadBack(jid) =>
      if PhaseOf(w, jid) != Some(Closing) then w
      else Move(w, jid, if HasLive(w.jobs, jid) then Abandoning else Ended)
    case WriteAbandoned(jid, now) =>
      if PhaseOf(w, jid) != Some(Abandoning) then w
      else Move(Update(w, jid, Failure(ABANDONED, now)), jid, Ended)
    case Watchdog(jid, now) => w.(jobs := Map(w.jobs, IfLive(jid, Failure(STALE, now))))
    case Prune(days, now) => w.(jobs := PruneJobs(w.jobs, days, now))
    case Restart(now) => w.(jobs := Map(w.jobs, IfAnyLive(Failure(RESTARTED, now))), workers := map[])
  }

  function Run(w: World, steps: seq<Step>): World {
    if steps == [] then w else Apply(Run(w, steps[..|steps| - 1]), steps[|steps| - 1])
  }

  function Start(): World {
    World([], map[], {}, map[])
  }

  // ---------------------------------------------------------------- what every step keeps

  predicate InProgress(w: World, jid: string) {
    jid in w.workers && w.workers[jid] != Ended
  }

  /** The phases in which a worker no longer touches a finished row. */
  predicate PastWriting(w: World, jid: string) {
    jid in w.workers ==> w.workers[jid] == Closing || w.workers[jid] == Ended
  }

  predicate RowOk(w: World, j: JobRow) {
    && 0.0 <= j.progress <= 100.0 && j.jid in w.submitted
    && (Live(j) ==> InProgress(w, j.jid))
    && (j.status == Done ==> j.progress == 100.0 && PastWriting(w, j.jid)
                             && j.jid in w.returned && j.result == w.returned[j.jid])
    && (j.status != Done ==> j.result == None)
    && (j.jid in w.workers && w.workers[j.jid].Returned? ==>
          j.jid in w.returned && w.returned[j.jid] == w.workers[j.jid].result)
  }

  ghost predicate UniqueJobs(jobs: seq<JobRow>) {
    forall i, k | 0 <= i < k < |jobs| :: jobs[i].jid != jobs[k].jid
  }

  ghost predicate Inv(w: World) {
    && UniqueJobs(w.jobs)
    && (forall i | 0 <= i < |w.jobs| :: RowOk(w, w.jobs[i]))
  }

  /** A step that changes rows in place keeps the invariant if it keeps each row's part. */
  lemma RowByRow(w: World, w': World, f: JobRow -> JobRow)
    requires Inv(w) && w'.jobs == Map(w.jobs, f)
    requires forall j | j in w.jobs :: f(j).jid == j.jid && RowOk(w', f(j))
    ensures Inv(w')
  {
    forall i | 0 <= i < |w'.jobs| ensures RowOk(w', w'.jobs[i]) && w'.jobs[i].jid == w.jobs[i].jid {
      assert w.jobs[i] in w.jobs;
    }
  }

  lemma SameRows(w: World, w': World)
    requires Inv(w) && w'.jobs == w.jobs && forall j | j in w.jobs :: RowOk(w, j) ==> RowOk(w', j)
    ensures Inv(w')
  {
    forall i | 0 <= i < |w.jobs| ensures RowOk(w', w.jobs[i]) {
      assert w.jobs[i] in w.jobs;
    }
  }

  lemma RowsOk(w: World)
    requires Inv(w)
    ensures forall j | j in w.jobs :: RowOk(w, j)
  {
  }

  lemma {:induction false} FewerJobs(jobs: seq<JobRow>, keep: JobRow -> bool)
    requires UniqueJobs(jobs)
    ensures UniqueJobs(Filter(jobs, keep))
  {
    if jobs != [] {
      var n := |jobs| - 1;
      FewerJobs(jobs[..n], keep);
      var rest := Filter(jobs[..n], keep);
      forall i | 0 <= i < |rest| ensures rest[i].jid != jobs[n].jid {
        assert rest[i] in rest;
        assert rest[i] in jobs[..n];
      }
    }
  }

  lemma SubmitKeeps(w: World, step: Step)
    requires Inv(w) && step.Submit?
    ensures Inv(Apply(w, step))
  {
    var w' := Apply(w, step);
    if w' != w {
      assert RowOk(w', NewJob(step.jid, step.kind, step.session, step.now));
      forall i | 0 <= i < |w.jobs| ensures RowOk(w', w.jobs[i]) && w.jobs[i].jid != step.jid {
        assert w.jobs[i] in w.jobs;
      }
    }
  }

  lemma RunningKeeps(w: World, jid: string, phase: Phase, progress: real, stage: string, now: real)
    requires Inv(w) && PhaseOf(w, jid) == Some(phase) && (phase == Waiting || phase == Working)
             && 0.0 <= progress <= 100.0
    ensures Inv(Move(Update(w, jid, Started(progress, stage, now)), jid, Working))
  {
    var w' := Move(Update(w, jid, Started(progress, stage, now)), jid, Working);
    RowsOk(w);
    RowByRow(w, w', IfIs(jid, Started(progress, stage, now)));
  }

  lemma MoveKeeps(w: World, jid: string, phase: Phase)
    requires Inv(w) && jid in w.workers && phase != Ended && !phase.Returned?
    requires w.workers[jid] != Closing && w.workers[jid] != Ended
    ensures Inv(Move(w, jid, phase))
  {
    RowsOk(w);
    SameRows(w, Move(w, jid, phase));
  }

  lemma ReturnKeeps(w: World, jid: string, result: Option<string>)
    requires Inv(w) && PhaseOf(w, jid) == Some(Working)
    ensures Inv(Apply(w, FnReturns(jid, result)))
  {
    RowsOk(w);
    SameRows(w, Apply(w, FnReturns(jid, result)));
  }

  lemma FinishKeeps(w: World, jid: string, result: Option<string>, now: real)
    requires Inv(w) && PhaseOf(w, jid) == Some(Returned(result))
    ensures Inv(Move(Update(w, jid, Finished(result, now)), jid, Closing))
  {
    RowsOk(w);
    RowByRow(w, Move(Update(w, jid, Finished(result, now)), jid, Closing), IfIs(jid, Finished(result, now)));
  }

  lemma FailKeeps(w: World, jid: string, message: string, now: real, phase: Phase)
    requires Inv(w) && jid in w.workers && (phase == Closing || phase == Ended)
    requires w.workers[jid].Raised? || w.workers[jid] == Abandoning
    ensures Inv(Move(Update(w, jid, Failure(message, now)), jid, phase))
  {
    RowsOk(w);
    RowByRow(w, Move(Update(w, jid, Failure(message, now)), jid, phase), IfIs(jid, Failure(message, now)));
  }

  lemma ReadBackKeeps(w: World, jid: string)
    requires Inv(w) && PhaseOf(w, jid) == Some(Closing)
    ensures Inv(Apply(w, ReadBack(jid)))
  {
    RowsOk(w);
    var w' := Apply(w, ReadBack(jid));
    forall j | j in w.jobs ensures RowOk(w', j) {
      if j.jid == jid && HasLive(w.jobs, jid) {
        var live :| live in w.jobs && live.jid == jid && Live(live);
        var i :| 0 <= i < |w.jobs| && w.jobs[i] == live;
        var k :| 0 <= k < |w.jobs| && w.jobs[k] == j;
      }
    }
    SameRows(w, w');
  }

  lemma PruneKeeps(w: World, days: int, now: real)
    requires Inv(w)
    ensures Inv(Apply(w, Prune(days, now)))
  {
    var w' := Apply(w, Prune(days, now));
    RowsOk(w);
    FewerJobs(w.jobs, KeptJob(days, now));
    forall i | 0 <= i < |w'.jobs| ensures RowOk(w', w'.jobs[i]) {
      assert w'.jobs[i] in w'.jobs;
    }
  }

  lemma RestartKeeps(w: World, now: real)
    requires Inv(w)
    ensures Inv(Apply(w, Restart(now)))
  {
    RowsOk(w);
    RowByRow(w, Apply(w, Restart(now)), IfAnyLive(Failure(RESTARTED, now)));
  }

  lemma WatchdogKeeps(w: World, jid: string, now: real)
    requires Inv(w)
    ensures Inv(Apply(w, Watchdog(jid, now)))
  {
    RowsOk(w);
    RowByRow(w, Apply(w, Watchdog(jid, now)), IfLive(jid, Failure(STALE, now)));
  }

  lemma ApplyKeeps(w: World, step: Step)
    requires Inv(w)
    ensures Inv(Apply(w, step))
  {
    if Apply(w, step) != w {
      match step
      case Submit(_, _, _, _) => SubmitKeeps(w, step);
      case Begin(jid, works, now) =>
        if works {
          RunningKeeps(w, jid, Waiting, 1.0, BEGIN_STAGE, now);
        } else {
          MoveKeeps(w, jid, Closing);
        }
      case Progress(jid, pct, stage, now) =>
        RunningKeeps(w, jid, Working, Clamp(pct), stage, now);
        assert w.workers[jid := Working] == w.workers;
      case FnReturns(jid, result) => ReturnKeeps(w, jid, result);
      case FnRaises(jid, message) => MoveKeeps(w, jid, Raised(message));
      case FnKilled(jid) => MoveKeeps(w, jid, Closing);
      case WriteDone(jid, works, now) =>
        if works {
          FinishKeeps(w, jid, w.workers[jid].result, now);
        } else {
          MoveKeeps(w, jid, Raised(STORE_FAILED));
        }
      case WriteError(jid, works, now) =>
        if works {
          FailKeeps(w, jid, w.workers[jid].message, now, Closing);
        } else {
          MoveKeeps(w, jid, Closing);
        }
      case ReadBack(jid) => ReadBackKeeps(w, jid);
      case WriteAbandoned(jid, now) => FailKeeps(w, jid, ABANDONED, now, Ended);
      case Watchdog(jid, now) => WatchdogKeeps(w, jid, now);
      case Prune(days, now) => PruneKeeps(w, days, now);
      case Restart(now) => RestartKeeps(w, now);
    }
  }

  lemma {:induction false} RunKeeps(w: World, steps: seq<Step>)
    requires Inv(w)
    ensures Inv(Run(w, steps))
  {
    if steps != [] {
      RunKeeps(w, steps[..|steps| - 1]);
      ApplyKeeps(Run(w, steps[..|steps| - 1]), steps[|steps| - 1]);
    }
  }

  // ---------------------------------------------------------------- results

  /** After any run, whatever the interleaving: progress is between 0 and 100; a done job is at
      100 and holds what its function returned; and a job whose worker ended, or died with a
      restart, is done or failed. */
  lemma JobsAreSettled(steps: seq<Step>, j: JobRow)
    requires j in Run(Start(), steps).jobs
    ensures 0.0 <= j.progress <= 100.0
    ensures var w := Run(Start(), steps);
            && (j.status == Done ==> j.progress == 100.0 && j.jid in w.returned && j.result == w.returned[j.jid])
            && (PhaseOf(w, j.jid) in {None, Some(Ended)} ==> j.status == Done || j.status == Failed)
  {
    RunKeeps(Start(), steps);
  }

  lemma RestartSettlesAll(w: World, now: real)
    ensures forall j | j in Apply(w, Restart(now)).jobs :: !Live(j)
    ensures forall j | j in w.jobs && !Live(j) :: j in Apply(w, Restart(now)).jobs
    ensures forall jid :: PhaseOf(Apply(w, Restart(now)), jid) == None
    ensures Apply(w, Restart(now)).submitted == w.submitted
  {
    var w' := Apply(w, Restart(now));
    forall j | j in w'.jobs ensures !Live(j) {
      var i :| 0 <= i < |w'.jobs| && w'.jobs[i] == j;
      assert w.jobs[i] in w.jobs;
    }
    forall j | j in w.jobs && !Live(j) ensures j in w'.jobs {
      var i :| 0 <= i < |w.jobs| && w.jobs[i] == j;
      assert w'.jobs[i] == j;
    }
  }

  /** A finished row that no worker writes any more: it is done, or its worker is gone. */
  predicate AtRest(w: World, j: JobRow) {
    j.status == Done || (j.status == Failed && PhaseOf(w, j.jid) in {None, Some(Ended)})
  }

  /** What a step other than a submission or a prune does to the row at one place, column by
      column. */
  function RowAfter(w: World, step: Step, j: JobRow): JobRow {
    match step
    case Begin(jid, works, now) =>
      if j.jid == jid && works && PhaseOf(w, jid) == Some(Waiting)
      then j.(status := Running, progress := 1.0, stage := BEGIN_STAGE, updatedAt := now) else j
    case Progress(jid, pct, stage, now) =>
      if j.jid == jid && PhaseOf(w, jid) == Some(Working)
      then j.(status := Running, progress := if pct < 0.0 then 0.0 else if pct > 100.0 then 100.0 else pct,
              stage := stage, updatedAt := now) else j
    case WriteDone(jid, works, now) =>
      if j.jid == jid && works && jid in w.workers && w.workers[jid].Returned?
      then j.(status := Done, progress := 100.0, stage := END_STAGE, updatedAt := now,
              result := if w.workers[jid].result == None then j.result else w.workers[jid].result) else j
    case WriteError(jid, works, now) =>
      if j.jid == jid && works && jid in w.workers && w.workers[jid].Raised?
      then j.(status := Failed, error := Some(w.workers[jid].message), updatedAt := now) else j
    case WriteAbandoned(jid, now) =>
      if j.jid == jid && PhaseOf(w, jid) == Some(Abandoning)
      then j.(status := Failed, error := Some(ABANDONED), updatedAt := now) else j
    case Watchdog(jid, now) =>
      if j.jid == jid && Live(j) then j.(status := Failed, error := Some(STALE), updatedAt := now) else j
    case Restart(now) =>
      if Live(j) then j.(status := Failed, error := Some(RESTARTED), updatedAt := now) else j
    case _ => j
  }

  /** A step leaves every row in its place and changes these columns of it and no others; only a
      submission of a new identifier adds a row. */
  lemma RowMoves(w: World, step: Step, i: nat)
    requires i < |w.jobs| && !step.Prune?
    ensures i < |Apply(w, step).jobs| && Apply(w, step).jobs[i] == RowAfter(w, step, w.jobs[i])
    ensures step.Submit? && step.jid !in w.submitted ==>
              Apply(w, step).jobs
              == w.jobs + [JobRow(step.jid, step.kind, step.session, Queued, 0.0, "", None, None, step.now, step.now)]
    ensures !step.Submit? || step.jid in w.submitted ==> |Apply(w, step).jobs| == |w.jobs|
  {
  }

  lemma RestStep(w: World, step: Step, j: JobRow)
    requires Inv(w) && j in w.jobs && AtRest(w, j)
    ensures var w' := Apply(w, step); if j in w'.jobs then AtRest(w', j) else !HasJob(w'.jobs, j.jid)
  {
    var i :| 0 <= i < |w.jobs| && w.jobs[i] == j;
    if step.Prune? {
      PrunedAway(w, step, i);
    } else {
      RowsOk(w);
      RowMoves(w, step, i);
    }
  }

  lemma PrunedAway(w: World, step: Step, i: nat)
    requires Inv(w) && step.Prune? && i < |w.jobs|
    ensures w.jobs[i] in Apply(w, step).jobs || !HasJob(Apply(w, step).jobs, w.jobs[i].jid)
  {
    var w', j := Apply(w, step), w.jobs[i];
    if HasJob(w'.jobs, j.jid) {
      var other :| other in w'.jobs && other.jid == j.jid;
      var k :| 0 <= k < |w.jobs| && w.jobs[k] == other;
    }
  }

  /** Once a job is done, or failed with its worker gone, no later step changes its row, except
      that retention may remove it; and its identifier is not used again. */
  lemma {:induction false} RestIsForever(w: World, steps: seq<Step>, j: JobRow)
    requires Inv(w) && j in w.jobs && AtRest(w, j)
    ensures var w' := Run(w, steps); if j in w'.jobs then AtRest(w', j) else !HasJob(w'.jobs, j.jid)
    ensures j.jid in Run(w, steps).submitted
  {
    RowsOk(w);
    if steps != [] {
      var n := |steps| - 1;
      var before := Run(w, steps[..n]);
      RestIsForever(w, steps[..n], j);
      RunKeeps(w, steps[..n]);
      if j in before.jobs {
        RestStep(before, steps[n], j);
      } else {
        GoneStays(before, steps[n], j.jid);
      }
    }
  }

  lemma GoneStays(w: World, step: Step, jid: string)
    requires !HasJob(w.jobs, jid) && jid in w.submitted
    ensures !HasJob(Apply(w, step).jobs, jid)
  {
    var w' := Apply(w, step);
    if !step.Prune? {
      forall i | 0 <= i < |w.jobs| ensures w'.jobs[i].jid == w.jobs[i].jid && w.jobs[i] in w.jobs {
        RowMoves(w, step, i);
      }
    }
  }

  /** A failed job comes back to life exactly when its worker, which the watchdog gave up on,
      starts or reports progress. */
  lemma FailedReopensIff(w: World, step: Step, i: nat)
    requires Inv(w) && i < |w.jobs| && w.jobs[i].status == Failed && !step.Prune?
    ensures var jid := w.jobs[i].jid; var after := Apply(w, step).jobs;
            i < |after| && after[i].jid == jid &&
            (Live(after[i]) <==>
               || (step.Begin? && step.jid == jid && step.works && PhaseOf(w, jid) == Some(Waiting))
               || (step.Progress? && step.jid == jid && PhaseOf(w, jid) == Some(Working)))
  {
    RowMoves(w, step, i);
  }

  /** Such a job exists: the watchdog fails it, its worker reports, and it ends as done. */
  lemma WatchdogIsOverruled(jid: string, result: string)
    ensures var marked := [Submit(jid, "analyze", None, 0.0), Begin(jid, true, 1.0), Watchdog(jid, 902.0)];
            var ended := marked + [FnReturns(jid, Some(result)), WriteDone(jid, true, 903.0), ReadBack(jid)];
            && (exists j | j in Run(Start(), marked).jobs :: j.jid == jid && j.status == Failed)
            && (exists j | j in Run(Start(), ended).jobs :: j.jid == jid && j.status == Done && j.error == Some(STALE))
  {
    var a := [Submit(jid, "analyze", None, 0.0)];
    var b := a + [Begin(jid, true, 1.0)];
    var c := b + [Watchdog(jid, 902.0)];
    var d := c + [FnReturns(jid, Some(result))];
    var e := d + [WriteDone(jid, true, 903.0)];
    var f := e + [ReadBack(jid)];
    assert a[..0] == [] && b[..1] == a && c[..2] == b && d[..3] == c && e[..4] == d && f[..5] == e;
    assert Run(Start(), a).jobs == [NewJob(jid, "analyze", None, 0.0)];
    var running := Changed(NewJob(jid, "analyze", None, 0.0), Started(1.0, BEGIN_STAGE, 1.0));
    assert Run(Start(), b).jobs == [running];
    var failed := Changed(running, Failure(STALE, 902.0));
    assert Run(Start(), c).jobs == [failed];
    assert Run(Start(), d).jobs == [failed];
    var done := Changed(failed, Finished(Some(result), 903.0));
    assert Run(Start(), e).jobs == [done];
    assert Run(Start(), f).jobs == [done];
    assert c == [Submit(jid, "analyze", None, 0.0), Begin(jid, true, 1.0), Watchdog(jid, 902.0)];
    assert f == c + [FnReturns(jid, Some(result)), WriteDone(jid, true, 903.0), ReadBack(jid)];
    assert failed in Run(Start(), c).jobs && done in Run(Start(), f).jobs;
  }

  // ---------------------------------------------------------------- the worker thread

  /** Steps that neither belong to the worker of this job nor end the process. */
  predicate OfOthers(step: Step, jid: string) {
    match step
    case Submit(_, _, _, _) => true
    case Watchdog(_, _) => true
    case Prune(_, _) => true
    case Restart(_) => false
    case _ => step.jid != jid
  }

  lemma OthersStep(w: World, step: Step, jid: string)
    requires jid in w.workers && jid in w.submitted && OfOthers(step, jid)
    ensures PhaseOf(Apply(w, step), jid) == PhaseOf(w, jid) && jid in Apply(w, step).submitted
  {
  }

  lemma {:induction false} RunAppend(w: World, a: seq<Step>, b: seq<Step>)
    ensures Run(w, a + b) == Run(Run(w, a), b)
  {
    if b == [] {
      assert a + b == a;
    } else {
      assert (a + b)[..|a + b| - 1] == a + b[..|b| - 1];
      RunAppend(w, a, b[..|b| - 1]);
    }
  }

  lemma RunOne(w: World, a: seq<Step>, step: Step)
    ensures Run(w, a + [step]) == Apply(Run(w, a), step)
  {
    assert (a + [step])[..|a|] == a;
  }

  /** How the job's function ends. */
  datatype Outcome = Value(result: Option<string>) | Exception(message: string) | Killed

  /** A worker on its own. Which of its store calls work decides which of these steps act. */
  function WorkerSteps(jid: string, outcome: Outcome, works: (bool, bool, bool), now: real): seq<Step> {
    [Begin(jid, works.0, now),
     match outcome {
       case Value(r) => FnReturns(jid, r)
       case Exception(m) => FnRaises(jid, m)
       case Killed => FnKilled(jid)
     },
     WriteDone(jid, works.1, now), WriteError(jid, works.2, now), ReadBack(jid), WriteAbandoned(jid, now)]
  }

  /** The row it leaves: done with the function's value; failed with the exception's message, or
      with the store's if the value could not be stored; and failed as abandoned if the start or
      the error could not be stored or the thread was killed. */
  function RowLeft(j: JobRow, outcome: Outcome, works: (bool, bool, bool), now: real): JobRow {
    if !works.0 then j.(status := Failed, error := Some(ABANDONED), updatedAt := now)
    else
      var begun := j.(progress := 1.0, stage := BEGIN_STAGE, updatedAt := now);
      match outcome
      case Value(r) =>
        if works.1 then begun.(status := Done, progress := 100.0, stage := END_STAGE, result := r)
        else begun.(status := Failed, error := Some(if works.2 then STORE_FAILED else ABANDONED))
      case Exception(m) => begun.(status := Failed, error := Some(if works.2 then m else ABANDONED))
      case Killed => begun.(status := Failed, error := Some(ABANDONED))
  }

  /** The world of one job at one place of the table, with its worker in this phase. */
  ghost predicate At(w: World, i: nat, j: JobRow, phase: Phase) {
    && i < |w.jobs| && w.jobs[i] == j && UniqueJobs(w.jobs)
    && j.jid in w.workers && w.workers[j.jid] == phase
  }

  lemma Moved(w: World, step: Step, i: nat, j: JobRow, phase: Phase) returns (j': JobRow, phase': Phase)
    requires At(w, i, j, phase) && !step.Prune? && !step.Restart? && !step.Submit?
    ensures j' == RowAfter(w, step, j) && At(Apply(w, step), i, j', phase')
    ensures phase' == Apply(w, step).workers[j.jid]
  {
    RowMoves(w, step, i);
    j', phase' := RowAfter(w, step, j), Apply(w, step).workers[j.jid];
    forall a, b | 0 <= a < b < |w.jobs| ensures Apply(w, step).jobs[a].jid != Apply(w, step).jobs[b].jid {
      RowMoves(w, step, a);
      RowMoves(w, step, b);
    }
  }

  lemma LiveIff(w: World, i: nat, j: JobRow, phase: Phase)
    requires At(w, i, j, phase)
    ensures HasLive(w.jobs, j.jid) <==> Live(j)
  {
    if HasLive(w.jobs, j.jid) {
      var other :| other in w.jobs && other.jid == j.jid && Live(other);
      var k :| 0 <= k < |w.jobs| && w.jobs[k] == other;
    }
  }

  /** The final block alone: a job that is still live is abandoned. */
  lemma ClosingEnds(w: World, i: nat, j: JobRow, now: real)
    requires At(w, i, j, Closing)
    ensures var left := if Live(j) then j.(status := Failed, error := Some(ABANDONED), updatedAt := now) else j;
            At(Apply(Apply(w, ReadBack(j.jid)), WriteAbandoned(j.jid, now)), i, left, Ended)
  {
    LiveIff(w, i, j, Closing);
    var read, phase := Moved(w, ReadBack(j.jid), i, j, Closing);
    var left, ended := Moved(Apply(w, ReadBack(j.jid)), WriteAbandoned(j.jid, now), i, read, phase);
  }

  /** The row after the two writes that follow the end of the function. */
  function Stored(j: JobRow, outcome: Outcome, works: (bool, bool, bool), now: real): JobRow {
    match outcome
    case Value(r) =>
      if works.1 then j.(status := Done, progress := 100.0, stage := END_STAGE, result := r, updatedAt := now)
      else if works.2 then j.(status := Failed, error := Some(STORE_FAILED), updatedAt := now)
      else j
    case Exception(m) => if works.2 then j.(status := Failed, error := Some(m), updatedAt := now) else j
    case Killed => j
  }

  function PhaseFor(outcome: Outcome): Phase {
    match outcome case Value(r) => Returned(r) case Exception(m) => Raised(m) case Killed => Closing
  }

  lemma OutcomeStored(w: World, i: nat, j: JobRow, outcome: Outcome, works: (bool, bool, bool), now: real)
    requires At(w, i, j, PhaseFor(outcome)) && j.result == None
    ensures At(Apply(Apply(w, WriteDone(j.jid, works.1, now)), WriteError(j.jid, works.2, now)), i,
               Stored(j, outcome, works, now), Closing)
  {
    var done, phase := Moved(w, WriteDone(j.jid, works.1, now), i, j, PhaseFor(outcome));
    var w1 := Apply(w, WriteDone(j.jid, works.1, now));
    var stored, closing := Moved(w1, WriteError(j.jid, works.2, now), i, done, phase);
  }

  lemma Begun(w: World, i: nat, j: JobRow, outcome: Outcome, works: (bool, bool, bool), now: real)
    requires At(w, i, j, Waiting)
    ensures var steps := WorkerSteps(j.jid, outcome, works, now);
            At(Apply(Apply(w, steps[0]), steps[1]), i,
               if works.0 then j.(status := Running, progress := 1.0, stage := BEGIN_STAGE, updatedAt := now) else j,
               if works.0 then PhaseFor(outcome) else Closing)
  {
    var steps := WorkerSteps(j.jid, outcome, works, now);
    var begun, phase := Moved(w, steps[0], i, j, Waiting);
    var ended, phaseThen := Moved(Apply(w, steps[0]), steps[1], i, begun, phase);
  }

  lemma NothingStored(w: World, i: nat, j: JobRow, works: (bool, bool, bool), now: real)
    requires At(w, i, j, Closing)
    ensures At(Apply(Apply(w, WriteDone(j.jid, works.1, now)), WriteError(j.jid, works.2, now)), i, j, Closing)
  {
  }

  /** A worker on its own leaves its job as the table says. */
  lemma WorkerEnds(w: World, i: nat, j: JobRow, outcome: Outcome, works: (bool, bool, bool), now: real)
    requires At(w, i, j, Waiting) && j.status == Queued && j.result == None
    ensures At(Run(w, WorkerSteps(j.jid, outcome, works, now)), i, RowLeft(j, outcome, works, now), Ended)
  {
    var steps := WorkerSteps(j.jid, outcome, works, now);
    var ended := Apply(Apply(w, steps[0]), steps[1]);
    var stored := Apply(Apply(ended, steps[2]), steps[3]);
    Begun(w, i, j, outcome, works, now);
    if works.0 {
      var begun := j.(status := Running, progress := 1.0, stage := BEGIN_STAGE, updatedAt := now);
      OutcomeStored(ended, i, begun, outcome, works, now);
      ClosingEnds(stored, i, Stored(begun, outcome, works, now), now);
    } else {
      NothingStored(ended, i, j, works, now);
      ClosingEnds(stored, i, j, now);
    }
    RunSix(w, steps);
  }

  lemma RunTwo(w: World, a: Step, b: Step)
    ensures Run(w, [a, b]) == Apply(Apply(w, a), b)
  {
    RunOne(w, [], a);
    RunOne(w, [a], b);
    assert [] + [a] == [a] && [a] + [b] == [a, b];
  }

  lemma RunSix(w: World, s: seq<Step>)
    requires |s| == 6
    ensures Run(w, s) == Apply(Apply(Apply(Apply(Apply(Apply(w, s[0]), s[1]), s[2]), s[3]), s[4]), s[5])
  {
    var first, second, third := [s[0], s[1]], [s[2], s[3]], [s[4], s[5]];
    assert s == first + second + third;
    RunAppend(w, first + second, third);
    RunAppend(w, first, second);
    RunTwo(w, s[0], s[1]);
    RunTwo(Run(w, first), s[2], s[3]);
    RunTwo(Run(Run(w, first), second), s[4], s[5]);
  }

  /** The job table and the workers, changed in place. */
  class JobServer {
    var jobs: seq<JobRow>
    var workers: map<string, Phase>
    var submitted: set<string>
    var returned: map<string, Option<string>>

    ghost function State(): World
      reads this
    {
      World(jobs, workers, submitted, returned)
    }

    constructor ()
      ensures State() == Start()
    {
      jobs, workers, submitted, returned := [], map[], {}, map[];
    }

    method UpdateJob(jid: string, c: Change)
      modifies this`jobs
      ensures jobs == Map(old(jobs), IfIs(jid, c))
    {
      var rows: seq<JobRow> := [];
      for i := 0 to |jobs|
        invariant jobs == old(jobs) && |rows| == i
        invariant forall k | 0 <= k < i :: rows[k] == IfIs(jid, c)(jobs[k])
      {
        rows := rows + [if jobs[i].jid == jid then Changed(jobs[i], c) else jobs[i]];
      }
      jobs := rows;
    }

    /** Whether a row was still live. */
    method MarkStaleJob(jid: string, now: real) returns (marked: bool)
      modifies this`jobs
      ensures State() == Apply(old(State()), Watchdog(jid, now))
      ensures marked == HasLive(old(jobs), jid)
    {
      marked := HasLive(jobs, jid);
      jobs := Map(jobs, IfLive(jid, Failure(STALE, now)));
    }

    /** The process starts again: no worker survives. */
    method RecoverStaleJobs(now: real)
      modifies this
      ensures State() == Apply(old(State()), Restart(now))
    {
      workers := map[];
      jobs := Map(jobs, IfAnyLive(Failure(RESTARTED, now)));
    }

    method SubmitJob(jid: string, kind: string, session: Option<string>, now: real)
      requires jid !in submitted
      modifies this
      ensures State() == Apply(old(State()), Submit(jid, kind, session, now))
    {
      jobs := jobs + [NewJob(jid, kind, session, now)];
      submitted := submitted + {jid};
      workers := workers[jid := Waiting];
    }

    /** What others do in the meantime. */
    method Meanwhile(steps: seq<Step>, jid: string)
      requires jid in workers && jid in submitted && forall i | 0 <= i < |steps| :: OfOthers(steps[i], jid)
      modifies this
      ensures State() == Run(old(State()), steps)
      ensures PhaseOf(State(), jid) == old(PhaseOf(State(), jid)) && jid in submitted
    {
      for i := 0 to |steps|
        invariant State() == Run(old(State()), steps[..i])
        invariant PhaseOf(State(), jid) == old(PhaseOf(State(), jid)) && jid in submitted
      {
        assert steps[..i + 1][..i] == steps[..i];
        OthersStep(State(), steps[i], jid);
        var next := Apply(World(jobs, workers, submitted, returned), steps[i]);
        jobs, workers, submitted, returned := next.jobs, next.workers, next.submitted, next.returned;
      }
      assert steps[..|steps|] == steps;
    }

    method StartWork(jid: string, works: bool, now: real)
      requires PhaseOf(State(), jid) == Some(Waiting)
      modifies this
      ensures State() == Apply(old(State()), Begin(jid, works, now))
    {
      if works {
        UpdateJob(jid, Started(1.0, BEGIN_STAGE, now));
        workers := workers[jid := Working];
      } else {
        workers := workers[jid := Closing];
      }
    }

    method ReportProgress(jid: string, pct: real, stage: string, now: real)
      requires PhaseOf(State(), jid) == Some(Working)
      modifies this
      ensures State() == Apply(old(State()), Progress(jid, pct, stage, now))
    {
      UpdateJob(jid, Started(Clamp(pct), stage, now));
    }

    /** The function ends; its result is written unless the store refuses it. */
    method EndWork(jid: string, outcome: Outcome) returns (ghost step: Step)
      requires PhaseOf(State(), jid) == Some(Working)
      modifies this
      ensures State() == Apply(old(State()), step)
      ensures match outcome
              case Value(result) => step == FnReturns(jid, result)
              case Exception(message) => step == FnRaises(jid, message)
              case Killed => step == FnKilled(jid)
    {
      match outcome
      case Value(result) =>
        returned := returned[jid := result];
        workers := workers[jid := Returned(result)];
        step := FnReturns(jid, result);
      case Exception(message) =>
        workers := workers[jid := Raised(message)];
        step := FnRaises(jid, message);
      case Killed =>
        workers := workers[jid := Closing];
        step := FnKilled(jid);
    }

    method StoreResult(jid: string, works: bool, now: real)
      requires jid in workers && workers[jid].Returned?
      modifies this
      ensures State() == Apply(old(State()), WriteDone(jid, works, now))
    {
      if works {
        UpdateJob(jid, Finished(workers[jid].result, now));
        workers := workers[jid := Closing];
      } else {
        workers := workers[jid := Raised(STORE_FAILED)];
      }
    }

    method StoreError(jid: string, works: bool, now: real)
      requires jid in workers && workers[jid].Raised?
      modifies this
      ensures State() == Apply(old(State()), WriteError(jid, works, now))
    {
      if works {
        UpdateJob(jid, Failure(workers[jid].message, now));
      }
      workers := workers[jid := Closing];
    }

    /** The `finally` block reads the job back. */
    method CheckFinal(jid: string) returns (live: bool)
      requires PhaseOf(State(), jid) == Some(Closing)
      modifies this
      ensures State() == Apply(old(State()), ReadBack(jid))
      ensures live == HasLive(old(jobs), jid)
    {
      live := HasLive(jobs, jid);
      workers := workers[jid := if live then Abandoning else Ended];
    }

    method GiveUp(jid: string, now: real)
      requires PhaseOf(State(), jid) == Some(Abandoning)
      modifies this
      ensures State() == Apply(old(State()), WriteAbandoned(jid, now))
    {
      UpdateJob(jid, Failure(ABANDONED, now));
      workers := workers[jid := Ended];
    }

    /** The function reports its progress while others act before each report. */
    method Report(jid: string, reports: seq<(real, string)>, others: seq<seq<Step>>, clock: nat -> real)
        returns (ghost trace: seq<Step>)
      requires PhaseOf(State(), jid) == Some(Working) && jid in submitted && |others| == |reports|
      requires forall b, i | 0 <= b < |others| && 0 <= i < |others[b]| :: OfOthers(others[b][i], jid)
      modifies this
      ensures State() == Run(old(State()), trace)
      ensures PhaseOf(State(), jid) == Some(Working) && jid in submitted
    {
      trace := [];
      for k := 0 to |reports|
        invariant State() == Run(old(State()), trace)
        invariant PhaseOf(State(), jid) == Some(Working) && jid in submitted
      {
        Meanwhile(others[k], jid);
        ReportProgress(jid, reports[k].0, reports[k].1, clock(k));
        RunAppend(old(State()), trace, others[k]);
        RunOne(old(State()), trace + others[k], Progress(jid, reports[k].0, reports[k].1, clock(k)));
        trace := trace + others[k] + [Progress(jid, reports[k].0, reports[k].1, clock(k))];
      }
    }

    method StoreResultLater(jid: string, works: bool, others: seq<Step>, now: real) returns (ghost trace: seq<Step>)
      requires jid in workers && workers[jid].Returned? && jid in submitted
      requires forall i | 0 <= i < |others| :: OfOthers(others[i], jid)
      modifies this
      ensures State() == Run(old(State()), trace) && jid in submitted
      ensures jid in workers && (workers[jid].Raised? || workers[jid] == Closing)
    {
      Meanwhile(others, jid);
      StoreResult(jid, works, now);
      RunOne(old(State()), others, WriteDone(jid, works, now));
      trace := others + [WriteDone(jid, works, now)];
    }

    method StoreErrorLater(jid: string, works: bool, others: seq<Step>, now: real) returns (ghost trace: seq<Step>)
      requires jid in workers && workers[jid].Raised? && jid in submitted
      requires forall i | 0 <= i < |others| :: OfOthers(others[i], jid)
      modifies this
      ensures State() == Run(old(State()), trace) && jid in submitted
      ensures PhaseOf(State(), jid) == Some(Closing)
    {
      Meanwhile(others, jid);
      StoreError(jid, works, now);
      RunOne(old(State()), others, WriteError(jid, works, now));
      trace := others + [WriteError(jid, works, now)];
    }

    /** From the end of the function to the final block, with others acting in between. */
    method StoreOutcome(jid: string, outcome: Outcome, doneWorks: bool, errorWorks: bool, others: seq<seq<Step>>,
                        clock: nat -> real)
        returns (ghost trace: seq<Step>)
      requires PhaseOf(State(), jid) == Some(Working) && jid in submitted && |others| == 2
      requires forall b, i | 0 <= b < |others| && 0 <= i < |others[b]| :: OfOthers(others[b][i], jid)
      modifies this
      ensures State() == Run(old(State()), trace)
      ensures PhaseOf(State(), jid) == Some(Closing) && jid in submitted
    {
      ghost var step := EndWork(jid, outcome);
      RunOne(old(State()), [], step);
      trace := [] + [step];
      if workers[jid].Returned? {
        ghost var stored := StoreResultLater(jid, doneWorks, others[0], clock(0));
        RunAppend(old(State()), trace, stored);
        trace := trace + stored;
      }
      if workers[jid].Raised? {
        ghost var stored := StoreErrorLater(jid, errorWorks, others[1], clock(1));
        RunAppend(old(State()), trace, stored);
        trace := trace + stored;
      }
    }

    method CheckLater(jid: string, others: seq<Step>) returns (live: bool, ghost trace: seq<Step>)
      requires PhaseOf(State(), jid) == Some(Closing) && jid in submitted
      requires forall i | 0 <= i < |others| :: OfOthers(others[i], jid)
      modifies this
      ensures State() == Run(old(State()), trace) && jid in submitted
      ensures PhaseOf(State(), jid) == Some(if live then Abandoning else Ended)
    {
      Meanwhile(others, jid);
      live := CheckFinal(jid);
      RunOne(old(State()), others, ReadBack(jid));
      trace := others + [ReadBack(jid)];
    }

    method GiveUpLater(jid: string, others: seq<Step>, now: real) returns (ghost trace: seq<Step>)
      requires PhaseOf(State(), jid) == Some(Abandoning) && jid in submitted
      requires forall i | 0 <= i < |others| :: OfOthers(others[i], jid)
      modifies this
      ensures State() == Run(old(State()), trace)
      ensures PhaseOf(State(), jid) == Some(Ended)
    {
      Meanwhile(others, jid);
      GiveUp(jid, now);
      RunOne(old(State()), others, WriteAbandoned(jid, now));
      trace := others + [WriteAbandoned(jid, now)];
    }

    /** The final block. */
    method Finalise(jid: string, others: seq<seq<Step>>, now: real) returns (ghost trace: seq<Step>)
      requires PhaseOf(State(), jid) == Some(Closing) && jid in submitted && |others| == 2
      requires forall b, i | 0 <= b < |others| && 0 <= i < |others[b]| :: OfOthers(others[b][i], jid)
      modifies this
      ensures State() == Run(old(State()), trace)
      ensures PhaseOf(State(), jid) == Some(Ended)
    {
      var live;
      live, trace := CheckLater(jid, others[0]);
      if live {
        ghost var rest := GiveUpLater(jid, others[1], now);
        RunAppend(old(State()), trace, rest);
        trace := trace + rest;
      }
    }

    /** The whole worker, whatever its function does, whichever of its store calls before the
        final block fail and whatever the watchdog, retention and other workers do in between:
        it is a run of the machine, and its job ends as done or failed. */
    method RunJob(jid: string, reports: seq<(real, string)>, outcome: Outcome, works: (bool, bool, bool),
                  starting: seq<Step>, reporting: seq<seq<Step>>, storing: seq<seq<Step>>, closing: seq<seq<Step>>,
                  clock: nat -> real)
        returns (ghost trace: seq<Step>)
      requires Inv(State()) && PhaseOf(State(), jid) == Some(Waiting) && jid in submitted
      requires |reporting| == |reports| && |storing| == 2 && |closing| == 2
      requires forall i | 0 <= i < |starting| :: OfOthers(starting[i], jid)
      requires forall b, i | 0 <= b < |reporting| && 0 <= i < |reporting[b]| :: OfOthers(reporting[b][i], jid)
      requires forall b, i | 0 <= b < |storing| && 0 <= i < |storing[b]| :: OfOthers(storing[b][i], jid)
      requires forall b, i | 0 <= b < |closing| && 0 <= i < |closing[b]| :: OfOthers(closing[b][i], jid)
      modifies this
      ensures State() == Run(old(State()), trace) && Inv(State())
      ensures PhaseOf(State(), jid) == Some(Ended)
      ensures forall i | 0 <= i < |jobs| && jobs[i].jid == jid :: jobs[i].status == Done || jobs[i].status == Failed
    {
      Meanwhile(starting, jid);
      StartWork(jid, works.0, clock(0));
      RunOne(old(State()), starting, Begin(jid, works.0, clock(0)));
      trace := starting + [Begin(jid, works.0, clock(0))];
      if works.0 {
        ghost var reported := Report(jid, reports, reporting, clock);
        RunAppend(old(State()), trace, reported);
        trace := trace + reported;
        ghost var stored := StoreOutcome(jid, outcome, works.1, works.2, storing, clock);
        RunAppend(old(State()), trace, stored);
        trace := trace + stored;
      }
      ghost var ended := Finalise(jid, closing, clock(1));
      RunAppend(old(State()), trace, ended);
      trace := trace + ended;
      RunKeeps(old(State()), trace);
    }
  }
}

/** The turn relay of src/cloudflare.ts as a transition system.  A step is the
    code between two awaits of the alarm handler, of one of its workers or of an
    RPC, or something that the platform does. */
module RelayModel {
  import opened Prelude
  import opened OrderedMaps

  // ----- the table of turn jobs; a job is its place in enqueue order

  datatype Status = Pending | Recovery | Done | Errored

  datatype Intent = NoIntent | Work | Other

  datatype Row = Row(
    thread: string,
    direct: bool,               // a direct-message conversation
    turnIntent: Intent,         // carried by the turn from admission
    status: Status,             // Done and Errored are the rows with delivered = 1
    attempts: nat,
    envelope: bool,             // a dispatch envelope is stored
    progressIntent: Intent)     // recorded by an earlier attempt

  /** What has happened to a job; nothing the relay does depends on it. */
  datatype Log = Log(
    runs: nat,                  // calls of runTurn
    delivered: bool,            // onDelivered has fired
    finals: nat,                // failure finals sent by the relay
    releases: nat,              // times the relay released the claims
    busy: bool,                 // an attempt is recorded and has not ended
    exempt: nat,                // attempts that ended outside the caps
    reopened: bool,             // an operator made it pending again
    silent: bool,               // runTurn returned without delivering
    foreign: bool)              // put in recovery by something other than runJob

  const FRESH_LOG := Log(0, false, 0, 0, false, 0, false, false, false)

  /** The batch limit of a drain and the two attempt caps. */
  datatype Config = Config(batch: nat, turnCap: nat, dispatchCap: nat)

  predicate ValidConfig(c: Config) {
    c.batch > 0 && c.turnCap > 0 && c.dispatchCap > 0
  }

  function LargerCap(c: Config): nat {
    if c.turnCap > c.dispatchCap then c.turnCap else c.dispatchCap
  }

  /** The cap on a job's attempts; once dispatched, it may have had some before. */
  function CapOf(c: Config, row: Row): nat {
    if row.envelope then LargerCap(c) else c.turnCap
  }

  /** The intent that a run of the job starts from. */
  function Carried(row: Row): Intent {
    if row.turnIntent != NoIntent then row.turnIntent else row.progressIntent
  }

  /** A job as the drain listed it. */
  datatype Snap = Snap(job: nat, attempts: nat, envelope: bool, intent: Intent)

  function SnapOf(rows: seq<Row>, job: nat): Snap
    requires job < |rows|
  {
    Snap(job, rows[job].attempts, rows[job].envelope, Carried(rows[job]))
  }

  // ----- one job in the hands of a worker

  datatype Phase =
    | Preflight
    | Assigning
    | Preparing(active: bool)
    | Running(active: bool, envelope: bool, delivered: bool, carried: bool)
    | SendingFinal(active: bool)
    | Returned(ok: bool)

  /** The job and what its step may change: its row, its log, its active-work
      mark, the worker's place in runJob, and the handler's wish to run again. */
  datatype Job = Job(row: Row, log: Log, marked: bool, started: bool, phase: Phase, retry: bool)

  datatype Failure = PromptRecovery | NoticeUnknown | NoticeRetry | Ordinary

  datatype JobEvent =
    | PreflightOk | PreflightRetry | PreflightFail
    | AssignOk | AssignNone | AssignError
    | Start
    | OnIntent(work: bool) | OnPrepare(seen: bool) | OnRecovery | OnDelivered
    | Return | SilentReturn | Fail(failure: Failure)
    | FinalSent

  /** Only rows that are not delivered can be put in recovery. */
  function Recovered(row: Row): Row {
    if row.status == Pending || row.status == Recovery then row.(status := Recovery) else row
  }

  function Ended(j: Job, ok: bool): Job {
    j.(phase := Returned(ok), log := j.log.(busy := false))
  }

  /** The attempt is counted before the turn runs. */
  function RecordAttempt(snap: Snap, j: Job): Job {
    j.(row := j.row.(attempts := snap.attempts + 1), log := j.log.(busy := true),
       phase := Preparing(snap.intent == Work))
  }

  function Unmarked(j: Job, active: bool): Job {
    j.(marked := j.marked && !active)
  }

  function Exempted(j: Job): Job {
    j.(log := j.log.(exempt := j.log.exempt + 1))
  }

  /** Any failure but the typed ones: a dispatched turn is kept for another
      attempt, and the last attempt of any other sends the failure final. */
  function OrdinaryFail(c: Config, snap: Snap, j: Job): Job
    requires j.phase.Running?
  {
    var attempt := snap.attempts + 1;
    if j.phase.delivered then Ended(j, true)
    else if j.phase.envelope then
      var e := Unmarked(Ended(j, false), j.phase.active);
      if attempt >= c.dispatchCap then e.(row := Recovered(j.row)) else e.(retry := true)
    else if attempt >= c.turnCap then
      j.(phase := SendingFinal(j.phase.active), log := j.log.(finals := j.log.finals + 1))
    else Ended(j, false).(retry := true)
  }

  /** The catch block of runJob. */
  function FailStep(c: Config, snap: Snap, f: Failure, j: Job): Job
    requires j.phase.Running?
  {
    match f
    case PromptRecovery =>
      var e := Unmarked(Ended(j, false), j.phase.active);
      if j.row.status == Pending then Exempted(e) else e
    case NoticeUnknown =>
      Unmarked(Ended(j, false), j.phase.active).(row := Recovered(j.row))
    case NoticeRetry =>
      Exempted(Unmarked(Ended(j, false), j.phase.active)).(retry := true)
    case Ordinary => OrdinaryFail(c, snap, j)
  }

  function IntentRecorded(j: Job, work: bool): Job
    requires j.phase.Running?
  {
    var p, intent := j.phase, if work then Work else Other;
    var row := if j.row.progressIntent == NoIntent then j.row.(progressIntent := intent) else j.row;
    j.(row := row, marked := j.marked || work, phase := p.(active := p.active || work, carried := true))
  }

  function Delivered(j: Job): Job
    requires j.phase.Running?
  {
    Unmarked(j, j.phase.active).(row := j.row.(status := Done), log := j.log.(delivered := true),
                                 phase := j.phase.(delivered := true))
  }

  function ReturnedSilently(j: Job): Job {
    var s := Exempted(Ended(j, true));
    s.(log := s.log.(silent := true))
  }

  /** Calls back from runTurn, and its end. */
  function RunningStep(c: Config, snap: Snap, e: JobEvent, j: Job): Option<Job>
    requires j.phase.Running?
  {
    var p := j.phase;
    match e
    case OnIntent(work) => if p.carried || p.delivered then None else Some(IntentRecorded(j, work))
    case OnPrepare(seen) =>
      Some(j.(row := j.row.(envelope := true), phase := p.(envelope := p.envelope || seen)))
    case OnRecovery =>
      Some(j.(row := Recovered(j.row), log := j.log.(foreign := true)))
    case OnDelivered => Some(Delivered(j))
    case Return => if p.delivered then Some(Ended(j, true)) else None
    case SilentReturn => if p.delivered then None else Some(ReturnedSilently(j))
    case Fail(f) => Some(FailStep(c, snap, f, j))
    case _ => None
  }

  /** The identity and its access are checked before anything else. */
  function PreflightStep(snap: Snap, e: JobEvent, j: Job): Option<Job> {
    match e
    case PreflightOk => Some(if j.row.direct then j.(phase := Assigning) else RecordAttempt(snap, j))
    case PreflightRetry => Some(Ended(j, false).(retry := true))
    case PreflightFail => Some(Unmarked(Ended(j, false), snap.intent == Work).(row := Recovered(j.row)))
    case _ => None
  }

  /** A direct message's assignment is read again; without one the job is over. */
  function AssigningStep(snap: Snap, e: JobEvent, j: Job): Option<Job> {
    match e
    case AssignOk => Some(RecordAttempt(snap, j))
    case AssignNone =>
      var d := Unmarked(Ended(j, true), snap.intent == Work);
      Some(d.(row := j.row.(status := Done), log := d.log.(releases := d.log.releases + 1)))
    case AssignError => Some(Ended(j, false).(retry := true))
    case _ => None
  }

  function StartTurn(snap: Snap, j: Job): Job
    requires j.phase.Preparing?
  {
    j.(started := true, log := j.log.(runs := j.log.runs + 1),
       phase := Running(j.phase.active, snap.envelope, false, snap.intent != NoIntent))
  }

  function EndInError(j: Job): Job
    requires j.phase.SendingFinal?
  {
    var d := Unmarked(Ended(j, true), j.phase.active);
    d.(row := j.row.(status := Errored), log := d.log.(releases := d.log.releases + 1))
  }

  /** One step of runJob on its job; None when the worker is not there. */
  function JobStep(c: Config, snap: Snap, e: JobEvent, j: Job): Option<Job> {
    match j.phase
    case Preflight => PreflightStep(snap, e, j)
    case Assigning => AssigningStep(snap, e, j)
    case Preparing(_) => if e == Start then Some(StartTurn(snap, j)) else None
    case Running(_, _, _, _) => RunningStep(c, snap, e, j)
    case SendingFinal(_) => if e == FinalSent then Some(EndInError(j)) else None
    case Returned(_) => None
  }

  // ----- the handler and its workers

  datatype Worker = Exited | At(group: nat, pos: nat, phase: Phase)

  datatype Handler =
    | Asleep
    | EmptyDrain
    | EmptyArming
    | Draining(groups: seq<seq<Snap>>, next: nat, workers: seq<Worker>, retry: bool, started: set<nat>, taken: seq<nat>)
    | Settling(retry: bool)
    | Arming

  /** An RPC between its row write and its end, and the jobs whose wake-up it owes. */
  datatype Rpc = Rpc(jobs: set<nat>, setting: bool)

  datatype State = State(
    rows: seq<Row>,
    logs: seq<Log>,
    marks: set<nat>,
    armed: bool,
    handler: Handler,
    rpcs: seq<Rpc>,
    acked: set<nat>,            // the RPC that made it pending has returned
    lost: set<nat>)             // that RPC died with the object instead

  const EMPTY := State([], [], {}, false, Asleep, [], {}, {})

  function PendingFrom(rows: seq<Row>, from: nat, limit: nat): (r: seq<nat>)
    requires from <= |rows|
    ensures |r| <= limit
    ensures forall i :: 0 <= i < |r| ==> from <= r[i] < |rows| && rows[r[i]].status == Pending
    ensures forall i, j :: 0 <= i < j < |r| ==> r[i] < r[j]
    decreases |rows| - from
  {
    if from == |rows| || limit == 0 then []
    else if rows[from].status == Pending then [from] + PendingFrom(rows, from + 1, limit - 1)
    else PendingFrom(rows, from + 1, limit)
  }

  /** Oldest first, up to the limit. */
  function ListPending(rows: seq<Row>, limit: nat): (r: seq<nat>)
    ensures forall i :: 0 <= i < |r| ==> r[i] < |rows| && rows[r[i]].status == Pending
  {
    PendingFrom(rows, 0, limit)
  }

  function PendingJobs(rows: seq<Row>): set<nat> {
    set j: nat | j < |rows| && rows[j].status == Pending
  }

  function RecoveryJobs(rows: seq<Row>): set<nat> {
    set j: nat | j < |rows| && rows[j].status == Recovery
  }

  /** The Map of the grouping loop. */
  function Grouped(rows: seq<Row>, jobs: seq<nat>): (m: OrderedMap<string, seq<Snap>>)
    requires forall i :: 0 <= i < |jobs| ==> jobs[i] < |rows|
    ensures m.Valid()
  {
    if jobs == [] then NoEntries()
    else
      var earlier, last := Grouped(rows, jobs[..|jobs| - 1]), jobs[|jobs| - 1];
      var key := rows[last].thread;
      earlier.Set(key, (if key in earlier.at then earlier.at[key] else []) + [SnapOf(rows, last)])
  }

  const DRAIN_CONCURRENCY: nat := 4

  function Upto(n: nat): (r: seq<nat>)
    ensures |r| == n && forall i :: 0 <= i < n ==> r[i] == i
  {
    seq(n, i => i)
  }

  function Least(a: nat, b: nat): nat {
    if a < b then a else b
  }

  function StartDrain(groups: seq<seq<Snap>>): Handler {
    var n := Least(DRAIN_CONCURRENCY, |groups|);
    Draining(groups, n, seq(n, (w: nat) => At(w, 0, Preflight)), false, {}, Upto(n))
  }

  // ----- events

  datatype Event =
    | Enqueue(thread: string, direct: bool, turnIntent: Intent)
    | EnqueueAgain(job: nat)
    | Reopen(jobs: set<nat>)
    | Maintain(ledger: bool)
    | ReadAlarm(rpc: nat)
    | SetAlarm(rpc: nat)
    | Intrude(job: nat)
    | Resolve(job: nat)
    | Fire
    | Crash
    | EmptyDone(more: bool)
    | EmptyArm
    | Step(worker: nat, event: JobEvent)
    | Advance(worker: nat)
    | DrainDone
    | SettleDone(more: bool)
    | Arm

  function JobsOf(rpcs: seq<Rpc>): set<nat> {
    if rpcs == [] then {} else rpcs[0].jobs + JobsOf(rpcs[1..])
  }

  function Finished(s: State, rpc: nat): State
    requires rpc < |s.rpcs|
  {
    s.(rpcs := s.rpcs[..rpc] + s.rpcs[rpc + 1..], acked := s.acked + s.rpcs[rpc].jobs,
       lost := s.lost - s.rpcs[rpc].jobs)
  }

  function ReopenedLogs(logs: seq<Log>, jobs: set<nat>): (r: seq<Log>)
    ensures |r| == |logs|
    ensures forall j :: 0 <= j < |r| ==>
              r[j] == if j in jobs then logs[j].(reopened := true, foreign := false, exempt := logs[j].exempt + 1)
                      else logs[j]
  {
    seq(|logs|, j requires 0 <= j < |logs| =>
      if j in jobs then logs[j].(reopened := true, foreign := false, exempt := logs[j].exempt + 1) else logs[j])
  }

  function ReopenedRows(rows: seq<Row>, jobs: set<nat>): (r: seq<Row>)
    ensures |r| == |rows|
    ensures forall j :: 0 <= j < |r| ==> r[j] == if j in jobs then rows[j].(status := Pending) else rows[j]
  {
    seq(|rows|, j requires 0 <= j < |rows| => if j in jobs then rows[j].(status := Pending) else rows[j])
  }

  /** An attempt under way when the object dies ends outside the caps. */
  function CrashedLogs(logs: seq<Log>): (r: seq<Log>)
    ensures |r| == |logs|
    ensures forall j :: 0 <= j < |r| ==>
              r[j] == if logs[j].busy then logs[j].(busy := false, exempt := logs[j].exempt + 1) else logs[j]
  {
    seq(|logs|, j requires 0 <= j < |logs| =>
      if logs[j].busy then logs[j].(busy := false, exempt := logs[j].exempt + 1) else logs[j])
  }

  predicate Consistent(s: State) {
    && |s.logs| == |s.rows|
    && (s.handler.Draining? ==>
          forall w :: 0 <= w < |s.handler.workers| && s.handler.workers[w].At? ==>
            var at := s.handler.workers[w];
            at.group < |s.handler.groups| && at.pos < |s.handler.groups[at.group]|
            && s.handler.groups[at.group][at.pos].job < |s.rows|)
  }

  function SnapAt(s: State, w: nat): Snap
    requires Consistent(s) && s.handler.Draining? && w < |s.handler.workers| && s.handler.workers[w].At?
  {
    s.handler.groups[s.handler.workers[w].group][s.handler.workers[w].pos]
  }

  /** The job of a worker, as its step sees it. */
  function JobAt(s: State, w: nat): Job
    requires Consistent(s) && s.handler.Draining? && w < |s.handler.workers| && s.handler.workers[w].At?
  {
    var j := SnapAt(s, w).job;
    Job(s.rows[j], s.logs[j], j in s.marks, j in s.handler.started, s.handler.workers[w].phase, s.handler.retry)
  }

  function With(marks: set<nat>, j: nat, marked: bool): set<nat> {
    if marked then marks + {j} else marks - {j}
  }

  /** The state after the worker's step on its job. */
  function Lift(s: State, w: nat, to: Job): State
    requires Consistent(s) && s.handler.Draining? && w < |s.handler.workers| && s.handler.workers[w].At?
  {
    var j := SnapAt(s, w).job;
    var h := s.handler;
    s.(rows := s.rows[j := to.row], logs := s.logs[j := to.log], marks := With(s.marks, j, to.marked),
       handler := h.(workers := h.workers[w := h.workers[w].(phase := to.phase)], retry := to.retry,
                     started := With(h.started, j, to.started)))
  }

  /** After runJob returns, the worker goes on with its group, or takes the next
      one, or is done. */
  function Advanced(h: Handler, w: nat): Handler
    requires h.Draining? && w < |h.workers| && h.workers[w].At? && h.workers[w].phase.Returned?
    requires h.workers[w].group < |h.groups|
  {
    var at := h.workers[w];
    if at.phase.ok && at.pos + 1 < |h.groups[at.group]| then
      h.(workers := h.workers[w := At(at.group, at.pos + 1, Preflight)])
    else if h.next < |h.groups| then
      h.(workers := h.workers[w := At(h.next, 0, Preflight)], next := h.next + 1, taken := h.taken + [h.next])
    else h.(workers := h.workers[w := Exited])
  }

  /** One step, or None when it cannot happen in this state. */
  function Apply(c: Config, s: State, e: Event): Option<State>
    requires Consistent(s)
  {
    match e
    case Enqueue(thread, direct, intent) =>
      var j := |s.rows|;
      Some(s.(rows := s.rows + [Row(thread, direct, intent, Pending, 0, false, NoIntent)], logs := s.logs + [FRESH_LOG],
              marks := With(s.marks, j, intent == Work), rpcs := s.rpcs + [Rpc({j}, false)],
              acked := s.acked - {j}, lost := s.lost - {j}))
    case EnqueueAgain(job) =>
      if job >= |s.rows| then None else Some(s.(rpcs := s.rpcs + [Rpc({job}, false)]))
    case Reopen(jobs) =>
      if jobs == {} || !(jobs <= RecoveryJobs(s.rows)) then None
      else Some(s.(rows := ReopenedRows(s.rows, jobs), logs := ReopenedLogs(s.logs, jobs),
                   rpcs := s.rpcs + [Rpc(jobs, false)], acked := s.acked - jobs, lost := s.lost - jobs))
    case Maintain(ledger) =>
      if PendingJobs(s.rows) == {} && !ledger then None
      else Some(s.(rpcs := s.rpcs + [Rpc(PendingJobs(s.rows), false)]))
    case ReadAlarm(rpc) =>
      if rpc >= |s.rpcs| || s.rpcs[rpc].setting then None
      else if s.armed then Some(Finished(s, rpc))
      else Some(s.(rpcs := s.rpcs[rpc := s.rpcs[rpc].(setting := true)]))
    case SetAlarm(rpc) =>
      if rpc >= |s.rpcs| || !s.rpcs[rpc].setting then None else Some(Finished(s, rpc).(armed := true))
    case Intrude(job) =>
      if job >= |s.rows| || (s.rows[job].status != Pending && s.rows[job].status != Recovery) then None
      else Some(s.(rows := s.rows[job := Recovered(s.rows[job])],
                   logs := s.logs[job := s.logs[job].(foreign := true)]))
    case Resolve(job) =>
      if job >= |s.rows| || s.rows[job].status != Recovery then None
      else Some(s.(rows := s.rows[job := s.rows[job].(status := Errored)]))
    case Fire =>
      if !s.armed || !s.handler.Asleep? then None
      else
        var pending := ListPending(s.rows, c.batch);
        Some(s.(armed := false,
                handler := if pending == [] then EmptyDrain else StartDrain(Grouped(s.rows, pending).Values())))
    case Crash =>
      Some(s.(armed := s.armed || !s.handler.Asleep?, handler := Asleep, rpcs := [],
              lost := s.lost + (JobsOf(s.rpcs) - s.acked), logs := CrashedLogs(s.logs)))
    case EmptyDone(more) =>
      if !s.handler.EmptyDrain? then None else Some(s.(handler := if more then EmptyArming else Asleep))
    case EmptyArm =>
      if !s.handler.EmptyArming? then None else Some(s.(handler := Asleep, armed := true))
    case Step(w, event) =>
      if !s.handler.Draining? || w >= |s.handler.workers| || !s.handler.workers[w].At? then None
      else
        (match JobStep(c, SnapAt(s, w), event, JobAt(s, w))
         case None => None
         case Some(to) => Some(Lift(s, w, to)))
    case Advance(w) =>
      if !s.handler.Draining? || w >= |s.handler.workers| || !s.handler.workers[w].At?
         || !s.handler.workers[w].phase.Returned? then None
      else Some(s.(handler := Advanced(s.handler, w)))
    case DrainDone =>
      if !s.handler.Draining? || (exists w <- s.handler.workers :: w.At?) then None
      else Some(s.(handler := Settling(s.handler.retry)))
    case SettleDone(more) =>
      if !s.handler.Settling? then None
      else if s.handler.retry || PendingJobs(s.rows) != {} || more then Some(s.(handler := Arming))
      else Some(s.(handler := Asleep))
    case Arm =>
      if !s.handler.Arming? then None else Some(s.(handler := Asleep, armed := true))
  }
}

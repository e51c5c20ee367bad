/** What one step of runJob keeps of its job, whatever else goes on: the facts
    from which the laws over whole runs are put together. */
module RelayJob {
  import opened RelayModel

  // ----- facts about a job that hold at every moment

  /** Attempts are within the job's cap, but for those that ended outside the
      caps; a pending job that is not being run has one to spare. */
  predicate BoundOk(c: Config, row: Row, log: Log) {
    && log.runs <= row.attempts <= CapOf(c, row) + log.exempt
    && (row.status == Pending && !log.busy ==> row.attempts < CapOf(c, row) + log.exempt)
  }

  /** Claims are released once, and only for a job that is over. */
  predicate ClaimsOk(row: Row, log: Log) {
    log.releases <= 1 && (log.releases == 1 ==> row.status == Done || row.status == Errored)
  }

  /** A delivered job stays so; a mark is only on a job whose intent is work. */
  predicate JobOk(c: Config, row: Row, log: Log, marked: bool) {
    && BoundOk(c, row, log) && ClaimsOk(row, log)
    && (log.delivered ==> row.status == Done)
    && (marked ==> Carried(row) == Work)
  }

  /** A worker may go past the job: it is no longer pending, but for an
      operator's doing or a turn that ended without delivering. */
  predicate Settled(row: Row, log: Log) {
    row.status != Pending || log.reopened || log.silent
  }

  // ----- facts about a job that a worker has or will have in its hands

  /** The job as it was listed: nobody has started it in this drain. */
  predicate Waiting(c: Config, snap: Snap, j: Job) {
    && j.row.attempts == snap.attempts && j.row.attempts < CapOf(c, j.row) + j.log.exempt
    && (snap.envelope ==> j.row.envelope) && j.log.releases == 0
    && snap.intent == Carried(j.row) && !j.started && !j.log.busy && !j.log.delivered
    && (j.row.status != Pending ==> j.log.foreign)
  }

  /** The job between its recorded attempt and its end. */
  predicate UnderWay(snap: Snap, j: Job, delivered: bool) {
    && j.row.attempts == snap.attempts + 1 && j.log.busy && j.log.delivered == delivered
    && (snap.envelope ==> j.row.envelope) && j.log.releases == 0
    && (j.row.status != Pending && !delivered ==> j.log.foreign)
  }

  predicate InHand(c: Config, snap: Snap, j: Job) {
    match j.phase
    case Preflight => Waiting(c, snap, j)
    case Assigning => Waiting(c, snap, j)
    case Preparing(active) =>
      && UnderWay(snap, j, false) && j.log.runs < j.row.attempts && !j.started
      && snap.intent == Carried(j.row) && (j.marked ==> active)
    case Running(active, envelope, delivered, carried) =>
      && UnderWay(snap, j, delivered) && j.started && (j.marked ==> active && !delivered)
      && (envelope ==> j.row.envelope)
      && (!carried ==> Carried(j.row) == NoIntent)
    case SendingFinal(active) =>
      UnderWay(snap, j, false) && j.started && (j.marked ==> active)
    case Returned(ok) =>
      !j.log.busy && (ok ==> Settled(j.row, j.log))
  }

  /** What a step does not take back. */
  predicate Onward(j: Job, to: Job) {
    && to.row.thread == j.row.thread && to.log.reopened == j.log.reopened
    && (j.row.status != Pending ==> to.row.status != Pending)
    && (j.log.silent ==> to.log.silent) && (j.started ==> to.started)
    && (j.log.delivered ==>
          to.log.delivered && to.log.runs == j.log.runs && to.log.finals == j.log.finals
          && to.log.releases == j.log.releases)
  }

  /** What a step keeps, all together. */
  predicate Keeps(c: Config, snap: Snap, j: Job, to: Job) {
    InHand(c, snap, to) && JobOk(c, to.row, to.log, to.marked) && Onward(j, to)
  }

  predicate Known(c: Config, snap: Snap, j: Job) {
    InHand(c, snap, j) && JobOk(c, j.row, j.log, j.marked)
  }

  lemma RecordKeeps(c: Config, snap: Snap, j: Job)
    requires Waiting(c, snap, j) && JobOk(c, j.row, j.log, j.marked)
    ensures Keeps(c, snap, j, RecordAttempt(snap, j))
  {
  }

  lemma PreflightKeeps(c: Config, snap: Snap, e: JobEvent, j: Job)
    requires j.phase.Preflight? && Known(c, snap, j) && PreflightStep(snap, e, j).Some?
    ensures Keeps(c, snap, j, PreflightStep(snap, e, j).value)
  {
    match e
    case PreflightOk => if !j.row.direct { RecordKeeps(c, snap, j); }
    case _ =>
  }

  lemma AssigningKeeps(c: Config, snap: Snap, e: JobEvent, j: Job)
    requires j.phase.Assigning? && Known(c, snap, j) && AssigningStep(snap, e, j).Some?
    ensures Keeps(c, snap, j, AssigningStep(snap, e, j).value)
  {
    match e
    case AssignOk => RecordKeeps(c, snap, j);
    case _ =>
  }

  // ----- the turn

  lemma SilentReturnKeeps(c: Config, snap: Snap, j: Job)
    requires j.phase.Running? && Known(c, snap, j) && !j.phase.delivered
    ensures Keeps(c, snap, j, ReturnedSilently(j))
  {
  }

  lemma CallbackKeeps(c: Config, snap: Snap, e: JobEvent, j: Job)
    requires j.phase.Running? && Known(c, snap, j) && (e.OnPrepare? || e.OnRecovery? || e.Return?)
    requires RunningStep(c, snap, e, j).Some?
    ensures Keeps(c, snap, j, RunningStep(c, snap, e, j).value)
  {
    match e
    case OnPrepare(_) =>
    case OnRecovery =>
    case Return =>
  }

  lemma OrdinaryFailKeeps(c: Config, snap: Snap, j: Job)
    requires ValidConfig(c) && j.phase.Running? && Known(c, snap, j)
    ensures Keeps(c, snap, j, OrdinaryFail(c, snap, j))
  {
    var to := OrdinaryFail(c, snap, j);
    assert UnderWay(snap, j, j.phase.delivered);
    if j.phase.delivered {
      assert to == Ended(j, true);
    } else if j.phase.envelope {
      DispatchedFailKeeps(c, snap, j);
    } else if snap.attempts + 1 < c.turnCap {
      assert to == Ended(j, false).(retry := true);
    }
  }

  lemma DispatchedFailKeeps(c: Config, snap: Snap, j: Job)
    requires ValidConfig(c) && j.phase.Running? && Known(c, snap, j) && !j.phase.delivered && j.phase.envelope
    ensures Keeps(c, snap, j, OrdinaryFail(c, snap, j))
  {
    var e := Unmarked(Ended(j, false), j.phase.active);
    assert UnderWay(snap, j, false);
    assert OrdinaryFail(c, snap, j)
        == if snap.attempts + 1 >= c.dispatchCap then e.(row := Recovered(j.row)) else e.(retry := true);
  }

  lemma PromptFailKeeps(c: Config, snap: Snap, j: Job)
    requires j.phase.Running? && Known(c, snap, j)
    ensures Keeps(c, snap, j, FailStep(c, snap, PromptRecovery, j))
  {
    var e := Unmarked(Ended(j, false), j.phase.active);
    assert UnderWay(snap, j, j.phase.delivered);
    assert FailStep(c, snap, PromptRecovery, j) == if j.row.status == Pending then Exempted(e) else e;
  }

  lemma FailKeeps(c: Config, snap: Snap, f: Failure, j: Job)
    requires ValidConfig(c) && j.phase.Running? && Known(c, snap, j)
    ensures Keeps(c, snap, j, FailStep(c, snap, f, j))
  {
    match f
    case PromptRecovery => PromptFailKeeps(c, snap, j);
    case Ordinary => OrdinaryFailKeeps(c, snap, j);
    case _ =>
  }

  lemma RunningKeeps(c: Config, snap: Snap, e: JobEvent, j: Job)
    requires ValidConfig(c) && j.phase.Running? && Known(c, snap, j)
    requires RunningStep(c, snap, e, j).Some?
    ensures Keeps(c, snap, j, RunningStep(c, snap, e, j).value)
  {
    match e
    case OnIntent(_) =>
    case OnDelivered =>
    case SilentReturn => SilentReturnKeeps(c, snap, j);
    case Fail(f) => FailKeeps(c, snap, f, j);
    case _ => CallbackKeeps(c, snap, e, j);
  }

  /** Every step of runJob keeps all of it. */
  lemma JobStepKeeps(c: Config, snap: Snap, e: JobEvent, j: Job)
    requires ValidConfig(c) && Known(c, snap, j) && JobStep(c, snap, e, j).Some?
    ensures Keeps(c, snap, j, JobStep(c, snap, e, j).value)
  {
    match j.phase
    case Preflight => PreflightKeeps(c, snap, e, j);
    case Assigning => AssigningKeeps(c, snap, e, j);
    case Running(_, _, _, _) => RunningKeeps(c, snap, e, j);
    case _ =>
  }

  // ----- what a step does not touch

  /** An end of an attempt that the caps see. */
  predicate Counted(e: JobEvent) {
    e != SilentReturn && e != Fail(NoticeRetry) && e != Fail(PromptRecovery)
  }

  /** Only an undelivered return marks a job as skipped, and only ends outside the
      caps are exempt. */
  predicate Untouched(e: JobEvent, log: Log, to: Log) {
    && to.reopened == log.reopened && (e != SilentReturn ==> to.silent == log.silent)
    && (Counted(e) ==> to.exempt == log.exempt)
  }

  lemma FailTouches(c: Config, snap: Snap, f: Failure, j: Job)
    requires j.phase.Running?
    ensures Untouched(Fail(f), j.log, FailStep(c, snap, f, j).log)
  {
    match f
    case Ordinary => OrdinaryFailTouches(c, snap, j);
    case NoticeUnknown => assert FailStep(c, snap, f, j).log == j.log.(busy := false);
    case PromptRecovery =>
      var ended := j.log.(busy := false);
      assert FailStep(c, snap, f, j).log in {ended, ended.(exempt := j.log.exempt + 1)};
    case NoticeRetry =>
      assert FailStep(c, snap, f, j).log == j.log.(busy := false, exempt := j.log.exempt + 1);
  }

  lemma OrdinaryFailTouches(c: Config, snap: Snap, j: Job)
    requires j.phase.Running?
    ensures var to := OrdinaryFail(c, snap, j);
            to.log == j.log.(busy := false) || to.log == j.log.(finals := j.log.finals + 1)
  {
  }

  lemma RunningTouches(c: Config, snap: Snap, e: JobEvent, j: Job)
    requires j.phase.Running? && RunningStep(c, snap, e, j).Some?
    ensures Untouched(e, j.log, RunningStep(c, snap, e, j).value.log)
  {
    if e.Fail? { FailTouches(c, snap, e.failure, j); }
  }

  lemma JobStepTouches(c: Config, snap: Snap, e: JobEvent, j: Job)
    requires JobStep(c, snap, e, j).Some?
    ensures Untouched(e, j.log, JobStep(c, snap, e, j).value.log)
  {
    match j.phase
    case Preflight => assert PreflightStep(snap, e, j).value.log.exempt == j.log.exempt;
    case Assigning => assert AssigningStep(snap, e, j).value.log.exempt == j.log.exempt;
    case Running(_, _, _, _) => RunningTouches(c, snap, e, j);
    case _ =>
  }

  // ----- what single steps promise

  /** The cap of a turn that fails undelivered. */
  function CapOfTurn(c: Config, p: Phase): nat
    requires p.Running?
  {
    if p.envelope then c.dispatchCap else c.turnCap
  }

  lemma FailureEndsOrRetries(c: Config, snap: Snap, j: Job)
    requires j.phase.Running? && InHand(c, snap, j) && !j.phase.delivered && j.row.status == Pending
    ensures var to := OrdinaryFail(c, snap, j);
            && to.log.runs == j.log.runs && to.log.releases == 0
            && (to.phase == Returned(false) && to.row.status == Pending && to.retry
                <==> j.row.attempts < CapOfTurn(c, j.phase))
            && (to.row.status == Recovery <==> j.phase.envelope && j.row.attempts >= c.dispatchCap)
            && (to.log.finals == j.log.finals + 1 <==> !j.phase.envelope && j.row.attempts >= c.turnCap)
            && (to.log.finals > j.log.finals ==> to.phase.SendingFinal?)
  {
    assert UnderWay(snap, j, false);
  }

  /** The steps that end a run of the job and touch neither its row nor its mark. */
  predicate KeepsMark(c: Config, snap: Snap, e: JobEvent, p: Phase) {
    || e == PreflightRetry || e == AssignError || e == SilentReturn
    || (e == Fail(Ordinary) && p.Running? && !p.delivered && !p.envelope && snap.attempts + 1 < c.turnCap)
  }

  /** When runJob returns with its job no longer pending, the job's mark is left on
      exactly when the job was marked and no longer pending already, and the step
      was one of those. */
  lemma MarkIsLeftExactly(c: Config, snap: Snap, e: JobEvent, j: Job)
    requires ValidConfig(c) && Known(c, snap, j)
    requires JobStep(c, snap, e, j).Some? && JobStep(c, snap, e, j).value.phase.Returned?
    ensures var to := JobStep(c, snap, e, j).value;
            to.row.status != Pending && to.marked <==>
              j.marked && j.row.status != Pending && KeepsMark(c, snap, e, j.phase)
  {
    if j.phase.Running? { TurnLeavesMarkExactly(c, snap, e, j); }
  }

  lemma TurnLeavesMarkExactly(c: Config, snap: Snap, e: JobEvent, j: Job)
    requires ValidConfig(c) && j.phase.Running? && InHand(c, snap, j)
    requires RunningStep(c, snap, e, j).Some? && RunningStep(c, snap, e, j).value.phase.Returned?
    ensures var to := RunningStep(c, snap, e, j).value;
            to.row.status != Pending && to.marked <==>
              j.marked && j.row.status != Pending && KeepsMark(c, snap, e, j.phase)
  {
    if e.Fail? { FailLeavesMarkExactly(c, snap, e.failure, j); }
  }

  lemma FailLeavesMarkExactly(c: Config, snap: Snap, f: Failure, j: Job)
    requires ValidConfig(c) && j.phase.Running? && InHand(c, snap, j)
    requires FailStep(c, snap, f, j).phase.Returned?
    ensures var to := FailStep(c, snap, f, j);
            to.row.status != Pending && to.marked <==>
              j.marked && j.row.status != Pending && KeepsMark(c, snap, Fail(f), j.phase)
  {
    if f != Ordinary {
      assert !FailStep(c, snap, f, j).marked;
    }
  }

}

/** What each step of runJob comes to, over every run from an empty store: the
    job's row, its log, its mark, the worker's place and the wish to run again,
    and that nothing else changes. */
module RelayOutcomes {
  import opened Prelude
  import opened RelayModel
  import opened RelayJob
  import opened RelayInvariant
  import opened RelayRuns

  // ----- a worker's step

  /** The step of a worker that holds a job: the job's row, log and mark and the
      worker's place are these, and no other job or worker has changed. */
  ghost predicate Becomes(s: State, t: State, w: nat, row: Row, log: Log, marked: bool, phase: Phase, retry: bool)
    requires Consistent(s) && s.handler.Draining? && w < |s.handler.workers| && s.handler.workers[w].At?
  {
    var h, at := s.handler, s.handler.workers[w];
    var j := h.groups[at.group][at.pos].job;
    && t.rows == s.rows[j := row] && t.logs == s.logs[j := log]
    && t.marks == (if marked then s.marks + {j} else s.marks - {j})
    && t.armed == s.armed && t.rpcs == s.rpcs && t.acked == s.acked && t.lost == s.lost
    && t.handler == Draining(h.groups, h.next, h.workers[w := At(at.group, at.pos, phase)], retry,
                             if phase.Running? then h.started + {j} else h.started, h.taken)
  }

  /** The worker is in this phase of runJob, in some run. */
  ghost predicate Holds(c: Config, past: seq<Event>, s: State, w: nat) {
    Leads(c, past, s) && Consistent(s) && s.handler.Draining? && IsAt(s.handler, w)
  }

  function RowAt(s: State, w: nat): Row
    requires Consistent(s) && s.handler.Draining? && w < |s.handler.workers| && s.handler.workers[w].At?
  {
    s.rows[s.handler.groups[s.handler.workers[w].group][s.handler.workers[w].pos].job]
  }

  function LogAt(s: State, w: nat): Log
    requires Consistent(s) && s.handler.Draining? && w < |s.handler.workers| && s.handler.workers[w].At?
  {
    s.logs[s.handler.groups[s.handler.workers[w].group][s.handler.workers[w].pos].job]
  }

  predicate MarkedAt(s: State, w: nat)
    requires Consistent(s) && s.handler.Draining? && w < |s.handler.workers| && s.handler.workers[w].At?
  {
    s.handler.groups[s.handler.workers[w].group][s.handler.workers[w].pos].job in s.marks
  }

  lemma StepBecomes(c: Config, past: seq<Event>, s: State, w: nat, e: JobEvent, to: Job)
    requires Holds(c, past, s, w) && JobStep(c, SnapAt(s, w), e, JobAt(s, w)) == Some(to)
    requires to.started == (to.phase.Running? || JobAt(s, w).started)
    ensures Apply(c, s, Step(w, e)).Some?
    ensures Becomes(s, Apply(c, s, Step(w, e)).value, w, to.row, to.log, to.marked, to.phase, to.retry)
  {
    var h, j := s.handler, SnapAt(s, w).job;
    assert h.workers[w].(phase := to.phase) == At(h.workers[w].group, h.workers[w].pos, to.phase);
    assert With(s.marks, j, to.marked) == if to.marked then s.marks + {j} else s.marks - {j};
    if !to.phase.Running? { assert With(h.started, j, to.started) == h.started; }
  }

  lemma HeldIsKnown(c: Config, past: seq<Event>, s: State, w: nat)
    requires Holds(c, past, s, w)
    ensures Known(c, SnapAt(s, w), JobAt(s, w))
  {
    LeadsToInv(c, past, s);
    var j := SnapAt(s, w).job;
    assert InHand(c, SnapAt(s, w), JobAt(s, w));
    assert JobOk(c, s.rows[j], s.logs[j], j in s.marks);
  }

  /** A row that is not over goes to recovery. */
  function ToRecovery(row: Row): Row {
    if row.status == Done || row.status == Errored then row else row.(status := Recovery)
  }

  /** The attempt that a worker counts before it prepares the turn. */
  ghost predicate Counts(s: State, t: State, w: nat)
    requires Consistent(s) && s.handler.Draining? && w < |s.handler.workers| && s.handler.workers[w].At?
  {
    var row := RowAt(s, w);
    var intent := if row.turnIntent != NoIntent then row.turnIntent else row.progressIntent;
    Becomes(s, t, w, row.(attempts := row.attempts + 1), LogAt(s, w).(busy := true), MarkedAt(s, w),
            Preparing(intent == Work), s.handler.retry)
  }

  lemma StepTo(c: Config, past: seq<Event>, s: State, w: nat, e: JobEvent)
    requires Holds(c, past, s, w) && JobStep(c, SnapAt(s, w), e, JobAt(s, w)).Some?
    requires var to := JobStep(c, SnapAt(s, w), e, JobAt(s, w)).value;
             to.started == (to.phase.Running? || JobAt(s, w).started)
    ensures Apply(c, s, Step(w, e)).Some?
    ensures var to := JobStep(c, SnapAt(s, w), e, JobAt(s, w)).value;
            Becomes(s, Apply(c, s, Step(w, e)).value, w, to.row, to.log, to.marked, to.phase, to.retry)
  {
    StepBecomes(c, past, s, w, e, JobStep(c, SnapAt(s, w), e, JobAt(s, w)).value);
  }

  /** Nothing changes but the worker's place: it lets go of the job, and another drain is asked for. */
  ghost predicate LetsGo(s: State, t: State, w: nat)
    requires Consistent(s) && s.handler.Draining? && w < |s.handler.workers| && s.handler.workers[w].At?
  {
    Becomes(s, t, w, RowAt(s, w), LogAt(s, w), MarkedAt(s, w), Returned(false), true)
  }

  // ----- before the turn

  /** The preflight: a direct message goes on to its assignment, any other job
      counts its attempt. */
  lemma PreflightPasses(c: Config, past: seq<Event>, s: State, w: nat)
    requires Holds(c, past, s, w) && s.handler.workers[w].phase == Preflight
    ensures var t := Apply(c, s, Step(w, PreflightOk));
            && t.Some? && if RowAt(s, w).direct
               then Becomes(s, t.value, w, RowAt(s, w), LogAt(s, w), MarkedAt(s, w), Assigning, s.handler.retry)
               else Counts(s, t.value, w)
  {
    HeldIsKnown(c, past, s, w);
    StepTo(c, past, s, w, PreflightOk);
  }

  lemma PreflightIsRetried(c: Config, past: seq<Event>, s: State, w: nat)
    requires Holds(c, past, s, w) && s.handler.workers[w].phase == Preflight
    ensures var t := Apply(c, s, Step(w, PreflightRetry)); t.Some? && LetsGo(s, t.value, w)
  {
    HeldIsKnown(c, past, s, w);
    StepTo(c, past, s, w, PreflightRetry);
  }

  /** It fails: the job goes to recovery, its mark is off, and no other drain is asked for. */
  lemma PreflightFails(c: Config, past: seq<Event>, s: State, w: nat)
    requires Holds(c, past, s, w) && s.handler.workers[w].phase == Preflight
    ensures var t := Apply(c, s, Step(w, PreflightFail));
            t.Some? && Becomes(s, t.value, w, ToRecovery(RowAt(s, w)), LogAt(s, w), false, Returned(false),
                               s.handler.retry)
  {
    HeldIsKnown(c, past, s, w);
    StepTo(c, past, s, w, PreflightFail);
  }

  lemma AssignmentIsRead(c: Config, past: seq<Event>, s: State, w: nat)
    requires Holds(c, past, s, w) && s.handler.workers[w].phase == Assigning
    ensures var t := Apply(c, s, Step(w, AssignOk)); t.Some? && Counts(s, t.value, w)
  {
    HeldIsKnown(c, past, s, w);
    StepTo(c, past, s, w, AssignOk);
  }

  /** A direct message's assignment is gone: the job is done, its claims are
      released, its mark is off, and the group goes on; no turn has run for it
      and no final is sent. */
  lemma AssignmentIsGone(c: Config, past: seq<Event>, s: State, w: nat)
    requires Holds(c, past, s, w) && s.handler.workers[w].phase == Assigning
    ensures LogAt(s, w).releases == 0
    ensures var t := Apply(c, s, Step(w, AssignNone));
            t.Some? && Becomes(s, t.value, w, RowAt(s, w).(status := Done), LogAt(s, w).(releases := 1), false,
                               Returned(true), s.handler.retry)
  {
    HeldIsKnown(c, past, s, w);
    StepTo(c, past, s, w, AssignNone);
  }

  lemma AssignmentIsUnread(c: Config, past: seq<Event>, s: State, w: nat)
    requires Holds(c, past, s, w) && s.handler.workers[w].phase == Assigning
    ensures var t := Apply(c, s, Step(w, AssignError)); t.Some? && LetsGo(s, t.value, w)
  {
    HeldIsKnown(c, past, s, w);
    StepTo(c, past, s, w, AssignError);
  }

  /** The turn starts: it is one run more, and it has the envelope and the
      intent that the job was listed with. */
  lemma TurnStarts(c: Config, past: seq<Event>, s: State, w: nat)
    requires Holds(c, past, s, w) && s.handler.workers[w].phase.Preparing?
    ensures var t := Apply(c, s, Step(w, Start));
            var snap := s.handler.groups[s.handler.workers[w].group][s.handler.workers[w].pos];
            t.Some? && Becomes(s, t.value, w, RowAt(s, w), LogAt(s, w).(runs := LogAt(s, w).runs + 1), MarkedAt(s, w),
                               Running(s.handler.workers[w].phase.active, snap.envelope, false,
                                       snap.intent != NoIntent),
                               s.handler.retry)
  {
    HeldIsKnown(c, past, s, w);
    StepTo(c, past, s, w, Start);
  }

  // ----- the turn calls back

  ghost predicate Runs(c: Config, past: seq<Event>, s: State, w: nat) {
    Holds(c, past, s, w) && s.handler.workers[w].phase.Running?
  }

  /** The intent is recorded once, while the turn carries none and before it is
      delivered; an intent to work marks the job. */
  lemma IntentIsRecorded(c: Config, past: seq<Event>, s: State, w: nat, work: bool)
    requires Runs(c, past, s, w)
    ensures var p, t := s.handler.workers[w].phase, Apply(c, s, Step(w, OnIntent(work)));
            if p.carried || p.delivered then t.None?
            else t.Some? && Becomes(s, t.value, w, RowAt(s, w).(progressIntent := if work then Work else Other),
                                    LogAt(s, w), MarkedAt(s, w) || work,
                                    Running(p.active || work, p.envelope, false, true), s.handler.retry)
  {
    HeldIsKnown(c, past, s, w);
    var p := s.handler.workers[w].phase;
    if !p.carried && !p.delivered { StepTo(c, past, s, w, OnIntent(work)); }
  }

  /** A dispatch is prepared: the row has an envelope, and so has the turn if it sees it. */
  lemma DispatchIsPrepared(c: Config, past: seq<Event>, s: State, w: nat, seen: bool)
    requires Runs(c, past, s, w)
    ensures var p, t := s.handler.workers[w].phase, Apply(c, s, Step(w, OnPrepare(seen)));
            t.Some? && Becomes(s, t.value, w, RowAt(s, w).(envelope := true), LogAt(s, w), MarkedAt(s, w),
                               Running(p.active, p.envelope || seen, p.delivered, p.carried), s.handler.retry)
  {
    HeldIsKnown(c, past, s, w);
    StepTo(c, past, s, w, OnPrepare(seen));
  }

  lemma RecoveryIsAsked(c: Config, past: seq<Event>, s: State, w: nat)
    requires Runs(c, past, s, w)
    ensures var t := Apply(c, s, Step(w, OnRecovery));
            t.Some? && Becomes(s, t.value, w, ToRecovery(RowAt(s, w)), LogAt(s, w).(foreign := true), MarkedAt(s, w),
                               s.handler.workers[w].phase, s.handler.retry)
  {
    HeldIsKnown(c, past, s, w);
    StepTo(c, past, s, w, OnRecovery);
  }

  /** The final is delivered: the job is done and its mark is off. */
  lemma TurnIsDelivered(c: Config, past: seq<Event>, s: State, w: nat)
    requires Runs(c, past, s, w)
    ensures var p, t := s.handler.workers[w].phase, Apply(c, s, Step(w, OnDelivered));
            t.Some? && Becomes(s, t.value, w, RowAt(s, w).(status := Done), LogAt(s, w).(delivered := true), false,
                               Running(p.active, p.envelope, true, p.carried), s.handler.retry)
  {
    HeldIsKnown(c, past, s, w);
    StepTo(c, past, s, w, OnDelivered);
  }

  // ----- the turn ends

  function Over(log: Log): Log {
    log.(busy := false)
  }

  /** It returns after delivery: the attempt is over and the group goes on. */
  lemma TurnReturns(c: Config, past: seq<Event>, s: State, w: nat)
    requires Runs(c, past, s, w)
    ensures var t := Apply(c, s, Step(w, Return));
            if !s.handler.workers[w].phase.delivered then t.None?
            else t.Some? && Becomes(s, t.value, w, RowAt(s, w), Over(LogAt(s, w)), false, Returned(true),
                                    s.handler.retry)
  {
    HeldIsKnown(c, past, s, w);
    if s.handler.workers[w].phase.delivered { StepTo(c, past, s, w, Return); }
  }

  /** It returns without having delivered: the job stays as it is and the group goes on. */
  lemma TurnReturnsSilently(c: Config, past: seq<Event>, s: State, w: nat)
    requires Runs(c, past, s, w)
    ensures var log, t := LogAt(s, w), Apply(c, s, Step(w, SilentReturn));
            if s.handler.workers[w].phase.delivered then t.None?
            else t.Some? && Becomes(s, t.value, w, RowAt(s, w), Over(log).(exempt := log.exempt + 1, silent := true),
                                    MarkedAt(s, w), Returned(true), s.handler.retry)
  {
    HeldIsKnown(c, past, s, w);
    if !s.handler.workers[w].phase.delivered {
      var log := LogAt(s, w);
      StepBecomes(c, past, s, w, SilentReturn,
                  Job(RowAt(s, w), Over(log).(exempt := log.exempt + 1, silent := true), MarkedAt(s, w), true,
                      Returned(true), s.handler.retry));
    }
  }

  /** A prompt failure that asks for recovery: the row stays as the turn left it
      and the mark is off; the attempt counts as exempt while the job is pending. */
  lemma PromptAsksForRecovery(c: Config, past: seq<Event>, s: State, w: nat)
    requires Runs(c, past, s, w)
    ensures var log, t := LogAt(s, w), Apply(c, s, Step(w, Fail(PromptRecovery)));
            var exempt := if RowAt(s, w).status == Pending then log.exempt + 1 else log.exempt;
            t.Some? && Becomes(s, t.value, w, RowAt(s, w), Over(log).(exempt := exempt), false, Returned(false),
                               s.handler.retry)
  {
    HeldIsKnown(c, past, s, w);
    var log := LogAt(s, w);
    var exempt := if RowAt(s, w).status == Pending then log.exempt + 1 else log.exempt;
    StepBecomes(c, past, s, w, Fail(PromptRecovery),
                Job(RowAt(s, w), Over(log).(exempt := exempt), false, true, Returned(false), s.handler.retry));
  }

  /** A continuity notice whose delivery is unknown: the job goes to recovery. */
  lemma NoticeIsUnknown(c: Config, past: seq<Event>, s: State, w: nat)
    requires Runs(c, past, s, w)
    ensures var t := Apply(c, s, Step(w, Fail(NoticeUnknown)));
            t.Some? && Becomes(s, t.value, w, ToRecovery(RowAt(s, w)), Over(LogAt(s, w)), false, Returned(false),
                               s.handler.retry)
  {
    HeldIsKnown(c, past, s, w);
    StepTo(c, past, s, w, Fail(NoticeUnknown));
  }

  /** A continuity notice that was not delivered: the job stays, for another drain. */
  lemma NoticeIsRetried(c: Config, past: seq<Event>, s: State, w: nat)
    requires Runs(c, past, s, w)
    ensures var log, t := LogAt(s, w), Apply(c, s, Step(w, Fail(NoticeRetry)));
            t.Some? && Becomes(s, t.value, w, RowAt(s, w), Over(log).(exempt := log.exempt + 1), false,
                               Returned(false), true)
  {
    HeldIsKnown(c, past, s, w);
    var snap, j := SnapAt(s, w), JobAt(s, w);
    StepBecomes(c, past, s, w, Fail(NoticeRetry), FailStep(c, snap, NoticeRetry, j));
  }

  /** Any other failure after delivery changes nothing and the group goes on. */
  lemma DeliveredTurnFails(c: Config, past: seq<Event>, s: State, w: nat)
    requires Runs(c, past, s, w) && s.handler.workers[w].phase.delivered
    ensures var t := Apply(c, s, Step(w, Fail(Ordinary)));
            t.Some? && Becomes(s, t.value, w, RowAt(s, w), Over(LogAt(s, w)), false, Returned(true), s.handler.retry)
  {
    HeldIsKnown(c, past, s, w);
    StepTo(c, past, s, w, Fail(Ordinary));
  }

  /** A dispatched turn fails: it is kept for another drain, or goes to recovery
      at the dispatch cap; its mark is off either way. */
  lemma DispatchedTurnFails(c: Config, past: seq<Event>, s: State, w: nat)
    requires Runs(c, past, s, w) && !s.handler.workers[w].phase.delivered && s.handler.workers[w].phase.envelope
    ensures var t := Apply(c, s, Step(w, Fail(Ordinary)));
            && t.Some? && if RowAt(s, w).attempts >= c.dispatchCap
               then Becomes(s, t.value, w, ToRecovery(RowAt(s, w)), Over(LogAt(s, w)), false, Returned(false),
                            s.handler.retry)
               else Becomes(s, t.value, w, RowAt(s, w), Over(LogAt(s, w)), false, Returned(false), true)
  {
    HeldIsKnown(c, past, s, w);
    StepTo(c, past, s, w, Fail(Ordinary));
  }

  /** Any other fails: it is kept for another drain with its mark, or gets the
      failure final at the turn cap. */
  lemma PlainTurnFails(c: Config, past: seq<Event>, s: State, w: nat)
    requires Runs(c, past, s, w) && !s.handler.workers[w].phase.delivered && !s.handler.workers[w].phase.envelope
    ensures var log, t := LogAt(s, w), Apply(c, s, Step(w, Fail(Ordinary)));
            && t.Some? && if RowAt(s, w).attempts >= c.turnCap
               then Becomes(s, t.value, w, RowAt(s, w), log.(finals := log.finals + 1), MarkedAt(s, w),
                            SendingFinal(s.handler.workers[w].phase.active), s.handler.retry)
               else Becomes(s, t.value, w, RowAt(s, w), Over(log), MarkedAt(s, w), Returned(false), true)
  {
    HeldIsKnown(c, past, s, w);
    var log, row := LogAt(s, w), RowAt(s, w);
    if row.attempts >= c.turnCap {
      StepBecomes(c, past, s, w, Fail(Ordinary),
                  Job(row, log.(finals := log.finals + 1), MarkedAt(s, w), true,
                      SendingFinal(s.handler.workers[w].phase.active), s.handler.retry));
    } else {
      StepBecomes(c, past, s, w, Fail(Ordinary), Job(row, Over(log), MarkedAt(s, w), true, Returned(false), true));
    }
  }

  /** Once the failure final was sent, or could not be, the job is over: its
      claims are released, its mark is off, and the group goes on. */
  lemma FinalIsSent(c: Config, past: seq<Event>, s: State, w: nat)
    requires Holds(c, past, s, w) && s.handler.workers[w].phase.SendingFinal?
    ensures LogAt(s, w).releases == 0
    ensures var t := Apply(c, s, Step(w, FinalSent));
            t.Some? && Becomes(s, t.value, w, RowAt(s, w).(status := Errored), Over(LogAt(s, w)).(releases := 1), false,
                               Returned(true), s.handler.retry)
  {
    HeldIsKnown(c, past, s, w);
    StepTo(c, past, s, w, FinalSent);
  }

  /** No other step is possible than those. */
  lemma StepsOfPhase(c: Config, past: seq<Event>, s: State, w: nat, e: JobEvent)
    requires Holds(c, past, s, w) && Apply(c, s, Step(w, e)).Some?
    ensures match s.handler.workers[w].phase
            case Preflight => e in [PreflightOk, PreflightRetry, PreflightFail]
            case Assigning => e in [AssignOk, AssignNone, AssignError]
            case Preparing(_) => e == Start
            case Running(_, _, _, _) =>
              e.OnIntent? || e.OnPrepare? || e.Fail? || e in [OnRecovery, OnDelivered, Return, SilentReturn]
            case SendingFinal(_) => e == FinalSent
            case Returned(_) => false
  {
  }
}

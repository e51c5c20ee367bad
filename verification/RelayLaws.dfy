/** What the relay promises over whole runs: any interleaving of workers, RPCs,
    operators and crashes, from an empty store. */
module RelayLaws {
  import opened Prelude
  import opened RelayModel
  import opened RelayJob
  import opened RelayInvariant
  import opened RelayRuns

  // ----- order within a conversation

  predicate Starts(c: Config, s: State, w: nat) {
    Consistent(s) && Apply(c, s, Step(w, Start)).Some?
  }

  /** runTurn starts on a job only when every earlier job of its conversation is
      no longer pending, but for jobs that an operator reopened or whose turn
      returned without delivering. */
  lemma TurnsStartInOrder(c: Config, past: seq<Event>, s: State, w: nat, i: nat)
    requires Leads(c, past, s) && Starts(c, s, w)
    requires i < SnapAt(s, w).job && s.rows[i].thread == s.rows[SnapAt(s, w).job].thread
    ensures s.rows[i].status != Pending || s.logs[i].reopened || s.logs[i].silent
  {
    LeadsToInv(c, past, s);
    assert IsAt(s.handler, w);
    var at := s.handler.workers[w];
    if OpenBefore(s.rows, s.logs, i, SnapAt(s, w).job) {
      assert SnapAt(s, w).job == JobIn(s.handler.groups, at.group, at.pos);
      var p :| 0 <= p < at.pos && JobIn(s.handler.groups, at.group, p) == i;
    }
  }

  /** No operator's retry, and no turn that returns without delivering. */
  predicate Plain(e: Event) {
    !e.Reopen? && (e.Step? ==> e.event != SilentReturn)
  }

  ghost predicate NoneSkipped(logs: seq<Log>) {
    forall j :: 0 <= j < |logs| ==> !logs[j].reopened && !logs[j].silent
  }

  lemma StepSkipsNothing(c: Config, s: State, e: Event)
    requires Consistent(s) && Apply(c, s, e).Some? && Plain(e) && NoneSkipped(s.logs)
    ensures NoneSkipped(Apply(c, s, e).value.logs)
  {
    if e.Step? { JobStepTouches(c, SnapAt(s, e.worker), e.event, JobAt(s, e.worker)); }
  }

  lemma {:induction false} PlainRunSkipsNothing(c: Config, s: State, events: seq<Event>)
    requires Run(c, s, events).Some? && (forall e <- events :: Plain(e)) && NoneSkipped(s.logs)
    ensures NoneSkipped(Run(c, s, events).value.logs)
    decreases |events|
  {
    if events != [] {
      assert events[0] in events && forall e <- events[1..] :: e in events;
      StepSkipsNothing(c, s, events[0]);
      PlainRunSkipsNothing(c, Apply(c, s, events[0]).value, events[1..]);
    }
  }

  /** First in, first out: in such runs, whatever crashes, fails or interleaves,
      every earlier job of the conversation is no longer pending. */
  lemma FirstInFirstOut(c: Config, past: seq<Event>, s: State, w: nat, i: nat)
    requires Leads(c, past, s) && Starts(c, s, w) && forall e <- past :: Plain(e)
    requires i < SnapAt(s, w).job && s.rows[i].thread == s.rows[SnapAt(s, w).job].thread
    ensures s.rows[i].status != Pending
  {
    TurnsStartInOrder(c, past, s, w, i);
    PlainRunSkipsNothing(c, EMPTY, past);
  }

  function BusyJobs(s: State): set<nat> {
    set j: nat | j < |s.logs| && s.logs[j].busy
  }

  lemma {:induction false} ImageIsSmall<T>(f: nat -> T, n: nat, xs: set<T>)
    requires forall x <- xs :: exists k :: 0 <= k < n && f(k) == x
    ensures |xs| <= n
    decreases n
  {
    if n == 0 {
    } else {
      ImageIsSmall(f, n - 1, xs - {f(n - 1)});
      assert xs <= (xs - {f(n - 1)}) + {f(n - 1)};
    }
  }

  /** At most four attempts are under way, and no two workers hold one job. */
  lemma AtMostFourAtOnce(c: Config, past: seq<Event>, s: State)
    requires Leads(c, past, s)
    ensures |BusyJobs(s)| <= 4
    ensures s.handler.Draining? ==>
              forall v: nat, w: nat :: IsAt(s.handler, v) && IsAt(s.handler, w) && v != w ==>
                SnapAt(s, v).job != SnapAt(s, w).job
  {
    LeadsToInv(c, past, s);
    var h := s.handler;
    if h.Draining? {
      var f := (k: nat) => if k < |h.workers| && h.workers[k].At? then SnapAt(s, k).job else 0;
      forall j | j in BusyJobs(s) ensures exists k :: 0 <= k < |h.workers| && f(k) == j {
        assert Held(s, j);
        var w :| IsAt(h, w) && JobIn(h.groups, h.workers[w].group, h.workers[w].pos) == j;
        assert f(w) == j;
      }
      ImageIsSmall(f, |h.workers|, BusyJobs(s));
      forall v: nat, w: nat | IsAt(h, v) && IsAt(h, w) && v != w ensures SnapAt(s, v).job != SnapAt(s, w).job {}
    } else {
      assert BusyJobs(s) == {};
    }
  }

  // ----- one drain

  /** Within one drain: neither its end nor a crash is among the events. */
  predicate WithinDrain(events: seq<Event>) {
    forall e <- events :: !e.Crash? && !e.DrainDone?
  }

  lemma OneStepKeepsStarted(c: Config, s: State, e: Event, j: nat)
    requires ValidConfig(c) && Inv(c, s) && Consistent(s) && Apply(c, s, e).Some? && !e.Crash? && !e.DrainDone?
    requires s.handler.Draining? && j in s.handler.started
    ensures var t := Apply(c, s, e).value; t.handler.Draining? && j in t.handler.started
  {
    if e.Step? { StepKeepsStarted(c, s, e.worker, e.event); }
  }

  lemma {:induction false} StartedStays(c: Config, s: State, events: seq<Event>, j: nat)
    requires ValidConfig(c) && Inv(c, s) && Run(c, s, events).Some? && WithinDrain(events)
    requires s.handler.Draining? && j in s.handler.started
    ensures var t := Run(c, s, events).value; t.handler.Draining? && j in t.handler.started
    decreases |events|
  {
    if events != [] {
      assert events[0] in events && forall e <- events[1..] :: e in events;
      OneStepKeepsStarted(c, s, events[0], j);
      ApplyKeepsInv(c, s, events[0]);
      StartedStays(c, Apply(c, s, events[0]).value, events[1..], j);
    }
  }

  lemma StepKeepsStarted(c: Config, s: State, w: nat, e: JobEvent)
    requires ValidConfig(c) && Inv(c, s) && Consistent(s) && Apply(c, s, Step(w, e)).Some?
    ensures s.handler.started <= Apply(c, s, Step(w, e)).value.handler.started
  {
    StepIsOnward(c, s, w, e);
  }

  lemma StartIsFirst(c: Config, s: State, w: nat)
    requires Inv(c, s) && Starts(c, s, w)
    ensures SnapAt(s, w).job !in s.handler.started
    ensures var t := Apply(c, s, Step(w, Start)).value; t.handler.Draining? && SnapAt(s, w).job in t.handler.started
  {
    assert IsAt(s.handler, w) && InHand(c, SnapAt(s, w), JobAt(s, w));
  }

  /** No job starts twice in one drain. */
  lemma StartsOncePerDrain(c: Config, past: seq<Event>, s: State, w: nat, more: seq<Event>, t: State, v: nat)
    requires Leads(c, past, s) && Starts(c, s, w) && WithinDrain(more)
    requires Run(c, Apply(c, s, Step(w, Start)).value, more) == Some(t) && Starts(c, t, v)
    ensures SnapAt(t, v).job != SnapAt(s, w).job
  {
    LeadsToInv(c, past, s);
    var first := Apply(c, s, Step(w, Start)).value;
    ApplyKeepsInv(c, s, Step(w, Start));
    StartIsFirst(c, s, w);
    StartedStays(c, first, more, SnapAt(s, w).job);
    RunKeepsInv(c, first, more);
    StartIsFirst(c, t, v);
  }

  /** A drain that ends has taken every group exactly once, in order. */
  lemma DrainTakesEveryGroupOnce(c: Config, past: seq<Event>, s: State)
    requires Leads(c, past, s) && s.handler.Draining? && Apply(c, s, DrainDone).Some?
    ensures s.handler.taken == Upto(|s.handler.groups|)
  {
    LeadsToInv(c, past, s);
    assert !IsAt(s.handler, 0);
  }

  // ----- delivery is final

  lemma StepAfterDelivery(c: Config, s: State, e: Event, j: nat)
    requires ValidConfig(c) && Inv(c, s) && Consistent(s) && Apply(c, s, e).Some?
    requires j < |s.logs| && s.logs[j].delivered
    ensures var t := Apply(c, s, e).value;
            && j < |t.logs| && t.logs[j].delivered && t.logs[j].runs == s.logs[j].runs
            && t.logs[j].finals == s.logs[j].finals && t.logs[j].releases == s.logs[j].releases
  {
    assert JobOk(c, s.rows[j], s.logs[j], j in s.marks);
    if e.Step? {
      StepIsOnward(c, s, e.worker, e.event);
    } else if e.Reopen? {
      assert j !in RecoveryJobs(s.rows);
    }
  }

  /** Once onDelivered has fired for a job, no further events make the relay call
      runTurn for it, send its failure final or release its claims. */
  lemma {:induction false} DeliveryIsFinal(c: Config, past: seq<Event>, s: State, more: seq<Event>, t: State, j: nat)
    requires Leads(c, past, s) && Run(c, s, more) == Some(t)
    requires j < |s.logs| && s.logs[j].delivered
    ensures |s.logs| <= |t.logs|
    ensures t.logs[j].delivered && t.rows[j].status == Done && t.logs[j].runs == s.logs[j].runs
    ensures t.logs[j].finals == s.logs[j].finals && t.logs[j].releases == s.logs[j].releases
  {
    LeadsToInv(c, past, s);
    AfterDelivery(c, s, more, j);
    RunKeepsInv(c, s, more);
    assert JobOk(c, t.rows[j], t.logs[j], j in t.marks);
    LogsGrow(c, s, more);
  }

  lemma {:induction false} LogsGrow(c: Config, s: State, events: seq<Event>)
    requires Run(c, s, events).Some?
    ensures |s.logs| <= |Run(c, s, events).value.logs|
    decreases |events|
  {
    if events != [] { LogsGrow(c, Apply(c, s, events[0]).value, events[1..]); }
  }

  lemma {:induction false} AfterDelivery(c: Config, s: State, events: seq<Event>, j: nat)
    requires ValidConfig(c) && Inv(c, s) && Run(c, s, events).Some? && j < |s.logs| && s.logs[j].delivered
    ensures var t := Run(c, s, events).value;
            && j < |t.logs| && t.logs[j].delivered && t.logs[j].runs == s.logs[j].runs
            && t.logs[j].finals == s.logs[j].finals && t.logs[j].releases == s.logs[j].releases
    decreases |events|
  {
    if events != [] {
      StepAfterDelivery(c, s, events[0], j);
      ApplyKeepsInv(c, s, events[0]);
      AfterDelivery(c, Apply(c, s, events[0]).value, events[1..], j);
    }
  }

  // ----- attempts are bounded

  /** Runs are within the job's cap, plus the attempts that the caps do not see:
      the turn cap before it was ever dispatched, the larger cap from then on. */
  lemma RunsAreBounded(c: Config, past: seq<Event>, s: State, j: nat)
    requires Leads(c, past, s) && j < |s.logs|
    ensures j < |s.rows| && s.logs[j].runs <= CapOf(c, s.rows[j]) + s.logs[j].exempt
  {
    LeadsToInv(c, past, s);
    assert JobOk(c, s.rows[j], s.logs[j], j in s.marks);
  }

  /** Not a crash, an operator's retry, a turn that returns undelivered, or one of
      the two typed failures that skip the caps. */
  predicate Ordinarily(e: Event) {
    && !e.Crash? && !e.Reopen?
    && (e.Step? ==> Counted(e.event))
  }

  lemma StepExemptsNothing(c: Config, s: State, e: Event)
    requires Consistent(s) && Apply(c, s, e).Some? && Ordinarily(e)
    requires forall j :: 0 <= j < |s.logs| ==> s.logs[j].exempt == 0
    ensures var t := Apply(c, s, e).value; forall j :: 0 <= j < |t.logs| ==> t.logs[j].exempt == 0
  {
    if e.Step? {
      JobStepTouches(c, SnapAt(s, e.worker), e.event, JobAt(s, e.worker));
    }
  }

  lemma {:induction false} OrdinaryRunExemptsNothing(c: Config, s: State, events: seq<Event>)
    requires Run(c, s, events).Some? && forall e <- events :: Ordinarily(e)
    requires forall j :: 0 <= j < |s.logs| ==> s.logs[j].exempt == 0
    ensures var t := Run(c, s, events).value; forall j :: 0 <= j < |t.logs| ==> t.logs[j].exempt == 0
    decreases |events|
  {
    if events != [] {
      assert events[0] in events && forall e <- events[1..] :: e in events;
      StepExemptsNothing(c, s, events[0]);
      OrdinaryRunExemptsNothing(c, Apply(c, s, events[0]).value, events[1..]);
    }
  }

  /** In an ordinary run that is all. */
  lemma OrdinaryRunsAreCapped(c: Config, past: seq<Event>, s: State, j: nat)
    requires Leads(c, past, s) && j < |s.logs| && forall e <- past :: Ordinarily(e)
    ensures j < |s.rows| && s.logs[j].runs <= CapOf(c, s.rows[j]) <= LargerCap(c)
  {
    OrdinaryRunExemptsNothing(c, EMPTY, past);
    RunsAreBounded(c, past, s, j);
  }

  // ----- claims

  /** In every run a job's claims are released at most once, and only when it is
      over. */
  lemma ClaimsAreReleasedOnce(c: Config, past: seq<Event>, s: State, j: nat)
    requires Leads(c, past, s) && j < |s.logs|
    ensures s.logs[j].releases <= 1
    ensures j < |s.rows| && (s.logs[j].releases > 0 ==> s.rows[j].status == Done || s.rows[j].status == Errored)
  {
    LeadsToInv(c, past, s);
    assert JobOk(c, s.rows[j], s.logs[j], j in s.marks);
  }

  // ----- how a turn's own failure ends

  /** In every run, a turn that fails by itself, undelivered, leaves its pending
      job to another attempt exactly below the cap of its kind.  At its cap a
      dispatched turn goes to recovery with its claims held; any other gets the
      failure final and is over, with its claims released. */
  lemma FailureOutcome(c: Config, past: seq<Event>, s: State, w: nat)
    requires Leads(c, past, s) && s.handler.Draining? && IsAt(s.handler, w)
    requires var p := s.handler.workers[w].phase; p.Running? && !p.delivered
    requires s.rows[SnapAt(s, w).job].status == Pending
    ensures Apply(c, s, Step(w, Fail(Ordinary))).Some?
    ensures var t := Apply(c, s, Step(w, Fail(Ordinary))).value;
            var j, p := SnapAt(s, w).job, s.handler.workers[w].phase;
            var again :=
              t.handler.workers[w].phase == Returned(false) && t.rows[j].status == Pending && t.handler.retry;
            && t.logs[j].runs == s.logs[j].runs && t.logs[j].releases == 0
            && (again <==> s.rows[j].attempts < CapOfTurn(c, p))
            && (t.rows[j].status == Recovery <==> p.envelope && s.rows[j].attempts >= c.dispatchCap)
            && (t.logs[j].finals == s.logs[j].finals + 1 <==> !p.envelope && s.rows[j].attempts >= c.turnCap)
            && (t.logs[j].finals > s.logs[j].finals ==> EndsInError(c, t, w, j))
  {
    LeadsToInv(c, past, s);
    FailureShows(c, s, w);
    ApplyKeepsInv(c, s, Step(w, Fail(Ordinary)));
    var t := Apply(c, s, Step(w, Fail(Ordinary))).value;
    if t.handler.workers[w].phase.SendingFinal? { FinalEndsInError(c, t, w); }
  }

  lemma FailureShows(c: Config, s: State, w: nat)
    requires ValidConfig(c) && Inv(c, s) && Consistent(s) && s.handler.Draining? && IsAt(s.handler, w)
    requires var p := s.handler.workers[w].phase; p.Running? && !p.delivered
    requires s.rows[SnapAt(s, w).job].status == Pending
    ensures Apply(c, s, Step(w, Fail(Ordinary))).Some?
    ensures var t := Apply(c, s, Step(w, Fail(Ordinary))).value;
            var j, p := SnapAt(s, w).job, s.handler.workers[w].phase;
            && t.handler.Draining? && |t.handler.workers| == |s.handler.workers| && IsAt(t.handler, w)
            && |t.rows| == |s.rows| && |t.logs| == |s.logs|
            && t.logs[j].runs == s.logs[j].runs && t.logs[j].releases == 0
            && (t.handler.workers[w].phase == Returned(false) && t.rows[j].status == Pending && t.handler.retry
                <==> s.rows[j].attempts < CapOfTurn(c, p))
            && (t.rows[j].status == Recovery <==> p.envelope && s.rows[j].attempts >= c.dispatchCap)
            && (t.logs[j].finals == s.logs[j].finals + 1 <==> !p.envelope && s.rows[j].attempts >= c.turnCap)
            && (t.logs[j].finals > s.logs[j].finals ==> t.handler.workers[w].phase.SendingFinal?)
  {
    assert InHand(c, SnapAt(s, w), JobAt(s, w));
    FailureEndsOrRetries(c, SnapAt(s, w), JobAt(s, w));
  }

  /** Once its failure final is sent, the worker's job is over. */
  ghost predicate EndsInError(c: Config, s: State, w: nat, j: nat) {
    && Consistent(s) && Apply(c, s, Step(w, FinalSent)).Some?
    && (var t := Apply(c, s, Step(w, FinalSent)).value;
        && j < |t.rows| == |t.logs| && t.rows[j].status == Errored && t.logs[j].releases == 1 && j !in t.marks
        && t.handler.Draining? && w < |t.handler.workers| && t.handler.workers[w].At?
        && t.handler.workers[w].phase == Returned(true))
  }

  lemma FinalEndsInError(c: Config, s: State, w: nat)
    requires Inv(c, s) && Consistent(s) && s.handler.Draining? && IsAt(s.handler, w)
    requires s.handler.workers[w].phase.SendingFinal?
    ensures EndsInError(c, s, w, SnapAt(s, w).job)
  {
    assert InHand(c, SnapAt(s, w), JobAt(s, w));
  }

  // ----- active-work marks

  /** When runJob returns with its job no longer pending, the job's mark is left on
      exactly when the job was marked and no longer pending before the last step,
      and that step was one of those that touch neither; then something other than
      runJob had put the job in recovery. */
  lemma MarkIsLeftOnReturnExactly(c: Config, past: seq<Event>, s: State, w: nat, e: JobEvent)
    requires Leads(c, past, s) && Apply(c, s, Step(w, e)).Some?
    requires Apply(c, s, Step(w, e)).value.handler.workers[w].phase.Returned?
    ensures var t := Apply(c, s, Step(w, e)).value; var j := SnapAt(s, w).job;
            t.rows[j].status != Pending && j in t.marks <==>
              j in s.marks && s.rows[j].status != Pending
              && KeepsMark(c, SnapAt(s, w), e, s.handler.workers[w].phase)
    ensures var t := Apply(c, s, Step(w, e)).value; var j := SnapAt(s, w).job;
            t.rows[j].status != Pending && j in t.marks ==> t.logs[j].foreign
  {
    LeadsToInv(c, past, s);
    assert IsAt(s.handler, w) && InHand(c, SnapAt(s, w), JobAt(s, w));
    var job := SnapAt(s, w).job;
    assert JobOk(c, s.rows[job], s.logs[job], job in s.marks);
    StepShows(c, s, w, e);
    MarkIsLeftExactly(c, SnapAt(s, w), e, JobAt(s, w));
  }
}

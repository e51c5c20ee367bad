/** Runs of the relay: any interleaving of workers, RPCs, operators and crashes,
    from an empty store.  Every step of every run keeps the invariant. */
module RelayRuns {
  import opened Prelude
  import opened RelayModel
  import opened RelayJob
  import opened RelayInvariant
  import opened RelayGrouping

  /** Every step keeps the invariant. */
  lemma ApplyKeepsInv(c: Config, s: State, e: Event)
    requires ValidConfig(c) && Inv(c, s) && Consistent(s) && Apply(c, s, e).Some?
    ensures Inv(c, Apply(c, s, e).value)
  {
    if IsRpc(e) {
      RpcKeepsInv(c, s, e);
    } else if e.EmptyDone? || e.EmptyArm? || e.SettleDone? || e.Arm? {
      EndKeepsInv(c, s, e);
    } else {
      WorkKeepsInv(c, s, e);
    }
  }

  lemma WorkKeepsInv(c: Config, s: State, e: Event)
    requires ValidConfig(c) && Inv(c, s) && Consistent(s) && Apply(c, s, e).Some?
    requires e.Fire? || e.Crash? || e.Step? || e.Advance? || e.DrainDone? || e.Intrude? || e.Resolve?
    ensures Inv(c, Apply(c, s, e).value)
  {
    match e
    case Fire => FireKeepsInv(c, s);
    case Crash => CrashKeepsInv(c, s);
    case Step(w, event) => StepKeepsInv(c, s, w, event);
    case Advance(w) => AdvanceKeepsInv(c, s, w);
    case DrainDone => DrainDoneKeepsInv(c, s);
    case _ => OneRowKeepsInv(c, s, e);
  }

  /** The events of an RPC. */
  predicate IsRpc(e: Event) {
    e.Enqueue? || e.EnqueueAgain? || e.Reopen? || e.Maintain? || e.ReadAlarm? || e.SetAlarm?
  }

  lemma RpcKeepsInv(c: Config, s: State, e: Event)
    requires ValidConfig(c) && Inv(c, s) && Consistent(s) && Apply(c, s, e).Some? && IsRpc(e)
    ensures Inv(c, Apply(c, s, e).value)
  {
    match e
    case Enqueue(thread, direct, intent) => EnqueueKeepsInv(c, s, thread, direct, intent);
    case EnqueueAgain(job) => StartRpcKeepsInv(c, s, Rpc({job}, false));
    case Reopen(jobs) => ReopenKeepsInv(c, s, jobs);
    case Maintain(_) => StartRpcKeepsInv(c, s, Rpc(PendingJobs(s.rows), false));
    case ReadAlarm(rpc) => ReadKeepsInv(c, s, rpc);
    case SetAlarm(rpc) => FinishKeepsInv(c, s, rpc, Finished(s, rpc).(armed := true));
  }

  // ----- runs

  /** The state after the events, or None when one of them cannot happen. */
  function Run(c: Config, s: State, events: seq<Event>): (r: Option<State>)
    ensures r.Some? ==> Consistent(r.value)
    decreases |events|
  {
    if !Consistent(s) then None
    else if events == [] then Some(s)
    else
      match Apply(c, s, events[0])
      case None => None
      case Some(t) => Run(c, t, events[1..])
  }

  lemma RunOne(c: Config, s: State, e: Event, more: seq<Event>)
    requires Consistent(s) && Apply(c, s, e).Some?
    ensures Run(c, s, [e] + more) == Run(c, Apply(c, s, e).value, more)
  {
    assert ([e] + more)[1..] == more;
  }

  lemma {:induction false} RunJoins(c: Config, s: State, first: seq<Event>, more: seq<Event>)
    requires Run(c, s, first).Some?
    ensures Run(c, s, first + more) == Run(c, Run(c, s, first).value, more)
    decreases |first|
  {
    if first == [] {
      assert first + more == more;
    } else {
      RunJoins(c, Apply(c, s, first[0]).value, first[1..], more);
      assert first + more == [first[0]] + (first[1..] + more);
      RunOne(c, s, first[0], first[1..] + more);
    }
  }

  lemma {:induction false} RunBegins(c: Config, s: State, first: seq<Event>, more: seq<Event>)
    requires Run(c, s, first + more).Some?
    ensures Run(c, s, first).Some?
    decreases |first|
  {
    if first != [] {
      assert first + more == [first[0]] + (first[1..] + more);
      RunOne(c, s, first[0], first[1..] + more);
      RunBegins(c, Apply(c, s, first[0]).value, first[1..], more);
    }
  }

  /** The state before the last event, which then happened. */
  lemma RunEnds(c: Config, s: State, events: seq<Event>)
    requires events != [] && Run(c, s, events).Some?
    ensures var init, last := events[..|events| - 1], events[|events| - 1];
            Run(c, s, init).Some? && Apply(c, Run(c, s, init).value, last) == Run(c, s, events)
  {
    var init, last := events[..|events| - 1], events[|events| - 1];
    assert init + [last] == events;
    RunBegins(c, s, init, [last]);
    RunJoins(c, s, init, [last]);
    var t := Run(c, s, init).value;
    assert Apply(c, t, last).Some?;
    RunOne(c, t, last, []);
    assert [last] + [] == [last];
  }

  /** The events lead from an empty store to this state. */
  predicate Leads(c: Config, past: seq<Event>, s: State) {
    ValidConfig(c) && Run(c, EMPTY, past) == Some(s)
  }

  lemma {:induction false} RunKeepsInv(c: Config, s: State, events: seq<Event>)
    requires ValidConfig(c) && Inv(c, s) && Run(c, s, events).Some?
    ensures Inv(c, Run(c, s, events).value)
    decreases |events|
  {
    if events != [] {
      ApplyKeepsInv(c, s, events[0]);
      RunKeepsInv(c, Apply(c, s, events[0]).value, events[1..]);
    }
  }

  lemma LeadsToInv(c: Config, past: seq<Event>, s: State)
    requires Leads(c, past, s)
    ensures Inv(c, s) && Consistent(s)
  {
    RunKeepsInv(c, EMPTY, past);
  }

  /** What a worker's step shows in the state. */
  lemma StepShows(c: Config, s: State, w: nat, e: JobEvent)
    requires Consistent(s) && s.handler.Draining? && IsAt(s.handler, w)
    requires JobStep(c, SnapAt(s, w), e, JobAt(s, w)).Some?
    ensures Apply(c, s, Step(w, e)).Some?
    ensures var t := Apply(c, s, Step(w, e)).value;
            var j, to := SnapAt(s, w).job, JobStep(c, SnapAt(s, w), e, JobAt(s, w)).value;
            && |t.rows| == |s.rows| && |t.logs| == |s.logs| && t.rows[j] == to.row && t.logs[j] == to.log
            && (j in t.marks <==> to.marked) && t.handler.Draining? && |t.handler.workers| == |s.handler.workers|
            && t.handler.workers[w] == s.handler.workers[w].(phase := to.phase) && t.handler.retry == to.retry
  {
  }

  lemma StepIsOnward(c: Config, s: State, w: nat, e: JobEvent)
    requires ValidConfig(c) && Inv(c, s) && Consistent(s) && Apply(c, s, Step(w, e)).Some?
    ensures Onward(JobAt(s, w), JobStep(c, SnapAt(s, w), e, JobAt(s, w)).value)
  {
    assert IsAt(s.handler, w);
    var job := SnapAt(s, w).job;
    assert JobOk(c, s.rows[job], s.logs[job], job in s.marks);
    JobStepKeeps(c, SnapAt(s, w), e, JobAt(s, w));
  }
}

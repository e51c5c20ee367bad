/** When a pending job of the relay has something left to wake it, and exactly
    when it has not. */
module RelayWakeUps {
  import opened Prelude
  import opened RelayModel
  import opened RelayJob
  import opened RelayInvariant
  import opened RelayGrouping
  import opened RelayRuns

  /** The job's turn will come: the alarm is armed, the running handler rechecks
      the queue, or the RPC that made it pending is yet to arm the alarm. */
  ghost predicate WillWake(s: State, j: nat) {
    s.armed || Rechecks(s.handler) || InFlight(s.rpcs, j)
  }

  /** A pending job's turn will come, unless the RPC that made it pending died
      with the object; once that RPC has returned, it needs no RPC. */
  lemma NoLostWakeUp(c: Config, past: seq<Event>, s: State, j: nat)
    requires Leads(c, past, s) && j < |s.rows| && s.rows[j].status == Pending
    ensures j in s.acked ==> s.armed || Rechecks(s.handler)
    ensures j !in s.acked ==> j in s.lost || InFlight(s.rpcs, j)
    ensures WillWake(s, j) || j in s.lost
  {
    LeadsToInv(c, past, s);
  }

  /** The exception is real: the object dies between the row write and setAlarm,
      and nothing is left to wake the job... */
  lemma CrashBeforeArmingStrands(c: Config, thread: string)
    requires ValidConfig(c)
    ensures var past := [Enqueue(thread, false, NoIntent), Crash];
            var s := Run(c, EMPTY, past);
            s.Some? && |s.value.rows| == 1 && s.value.rows[0].status == Pending && !WillWake(s.value, 0)
  {
    var past := [Enqueue(thread, false, NoIntent), Crash];
    var s1 := Apply(c, EMPTY, past[0]).value;
    var s2 := Apply(c, s1, Crash).value;
    assert Run(c, s2, past[1..][1..]) == Some(s2);
    assert Run(c, s1, past[1..]) == Some(s2);
  }

  /** ...until a maintenance pass, which covers every pending job. */
  lemma MaintenanceHeals(c: Config, past: seq<Event>, s: State, ledger: bool, j: nat)
    requires Leads(c, past, s) && j < |s.rows| && s.rows[j].status == Pending
    ensures Apply(c, s, Maintain(ledger)).Some? && WillWake(Apply(c, s, Maintain(ledger)).value, j)
  {
    assert j in PendingJobs(s.rows);
    FlightGrows(s.rpcs, Rpc(PendingJobs(s.rows), false), j);
  }

  /** The object dies asleep, with no alarm armed. */
  predicate Strands(s: State, e: Event) {
    e.Crash? && !s.armed && s.handler.Asleep?
  }

  /** The step that takes a pending job's wake-up away, and the only one. */
  lemma WakeUpIsLostExactly(c: Config, s: State, e: Event, j: nat)
    requires ValidConfig(c) && Inv(c, s) && Consistent(s) && Apply(c, s, e).Some?
    requires j < |s.rows| && s.rows[j].status == Pending && WillWake(s, j)
    requires var t := Apply(c, s, e).value; j < |t.rows| && t.rows[j].status == Pending
    ensures WillWake(Apply(c, s, e).value, j) <==> !Strands(s, e)
  {
    match e
    case Fire => ListIsOldestFirst(s.rows, 0, c.batch, j);
    case SettleDone(_) => assert j in PendingJobs(s.rows);
    case _ => if IsRpc(e) { RpcKeepsWakeUp(c, s, e, j); }
  }

  lemma RpcKeepsWakeUp(c: Config, s: State, e: Event, j: nat)
    requires Consistent(s) && Apply(c, s, e).Some? && IsRpc(e) && WillWake(s, j)
    ensures WillWake(Apply(c, s, e).value, j)
  {
    match e
    case Enqueue(_, _, _) => FlightGrows(s.rpcs, Rpc({|s.rows|}, false), j);
    case EnqueueAgain(job) => FlightGrows(s.rpcs, Rpc({job}, false), j);
    case Reopen(jobs) => FlightGrows(s.rpcs, Rpc(jobs, false), j);
    case Maintain(_) => FlightGrows(s.rpcs, Rpc(PendingJobs(s.rows), false), j);
    case ReadAlarm(rpc) =>
      if !s.armed && InFlight(s.rpcs, j) { FlightIsMarked(s.rpcs, rpc, j); }
    case SetAlarm(_) =>
  }

  lemma FlightIsMarked(rpcs: seq<Rpc>, rpc: nat, j: nat)
    requires rpc < |rpcs| && InFlight(rpcs, j)
    ensures InFlight(rpcs[rpc := rpcs[rpc].(setting := true)], j)
  {
    var r :| 0 <= r < |rpcs| && j in rpcs[r].jobs;
    assert j in rpcs[rpc := rpcs[rpc].(setting := true)][r].jobs;
  }

  /** The events that give a pending job a wake-up: an RPC arms the alarm, or one
      that covers the job begins. */
  predicate Rouses(e: Event, j: nat) {
    e.SetAlarm? || e.Maintain? || e == EnqueueAgain(j) || (e.Reopen? && j in e.jobs)
  }

  /** A crash stranded the job, and no event since has roused it. */
  predicate StrandedAt(c: Config, past: seq<Event>, k: nat, j: nat) {
    && k < |past|
    && (var before := Run(c, EMPTY, past[..k]);
        before.Some? && j < |before.value.rows| && Strands(before.value, past[k]))
    && forall i :: k < i < |past| ==> !Rouses(past[i], j)
  }

  /** Over whole runs: a pending job is without a wake-up exactly when a crash
      stranded it and nothing has roused it since. */
  lemma StrandedExactly(c: Config, past: seq<Event>, s: State, j: nat)
    requires Leads(c, past, s) && j < |s.rows| && s.rows[j].status == Pending
    ensures !WillWake(s, j) <==> exists k: nat :: StrandedAt(c, past, k, j)
  {
    if !WillWake(s, j) {
      var k := StrandingCrash(c, past, s, j);
    }
    if k: nat :| StrandedAt(c, past, k, j) {
      StrandedSince(c, past, s, k, j);
    }
  }

  /** Asleep and unarmed, with no RPC that covers the job. */
  ghost predicate Stranded(s: State, j: nat) {
    j < |s.rows| && !s.armed && s.handler.Asleep? && !InFlight(s.rpcs, j)
  }

  lemma {:induction false} RunStaysStranded(c: Config, s: State, events: seq<Event>, j: nat)
    requires Run(c, s, events).Some? && Stranded(s, j)
    requires forall i :: 0 <= i < |events| ==> !Rouses(events[i], j)
    ensures Stranded(Run(c, s, events).value, j)
    decreases |events|
  {
    if events != [] {
      RunStaysStranded(c, Apply(c, s, events[0]).value, events[1..], j);
    }
  }

  lemma StrandedSince(c: Config, past: seq<Event>, s: State, k: nat, j: nat)
    requires Leads(c, past, s) && StrandedAt(c, past, k, j)
    ensures !WillWake(s, j)
  {
    var before, since := Run(c, EMPTY, past[..k]).value, past[k + 1..];
    assert past == past[..k] + ([Crash] + since);
    RunJoins(c, EMPTY, past[..k], [Crash] + since);
    RunOne(c, before, Crash, since);
    RunStaysStranded(c, Apply(c, before, Crash).value, since, j);
  }

  lemma RousingWakes(c: Config, s: State, e: Event, j: nat)
    requires Consistent(s) && Apply(c, s, e).Some? && Rouses(e, j)
    requires j < |s.rows| && s.rows[j].status == Pending
    ensures WillWake(Apply(c, s, e).value, j)
  {
    match e
    case EnqueueAgain(job) => FlightGrows(s.rpcs, Rpc({job}, false), j);
    case Reopen(jobs) => FlightGrows(s.rpcs, Rpc(jobs, false), j);
    case Maintain(_) => FlightGrows(s.rpcs, Rpc(PendingJobs(s.rows), false), j);
    case _ =>
  }

  /** A job becomes pending only through an RPC, which is then in flight. */
  lemma NewlyPendingIsInFlight(c: Config, s: State, e: Event, j: nat)
    requires ValidConfig(c) && Inv(c, s) && Consistent(s) && Apply(c, s, e).Some?
    requires j < |s.rows| ==> s.rows[j].status != Pending
    requires var t := Apply(c, s, e).value; j < |t.rows| && t.rows[j].status == Pending
    ensures WillWake(Apply(c, s, e).value, j)
  {
    match e
    case Enqueue(_, _, _) => FlightGrows(s.rpcs, Rpc({|s.rows|}, false), j);
    case Reopen(jobs) => FlightGrows(s.rpcs, Rpc(jobs, false), j);
    case Step(w, event) => StepIsOnward(c, s, w, event);
    case _ =>
  }

  lemma {:induction false} StrandingCrash(c: Config, past: seq<Event>, s: State, j: nat) returns (k: nat)
    requires Leads(c, past, s) && j < |s.rows| && s.rows[j].status == Pending && !WillWake(s, j)
    ensures StrandedAt(c, past, k, j)
    decreases |past|
  {
    assert past != [];
    RunEnds(c, EMPTY, past);
    var init, last := past[..|past| - 1], past[|past| - 1];
    var before := Run(c, EMPTY, init).value;
    LeadsToInv(c, init, before);
    if j >= |before.rows| || before.rows[j].status != Pending {
      NewlyPendingIsInFlight(c, before, last, j);
      assert false;
    } else if WillWake(before, j) {
      WakeUpIsLostExactly(c, before, last, j);
      k := |init|;
    } else {
      k := StrandingCrash(c, init, before, j);
      assert past[..k] == init[..k];
      if Rouses(last, j) { RousingWakes(c, before, last, j); }
    }
  }

  /** Without a crash every pending job has its wake-up. */
  lemma CrashFreeRunsWake(c: Config, past: seq<Event>, s: State, j: nat)
    requires Leads(c, past, s) && Crash !in past && j < |s.rows| && s.rows[j].status == Pending
    ensures WillWake(s, j)
  {
    StrandedExactly(c, past, s, j);
    forall k: nat ensures !StrandedAt(c, past, k, j) {
      if k < |past| { assert past[k] in past; }
    }
  }
}

/** Runs that reach the limits of the relay's laws: each exception is real, and
    the bound on attempts is attained. */
module RelayWitnesses {
  import opened Prelude
  import opened OrderedMaps
  import opened RelayModel
  import opened RelayJob
  import opened RelayRuns
  import opened RelayLaws

  // ----- one job, at rest and in the hands of its worker

  function MarksOf(marked: bool): set<nat> {
    if marked then {0} else {}
  }

  /** The job is queued and the alarm is armed. */
  function Rest(row: Row, log: Log, marked: bool): State {
    State([row], [log], MarksOf(marked), true, Asleep, [], {0}, {})
  }

  /** A drain of the one job. */
  function Solo(snap: Snap, j: Job): State {
    var h := Draining([[snap]], 1, [At(0, 0, j.phase)], j.retry, if j.started then {0} else {}, [0]);
    State([j.row], [j.log], MarksOf(j.marked), false, h, [], {0}, {})
  }

  function NewRow(intent: Intent): Row {
    Row("", false, intent, Pending, 0, false, NoIntent)
  }

  function Admission(intent: Intent): seq<Event> {
    [Enqueue("", false, intent)] + ([ReadAlarm(0)] + [SetAlarm(0)])
  }

  lemma Admitted(c: Config, intent: Intent)
    ensures Run(c, EMPTY, Admission(intent)) == Some(Rest(NewRow(intent), FRESH_LOG, intent == Work))
  {
    var s := Rest(NewRow(intent), FRESH_LOG, intent == Work);
    var s1 := s.(armed := false, rpcs := [Rpc({0}, false)], acked := {});
    var s2 := s1.(rpcs := [Rpc({0}, true)]);
    var t := Apply(c, EMPTY, Enqueue("", false, intent)).value;
    assert t.marks == s1.marks && t.acked == {} && t.lost == {};
    assert t == s1;
    assert Apply(c, s1, ReadAlarm(0)).value == s2;
    var u := Apply(c, s2, SetAlarm(0)).value;
    assert u.rpcs == [] && u.acked == {0} && u.lost == {};
    assert u == s;
    RunOne(c, s2, SetAlarm(0), []);
    RunOne(c, s1, ReadAlarm(0), [SetAlarm(0)]);
    RunOne(c, EMPTY, Enqueue("", false, intent), [ReadAlarm(0)] + [SetAlarm(0)]);
  }

  lemma GroupOfOne(rows: seq<Row>, job: nat)
    requires job < |rows|
    ensures Grouped(rows, [job]).Values() == [[SnapOf(rows, job)]]
  {
    assert [job][..0] == [];
    var none: OrderedMap<string, seq<Snap>> := NoEntries();
    assert Grouped(rows, []) == none;
    var m := Grouped(rows, [job]);
    var key := rows[job].thread;
    assert m == none.Set(key, [] + [SnapOf(rows, job)]);
    assert m.keys == [key];
    assert m.Values()[0] == [SnapOf(rows, job)];
  }

  lemma DrainOfOne(snap: Snap)
    ensures StartDrain([[snap]]) == Draining([[snap]], 1, [At(0, 0, Preflight)], false, {}, [0])
  {
    var h := StartDrain([[snap]]);
    assert h.workers == [At(0, 0, Preflight)] && h.taken == [0];
  }

  lemma RestFires(c: Config, row: Row, log: Log, marked: bool)
    requires ValidConfig(c) && row.status == Pending
    ensures Apply(c, Rest(row, log, marked), Fire)
         == Some(Solo(SnapOf([row], 0), Job(row, log, marked, false, Preflight, false)))
  {
    assert PendingFrom([row], 1, c.batch - 1) == [];
    assert ListPending([row], c.batch) == [0];
    GroupOfOne([row], 0);
    DrainOfOne(SnapOf([row], 0));
  }

  lemma SoloSteps(c: Config, snap: Snap, j: Job, e: JobEvent)
    requires snap.job == 0 && JobStep(c, snap, e, j).Some?
    ensures Apply(c, Solo(snap, j), Step(0, e)) == Some(Solo(snap, JobStep(c, snap, e, j).value))
  {
    var s, to := Solo(snap, j), JobStep(c, snap, e, j).value;
    assert SnapAt(s, 0) == snap && JobAt(s, 0) == j;
    var t := Lift(s, 0, to);
    assert t.rows == [to.row] && t.logs == [to.log] && t.marks == MarksOf(to.marked);
    assert t.handler.workers == [At(0, 0, to.phase)] && t.handler.started == if to.started then {0} else {};
  }

  // ----- attempts

  /** n attempts failed by themselves and k died with the object. */
  function Tried(n: nat, k: nat, env: bool): State {
    Rest(NewRow(NoIntent).(attempts := n + k, envelope := env), FRESH_LOG.(runs := n + k, exempt := k), false)
  }

  function Listed(n: nat, k: nat, env: bool): Snap {
    Snap(0, n + k, env, NoIntent)
  }

  /** The next attempt, while the turn runs; it may have been dispatched meanwhile. */
  function Going(n: nat, k: nat, env: bool): Job {
    Job(NewRow(NoIntent).(attempts := n + k + 1, envelope := env),
        FRESH_LOG.(runs := n + k + 1, exempt := k, busy := true),
        false, true, Running(false, env, false, false), false)
  }

  /** The turn may be dispatched while it runs. */
  function Dispatching(prepare: bool): seq<Event> {
    if prepare then [Step(0, OnPrepare(true))] else []
  }

  function Attempt(prepare: bool): seq<Event> {
    [Fire] + ([Step(0, PreflightOk)] + ([Step(0, Start)] + Dispatching(prepare)))
  }

  lemma Then(c: Config, s: State, e: Event, t: State, more: seq<Event>, end: State)
    requires Consistent(s) && Apply(c, s, e) == Some(t) && Run(c, t, more) == Some(end)
    ensures Run(c, s, [e] + more) == Some(end)
  {
    RunOne(c, s, e, more);
  }

  lemma MayDispatch(c: Config, n: nat, k: nat, was: bool, prepare: bool)
    ensures Run(c, Solo(Listed(n, k, was), Going(n, k, was)), Dispatching(prepare))
         == Some(Solo(Listed(n, k, was), Going(n, k, was || prepare)))
  {
    if prepare {
      var snap, j, to := Listed(n, k, was), Going(n, k, was), Going(n, k, true);
      assert JobStep(c, snap, OnPrepare(true), j) == Some(to);
      SoloSteps(c, snap, j, OnPrepare(true));
      Then(c, Solo(snap, j), Step(0, OnPrepare(true)), Solo(snap, to), [], Solo(snap, to));
      assert [Step(0, OnPrepare(true))] + [] == Dispatching(prepare);
    }
  }

  lemma StartsTurn(c: Config, n: nat, k: nat, was: bool, more: seq<Event>, end: State)
    requires Run(c, Solo(Listed(n, k, was), Going(n, k, was)), more) == Some(end)
    ensures var tried := Tried(n, k, was); var j := Job(tried.rows[0], tried.logs[0], false, false, Preflight, false);
            Run(c, Solo(Listed(n, k, was), j), [Step(0, PreflightOk)] + ([Step(0, Start)] + more)) == Some(end)
  {
    var snap, tried, j2 := Listed(n, k, was), Tried(n, k, was), Going(n, k, was);
    var j0 := Job(tried.rows[0], tried.logs[0], false, false, Preflight, false);
    var j1 := RecordAttempt(snap, j0);
    SoloSteps(c, snap, j0, PreflightOk);
    assert JobStep(c, snap, Start, j1) == Some(j2);
    SoloSteps(c, snap, j1, Start);
    Then(c, Solo(snap, j1), Step(0, Start), Solo(snap, j2), more, end);
    Then(c, Solo(snap, j0), Step(0, PreflightOk), Solo(snap, j1), [Step(0, Start)] + more, end);
  }

  lemma Attempts(c: Config, n: nat, k: nat, was: bool, prepare: bool)
    requires ValidConfig(c)
    ensures Run(c, Tried(n, k, was), Attempt(prepare)) == Some(Solo(Listed(n, k, was), Going(n, k, was || prepare)))
  {
    var tried, end := Tried(n, k, was), Solo(Listed(n, k, was), Going(n, k, was || prepare));
    var j0 := Job(tried.rows[0], tried.logs[0], false, false, Preflight, false);
    MayDispatch(c, n, k, was, prepare);
    StartsTurn(c, n, k, was, Dispatching(prepare), end);
    RestFires(c, tried.rows[0], tried.logs[0], false);
    Then(c, tried, Fire, Solo(Listed(n, k, was), j0),
         [Step(0, PreflightOk)] + ([Step(0, Start)] + Dispatching(prepare)), end);
  }

  lemma AttemptDies(c: Config, n: nat, k: nat, was: bool, env: bool)
    ensures Apply(c, Solo(Listed(n, k, was), Going(n, k, env)), Crash) == Some(Tried(n, k + 1, env))
  {
    var t := Apply(c, Solo(Listed(n, k, was), Going(n, k, env)), Crash).value;
    assert t.logs == Tried(n, k + 1, env).logs && t.lost == {};
  }

  /** The drain has ended and rechecks the queue. */
  function Ending(j: Job): State {
    Rest(j.row, j.log, j.marked).(armed := false, handler := Settling(j.retry))
  }

  lemma DrainEnds(c: Config, snap: Snap, j: Job, more: seq<Event>, end: State)
    requires snap.job == 0 && j.phase == Returned(false) && Run(c, Ending(j), more) == Some(end)
    ensures Run(c, Solo(snap, j), [Advance(0)] + ([DrainDone] + more)) == Some(end)
  {
    var s1 := Solo(snap, j);
    var s2 := s1.(handler := s1.handler.(workers := [Exited]));
    assert s1.handler.workers[0 := Exited] == [Exited];
    assert Consistent(s1) && Apply(c, s1, Advance(0)) == Some(s2);
    assert Apply(c, s2, DrainDone) == Some(Ending(j));
    Then(c, s2, DrainDone, Ending(j), more, end);
    Then(c, s1, Advance(0), s2, [DrainDone] + more, end);
  }

  /** The drain ends and arms the alarm again. */
  function Finishing(): seq<Event> {
    [Advance(0)] + ([DrainDone] + ([SettleDone(false)] + ([Arm] + [])))
  }

  lemma Finishes(c: Config, snap: Snap, j: Job)
    requires snap.job == 0 && j.phase == Returned(false) && j.retry
    ensures Run(c, Solo(snap, j), Finishing()) == Some(Rest(j.row, j.log, j.marked))
  {
    var end := Rest(j.row, j.log, j.marked);
    var arming := end.(armed := false, handler := Arming);
    Then(c, arming, Arm, end, [], end);
    Then(c, Ending(j), SettleDone(false), arming, [Arm] + [], end);
    DrainEnds(c, snap, j, [SettleDone(false)] + ([Arm] + []), end);
  }

  lemma AttemptFails(c: Config, n: nat, k: nat, was: bool, env: bool, more: seq<Event>, end: State)
    requires n + k + 1 < if env then c.dispatchCap else c.turnCap
    requires Run(c, Solo(Listed(n, k, was), Over(n, k, env)), more) == Some(end)
    ensures Run(c, Solo(Listed(n, k, was), Going(n, k, env)), [Step(0, Fail(Ordinary))] + more) == Some(end)
  {
    var snap, j := Listed(n, k, was), Going(n, k, env);
    assert JobStep(c, snap, Fail(Ordinary), j) == Some(Over(n, k, env));
    SoloSteps(c, snap, j, Fail(Ordinary));
    Then(c, Solo(snap, j), Step(0, Fail(Ordinary)), Solo(snap, Over(n, k, env)), more, end);
  }

  /** The attempt after it failed below its cap. */
  function Over(n: nat, k: nat, env: bool): Job {
    var j := Going(n, k, env);
    j.(phase := Returned(false), log := j.log.(busy := false), retry := true)
  }

  function FailingRound(prepare: bool): seq<Event> {
    Attempt(prepare) + ([Step(0, Fail(Ordinary))] + Finishing())
  }

  function DyingRound(): seq<Event> {
    Attempt(false) + [Crash]
  }

  lemma RoundFails(c: Config, n: nat, was: bool, prepare: bool)
    requires ValidConfig(c) && n + 1 < if was || prepare then c.dispatchCap else c.turnCap
    ensures Run(c, Tried(n, 0, was), FailingRound(prepare)) == Some(Tried(n + 1, 0, was || prepare))
  {
    var env := was || prepare;
    Attempts(c, n, 0, was, prepare);
    Finishes(c, Listed(n, 0, was), Over(n, 0, env));
    AttemptFails(c, n, 0, was, env, Finishing(), Tried(n + 1, 0, env));
    RunJoins(c, Tried(n, 0, was), Attempt(prepare), [Step(0, Fail(Ordinary))] + Finishing());
  }

  lemma RoundDies(c: Config, n: nat, k: nat, env: bool)
    requires ValidConfig(c)
    ensures Run(c, Tried(n, k, env), DyingRound()) == Some(Tried(n, k + 1, env))
  {
    var going, end := Solo(Listed(n, k, env), Going(n, k, env)), Tried(n, k + 1, env);
    Attempts(c, n, k, env, false);
    AttemptDies(c, n, k, env, env);
    Then(c, going, Crash, end, [], end);
    assert [Crash] + [] == [Crash];
    RunJoins(c, Tried(n, k, env), Attempt(false), [Crash]);
  }

  lemma FollowedBy(c: Config, past: seq<Event>, s: State, more: seq<Event>, t: State)
    requires Leads(c, past, s) && Run(c, s, more) == Some(t)
    ensures Leads(c, past + more, t)
  {
    RunJoins(c, EMPTY, past, more);
  }

  function Failures(n: nat, prepare: bool): seq<Event> {
    if n == 0 then Admission(NoIntent) else Failures(n - 1, prepare) + FailingRound(prepare)
  }

  /** n attempts that fail below their cap. */
  lemma {:induction false} FailedBefore(c: Config, n: nat, prepare: bool)
    requires ValidConfig(c) && n < if prepare then c.dispatchCap else c.turnCap
    ensures Leads(c, Failures(n, prepare), Tried(n, 0, prepare && n > 0))
    decreases n
  {
    if n == 0 {
      Admitted(c, NoIntent);
    } else {
      FailedBefore(c, n - 1, prepare);
      RoundFails(c, n - 1, prepare && n > 1, prepare);
      FollowedBy(c, Failures(n - 1, prepare), Tried(n - 1, 0, prepare && n > 1), FailingRound(prepare),
                 Tried(n, 0, prepare));
    }
  }

  function Deaths(failed: seq<Event>, k: nat): seq<Event> {
    if k == 0 then failed else Deaths(failed, k - 1) + DyingRound()
  }

  /** ... and then k that die with the object. */
  lemma {:induction false} DiedAfter(c: Config, failed: seq<Event>, n: nat, k: nat, env: bool)
    requires Leads(c, failed, Tried(n, 0, env))
    ensures Leads(c, Deaths(failed, k), Tried(n, k, env))
    decreases k
  {
    if k > 0 {
      DiedAfter(c, failed, n, k - 1, env);
      DiesOnceMore(c, Deaths(failed, k - 1), n, k - 1, env);
    }
  }

  lemma DiesOnceMore(c: Config, past: seq<Event>, n: nat, k: nat, env: bool)
    requires Leads(c, past, Tried(n, k, env))
    ensures Leads(c, past + DyingRound(), Tried(n, k + 1, env))
  {
    RoundDies(c, n, k, env);
    FollowedBy(c, past, Tried(n, k, env), DyingRound(), Tried(n, k + 1, env));
  }

  /** The bound on attempts is attained: for all caps, any number of exempt
      attempts, and for jobs that were dispatched as for those that were not. */
  lemma BoundIsAttained(c: Config, k: nat, dispatched: bool) returns (past: seq<Event>, s: State)
    requires ValidConfig(c)
    ensures Leads(c, past, s) && |s.rows| == |s.logs| == 1
    ensures s.rows[0].envelope == dispatched && s.logs[0].exempt == k
    ensures s.logs[0].runs == CapOf(c, s.rows[0]) + k
  {
    var early := dispatched && c.dispatchCap > c.turnCap;
    var n := (if early then c.dispatchCap else c.turnCap) - 1;
    var env := early && n > 0;
    FailedBefore(c, n, early);
    DiedAfter(c, Failures(n, early), n, k, env);
    Attempts(c, n, k, env, dispatched);
    s := Solo(Listed(n, k, env), Going(n, k, dispatched));
    past := Deaths(Failures(n, early), k) + Attempt(dispatched);
    FollowedBy(c, Deaths(Failures(n, early), k), Tried(n, k, env), Attempt(dispatched), s);
  }

  /** Whatever the caps, k crashes make k runs of one job that is still pending:
      the attempts recorded are only compared to a cap when a turn fails by itself. */
  lemma CrashesUnboundRuns(c: Config, k: nat) returns (past: seq<Event>, s: State)
    requires ValidConfig(c)
    ensures Leads(c, past, s) && |s.rows| == |s.logs| == 1
    ensures s.logs[0].runs == k && s.rows[0].status == Pending && s.armed
  {
    FailedBefore(c, 0, false);
    DiedAfter(c, Failures(0, false), 0, k, false);
    past, s := Deaths(Failures(0, false), k), Tried(0, k, false);
  }

  // ----- marks

  /** A job put in recovery after it was listed keeps its mark when the identity
      preflight then asks for a retry. */
  lemma RecoveryLeavesMark(c: Config) returns (past: seq<Event>, s: State)
    requires ValidConfig(c)
    ensures Leads(c, past, s) && |s.rows| == 1
    ensures s.rows[0].status == Recovery && 0 in s.marks
    ensures s.handler.Draining? && |s.handler.workers| == 1 && s.handler.workers[0] == At(0, 0, Returned(false))
  {
    var row := NewRow(Work);
    var snap := SnapOf([row], 0);
    Admitted(c, Work);
    RestFires(c, row, FRESH_LOG, true);
    var j := Job(row, FRESH_LOG, true, false, Preflight, false);
    var r := j.(row := row.(status := Recovery), log := FRESH_LOG.(foreign := true));
    var t := Apply(c, Solo(snap, j), Intrude(0)).value;
    assert t.rows == [r.row] && t.logs == [r.log];
    SoloSteps(c, snap, r, PreflightRetry);
    var rest, listed, marked := Rest(row, FRESH_LOG, true), Solo(snap, j), Solo(snap, r);
    s := Solo(snap, JobStep(c, snap, PreflightRetry, r).value);
    Then(c, marked, Step(0, PreflightRetry), s, [], s);
    assert [Step(0, PreflightRetry)] + [] == [Step(0, PreflightRetry)];
    Then(c, listed, Intrude(0), marked, [Step(0, PreflightRetry)], s);
    Then(c, rest, Fire, listed, [Intrude(0)] + [Step(0, PreflightRetry)], s);
    past := Admission(Work) + ([Fire] + ([Intrude(0)] + [Step(0, PreflightRetry)]));
    FollowedBy(c, Admission(Work), rest, [Fire] + ([Intrude(0)] + [Step(0, PreflightRetry)]), s);
  }

  // ----- order

  /** The first job in recovery, the second about to start, the first reopened. */
  function Overtaken(reopened: bool): State {
    var first := NewRow(NoIntent).(status := if reopened then Pending else Recovery);
    var log := if reopened then FRESH_LOG.(reopened := true, exempt := 1) else FRESH_LOG;
    var h := Draining([[Snap(1, 0, false, NoIntent)]], 1, [At(0, 0, Preflight)], false, {}, [0]);
    State([first, NewRow(NoIntent)], [log, FRESH_LOG], {}, false, h,
          if reopened then [Rpc({0}, false)] else [], if reopened then {1} else {0, 1}, {})
  }

  /** A drain that puts its only job in recovery ends without arming the alarm. */
  function Recovering(): seq<Event> {
    [Fire] + ([Step(0, PreflightFail)] + ([Advance(0)] + ([DrainDone] + ([SettleDone(false)] + []))))
  }

  function AfterRecovery(): State {
    Rest(NewRow(NoIntent).(status := Recovery), FRESH_LOG, false).(armed := false)
  }

  lemma Recovers(c: Config)
    requires ValidConfig(c)
    ensures Run(c, Rest(NewRow(NoIntent), FRESH_LOG, false), Recovering()) == Some(AfterRecovery())
  {
    var rest, end, snap := Rest(NewRow(NoIntent), FRESH_LOG, false), AfterRecovery(), Snap(0, 0, false, NoIntent);
    var j := Job(NewRow(NoIntent), FRESH_LOG, false, false, Preflight, false);
    var over := j.(row := end.rows[0], phase := Returned(false));
    var settled: seq<Event> := [SettleDone(false)] + [];
    DrainEnds(c, snap, over, settled, end);
    assert JobStep(c, snap, PreflightFail, j) == Some(over);
    SoloSteps(c, snap, j, PreflightFail);
    Then(c, Solo(snap, j), Step(0, PreflightFail), Solo(snap, over), [Advance(0)] + ([DrainDone] + settled), end);
    RestFires(c, rest.rows[0], FRESH_LOG, false);
    Then(c, rest, Fire, Solo(snap, j), [Step(0, PreflightFail)] + ([Advance(0)] + ([DrainDone] + settled)), end);
  }

  function Following(): seq<Event> {
    [Enqueue("", false, NoIntent)] + ([ReadAlarm(0)] + ([SetAlarm(0)] + ([Fire] + [])))
  }

  /** The second job is queued and the alarm is armed. */
  function SecondQueued(): State {
    var end := Overtaken(false);
    AfterRecovery().(rows := end.rows, logs := end.logs, acked := {0, 1}, armed := true)
  }

  lemma SecondFires(c: Config)
    requires ValidConfig(c)
    ensures Apply(c, SecondQueued(), Fire) == Some(Overtaken(false))
  {
    var rows := SecondQueued().rows;
    assert PendingFrom(rows, 2, c.batch - 1) == [];
    assert PendingFrom(rows, 1, c.batch) == [1];
    assert ListPending(rows, c.batch) == [1];
    GroupOfOne(rows, 1);
    DrainOfOne(Snap(1, 0, false, NoIntent));
  }

  lemma SecondIsListed(c: Config)
    requires ValidConfig(c)
    ensures Run(c, AfterRecovery(), Following()) == Some(Overtaken(false))
  {
    var s0, s3, end := AfterRecovery(), SecondQueued(), Overtaken(false);
    var s1 := s3.(rpcs := [Rpc({1}, false)], acked := {0}, armed := false);
    var s2 := s1.(rpcs := [Rpc({1}, true)]);
    SecondFires(c);
    Then(c, s3, Fire, end, [], end);
    SecondIsArmed(c, s1, s2);
    Then(c, s2, SetAlarm(0), s3, [Fire] + [], end);
    Then(c, s1, ReadAlarm(0), s2, [SetAlarm(0)] + ([Fire] + []), end);
    Then(c, s0, Enqueue("", false, NoIntent), s1, [ReadAlarm(0)] + ([SetAlarm(0)] + ([Fire] + [])), end);
  }

  lemma SecondIsArmed(c: Config, s1: State, s2: State)
    requires s1 == SecondQueued().(rpcs := [Rpc({1}, false)], acked := {0}, armed := false)
    requires s2 == s1.(rpcs := [Rpc({1}, true)])
    ensures Consistent(AfterRecovery()) && Apply(c, AfterRecovery(), Enqueue("", false, NoIntent)) == Some(s1)
    ensures Consistent(s1) && Apply(c, s1, ReadAlarm(0)) == Some(s2)
    ensures Consistent(s2) && Apply(c, s2, SetAlarm(0)) == Some(SecondQueued())
  {
    var t := Apply(c, AfterRecovery(), Enqueue("", false, NoIntent)).value;
    assert t.marks == {} && t.acked == {0} && t.lost == {} && t.rpcs == s1.rpcs;
    assert t.rows == s1.rows && t.logs == s1.logs;
    assert s1.rpcs[0 := Rpc({1}, true)] == s2.rpcs;
    var u := Apply(c, s2, SetAlarm(0)).value;
    assert u.rpcs == [] && u.acked == {0, 1} && u.lost == {};
  }

  lemma ReopeningFirst()
    ensures RecoveryJobs(Overtaken(false).rows) == {0}
    ensures ReopenedRows(Overtaken(false).rows, {0}) == Overtaken(true).rows
    ensures ReopenedLogs(Overtaken(false).logs, {0}) == Overtaken(true).logs
  {
  }

  lemma FirstIsReopened(c: Config)
    ensures Apply(c, Overtaken(false), Reopen({0})) == Some(Overtaken(true))
  {
    ReopeningFirst();
    var t := Apply(c, Overtaken(false), Reopen({0})).value;
    assert t.acked == {1} && t.lost == {} && t.rpcs == [Rpc({0}, false)];
  }

  /** An operator's retry can be overtaken: reopened while the next job of its
      conversation is being prepared, a job is still pending when that one starts. */
  lemma ReopenedIsOvertaken(c: Config) returns (past: seq<Event>, s: State)
    requires ValidConfig(c)
    ensures Leads(c, past, s) && Starts(c, s, 0)
    ensures SnapAt(s, 0).job == 1 && s.rows[0].thread == s.rows[1].thread
    ensures s.rows[0].status == Pending && s.logs[0].reopened && !s.logs[0].silent
  {
    var mid := Overtaken(true);
    s := mid.(rows := [mid.rows[0], mid.rows[1].(attempts := 1)], logs := [mid.logs[0], FRESH_LOG.(busy := true)],
              handler := mid.handler.(workers := [At(0, 0, Preparing(false))]));
    Admitted(c, NoIntent);
    Recovers(c);
    FollowedBy(c, Admission(NoIntent), Rest(NewRow(NoIntent), FRESH_LOG, false), Recovering(), AfterRecovery());
    SecondIsListed(c);
    FollowedBy(c, Admission(NoIntent) + Recovering(), AfterRecovery(), Following(), Overtaken(false));
    FirstIsReopened(c);
    SecondIsPrepared(c, s);
    Then(c, mid, Step(0, PreflightOk), s, [], s);
    Then(c, Overtaken(false), Reopen({0}), mid, [Step(0, PreflightOk)] + [], s);
    past := Admission(NoIntent) + Recovering() + Following() + ([Reopen({0})] + ([Step(0, PreflightOk)] + []));
    FollowedBy(c, Admission(NoIntent) + Recovering() + Following(), Overtaken(false),
               [Reopen({0})] + ([Step(0, PreflightOk)] + []), s);
  }

  lemma SecondIsPrepared(c: Config, s: State)
    requires var mid := Overtaken(true);
             s == mid.(rows := [mid.rows[0], mid.rows[1].(attempts := 1)],
                       logs := [mid.logs[0], FRESH_LOG.(busy := true)],
                       handler := mid.handler.(workers := [At(0, 0, Preparing(false))]))
    ensures Apply(c, Overtaken(true), Step(0, PreflightOk)) == Some(s)
    ensures Starts(c, s, 0)
  {
    var t := Apply(c, Overtaken(true), Step(0, PreflightOk)).value;
    assert t.rows == s.rows && t.logs == s.logs && t.marks == {} && t.handler.started == {};
    assert t.handler.workers == s.handler.workers;
  }
}

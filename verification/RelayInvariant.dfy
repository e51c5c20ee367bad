/** The invariant of the relay's runs, kept by every step. */
module RelayInvariant {
  import opened RelayModel
  import opened RelayJob

  // ----- the groups of a drain

  function JobIn(groups: seq<seq<Snap>>, g: nat, q: nat): nat
    requires g < |groups| && q < |groups[g]|
  {
    groups[g][q].job
  }

  predicate Within(groups: seq<seq<Snap>>, g: int, q: int) {
    0 <= g < |groups| && 0 <= q < |groups[g]|
  }

  /** A group is a conversation's jobs in enqueue order; no two share one. */
  ghost predicate GroupsOk(rows: seq<Row>, groups: seq<seq<Snap>>) {
    && (forall g :: 0 <= g < |groups| ==> groups[g] != [])
    && (forall g, q :: Within(groups, g, q) ==> JobIn(groups, g, q) < |rows|)
    && (forall g, p, q :: Within(groups, g, p) && Within(groups, g, q) ==>
          rows[JobIn(groups, g, p)].thread == rows[JobIn(groups, g, q)].thread)
    && (forall g, p, q :: Within(groups, g, p) && Within(groups, g, q) && p < q ==>
          JobIn(groups, g, p) < JobIn(groups, g, q))
    && (forall g, h, p, q :: Within(groups, g, p) && Within(groups, h, q) && g != h ==>
          rows[JobIn(groups, g, p)].thread != rows[JobIn(groups, h, q)].thread)
  }

  /** An earlier job of j's conversation that is pending and was not reopened. */
  predicate OpenBefore(rows: seq<Row>, logs: seq<Log>, i: int, j: nat)
    requires |logs| == |rows| && j < |rows|
  {
    0 <= i < j && rows[i].thread == rows[j].thread && rows[i].status == Pending && !logs[i].reopened
  }

  /** An earlier job of the conversation that is still pending and was not
      reopened stands earlier in the same group. */
  ghost predicate Complete(rows: seq<Row>, logs: seq<Log>, groups: seq<seq<Snap>>)
    requires |logs| == |rows| && GroupsOk(rows, groups)
  {
    forall g, q, i :: Within(groups, g, q) && OpenBefore(rows, logs, i, JobIn(groups, g, q)) ==>
      exists p :: 0 <= p < q && JobIn(groups, g, p) == i
  }

  lemma CompleteLasts(rows: seq<Row>, logs: seq<Log>, newRows: seq<Row>, newLogs: seq<Log>, groups: seq<seq<Snap>>)
    requires |logs| == |rows| <= |newRows| == |newLogs| && GroupsOk(rows, groups) && Complete(rows, logs, groups)
    requires forall j :: 0 <= j < |rows| ==> newRows[j].thread == rows[j].thread
    requires forall j :: 0 <= j < |rows| && newRows[j].status == Pending && !newLogs[j].reopened ==>
               rows[j].status == Pending && !logs[j].reopened
    ensures GroupsOk(newRows, groups) && Complete(newRows, newLogs, groups)
  {
    assert GroupsOk(newRows, groups);
    forall g, q, i | Within(groups, g, q) && OpenBefore(newRows, newLogs, i, JobIn(groups, g, q))
      ensures exists p :: 0 <= p < q && JobIn(groups, g, p) == i
    {
      assert OpenBefore(rows, logs, i, JobIn(groups, g, q));
    }
  }

  // ----- the workers

  predicate IsAt(h: Handler, w: int)
    requires h.Draining?
  {
    0 <= w < |h.workers| && h.workers[w].At?
  }

  /** At most four workers, on different groups; every group before `next` was
      taken once, in order; a worker is done only when no group is left. */
  ghost predicate WorkersOk(h: Handler)
    requires h.Draining?
  {
    && 0 < |h.workers| <= DRAIN_CONCURRENCY && h.groups != []
    && h.next <= |h.groups| && h.taken == Upto(h.next)
    && (forall w :: IsAt(h, w) ==>
          h.workers[w].group < h.next && Within(h.groups, h.workers[w].group, h.workers[w].pos))
    && (forall v, w :: IsAt(h, v) && IsAt(h, w) && v != w ==> h.workers[v].group != h.workers[w].group)
    && (forall w :: 0 <= w < |h.workers| && h.workers[w].Exited? ==> h.next == |h.groups|)
  }

  /** No worker has reached this place yet. */
  ghost predicate Ahead(h: Handler, g: int, q: int)
    requires h.Draining?
  {
    Within(h.groups, g, q) &&
    (g >= h.next || exists w :: IsAt(h, w) && h.workers[w].group == g && h.workers[w].pos < q)
  }

  /** A listed job before a worker reaches it. */
  function Listed(s: State, j: nat): Job
    requires |s.logs| == |s.rows| && j < |s.rows| && s.handler.Draining?
  {
    Job(s.rows[j], s.logs[j], j in s.marks, j in s.handler.started, Preflight, s.handler.retry)
  }

  ghost predicate DrainShape(s: State)
    requires |s.logs| == |s.rows| && s.handler.Draining?
  {
    GroupsOk(s.rows, s.handler.groups) && Complete(s.rows, s.logs, s.handler.groups) && WorkersOk(s.handler)
  }

  ghost predicate HandsOk(c: Config, s: State)
    requires |s.logs| == |s.rows| && s.handler.Draining? && DrainShape(s)
  {
    forall w :: IsAt(s.handler, w) ==> InHand(c, SnapAt(s, w), JobAt(s, w))
  }

  ghost predicate PassedOk(s: State)
    requires |s.logs| == |s.rows| && s.handler.Draining? && DrainShape(s)
  {
    forall w, q :: IsAt(s.handler, w) && 0 <= q < s.handler.workers[w].pos ==>
      var j := JobIn(s.handler.groups, s.handler.workers[w].group, q); Settled(s.rows[j], s.logs[j])
  }

  ghost predicate AheadOk(c: Config, s: State)
    requires |s.logs| == |s.rows| && s.handler.Draining? && DrainShape(s)
  {
    forall g, q :: Ahead(s.handler, g, q) ==>
      Waiting(c, s.handler.groups[g][q], Listed(s, JobIn(s.handler.groups, g, q)))
  }

  ghost predicate DrainOk(c: Config, s: State)
    requires |s.logs| == |s.rows| && s.handler.Draining?
  {
    DrainShape(s) && HandsOk(c, s) && PassedOk(s) && AheadOk(c, s)
  }

  // ----- jobs, and who is busy

  ghost predicate JobsOk(c: Config, s: State)
    requires |s.logs| == |s.rows|
  {
    forall j :: 0 <= j < |s.rows| ==> JobOk(c, s.rows[j], s.logs[j], j in s.marks)
  }

  ghost predicate Placed(h: Handler)
    requires h.Draining?
  {
    forall w :: IsAt(h, w) ==> Within(h.groups, h.workers[w].group, h.workers[w].pos)
  }

  /** A worker holds the job. */
  ghost predicate Held(s: State, j: nat)
    requires s.handler.Draining? && Placed(s.handler)
  {
    exists w :: IsAt(s.handler, w) && JobIn(s.handler.groups, s.handler.workers[w].group, s.handler.workers[w].pos) == j
  }

  ghost predicate BusyOk(s: State)
    requires |s.logs| == |s.rows|
  {
    forall j :: 0 <= j < |s.logs| && s.logs[j].busy ==> s.handler.Draining? && Placed(s.handler) && Held(s, j)
  }

  // ----- wake-ups

  predicate Rechecks(h: Handler) {
    h.Draining? || h.Settling? || h.Arming?
  }

  ghost predicate InFlight(rpcs: seq<Rpc>, j: nat) {
    exists r :: 0 <= r < |rpcs| && j in rpcs[r].jobs
  }

  /** A pending job whose RPC returned has an armed alarm or a handler that will
      recheck the queue; any other has its RPC in flight or lost. */
  ghost predicate WakeOk(s: State) {
    forall j :: 0 <= j < |s.rows| && s.rows[j].status == Pending ==>
      if j in s.acked then s.armed || Rechecks(s.handler) else j in s.lost || InFlight(s.rpcs, j)
  }

  ghost predicate Inv(c: Config, s: State) {
    && |s.logs| == |s.rows|
    && (s.handler.Draining? ==> DrainOk(c, s))
    && JobsOk(c, s) && BusyOk(s) && WakeOk(s)
  }

  // ----- a worker's step

  lemma LiftShape(c: Config, s: State, w: nat, to: Job)
    requires Inv(c, s) && s.handler.Draining? && IsAt(s.handler, w)
    requires Onward(JobAt(s, w), to)
    ensures var t := Lift(s, w, to); |t.logs| == |t.rows| && DrainShape(t)
  {
    var t := Lift(s, w, to);
    CompleteLasts(s.rows, s.logs, t.rows, t.logs, s.handler.groups);
  }

  lemma LiftKeepsOthers(c: Config, s: State, w: nat, to: Job, g: int, q: int)
    requires Inv(c, s) && s.handler.Draining? && IsAt(s.handler, w) && Onward(JobAt(s, w), to)
    requires Within(s.handler.groups, g, q) && (g != s.handler.workers[w].group || q != s.handler.workers[w].pos)
    ensures var t := Lift(s, w, to); var j := JobIn(s.handler.groups, g, q);
            && t.rows[j] == s.rows[j] && t.logs[j] == s.logs[j]
            && (j in t.marks <==> j in s.marks) && (j in t.handler.started <==> j in s.handler.started)
  {
  }

  lemma LiftHands(c: Config, s: State, w: nat, to: Job)
    requires Inv(c, s) && s.handler.Draining? && IsAt(s.handler, w)
    requires Onward(JobAt(s, w), to) && InHand(c, SnapAt(s, w), to)
    requires DrainShape(Lift(s, w, to))
    ensures HandsOk(c, Lift(s, w, to))
  {
    var t := Lift(s, w, to);
    forall v | IsAt(t.handler, v) ensures InHand(c, SnapAt(t, v), JobAt(t, v)) {
      if v == w {
        assert JobAt(t, v) == to;
      } else {
        LiftOtherHand(c, s, w, to, v);
      }
    }
  }

  lemma LiftOtherHand(c: Config, s: State, w: nat, to: Job, v: nat)
    requires Inv(c, s) && s.handler.Draining? && IsAt(s.handler, w) && IsAt(s.handler, v) && v != w
    requires Onward(JobAt(s, w), to) && DrainShape(Lift(s, w, to))
    ensures var t := Lift(s, w, to); InHand(c, SnapAt(t, v), JobAt(t, v))
  {
    var t := Lift(s, w, to);
    var at := s.handler.workers[v];
    LiftKeepsOthers(c, s, w, to, at.group, at.pos);
    assert InHand(c, SnapAt(s, v), JobAt(s, v));
    assert JobAt(t, v) == JobAt(s, v).(retry := to.retry);
  }

  lemma LiftPassed(c: Config, s: State, w: nat, to: Job)
    requires Inv(c, s) && s.handler.Draining? && IsAt(s.handler, w) && Onward(JobAt(s, w), to)
    requires DrainShape(Lift(s, w, to))
    ensures PassedOk(Lift(s, w, to))
  {
    var t := Lift(s, w, to);
    forall v, q | IsAt(t.handler, v) && 0 <= q < t.handler.workers[v].pos
      ensures var j := JobIn(t.handler.groups, t.handler.workers[v].group, q); Settled(t.rows[j], t.logs[j])
    {
      assert IsAt(s.handler, v);
      LiftKeepsOthers(c, s, w, to, s.handler.workers[v].group, q);
    }
  }

  lemma LiftAhead(c: Config, s: State, w: nat, to: Job)
    requires Inv(c, s) && s.handler.Draining? && IsAt(s.handler, w) && Onward(JobAt(s, w), to)
    requires DrainShape(Lift(s, w, to))
    ensures AheadOk(c, Lift(s, w, to))
  {
    var t := Lift(s, w, to);
    forall g, q | Ahead(t.handler, g, q)
      ensures Waiting(c, t.handler.groups[g][q], Listed(t, JobIn(t.handler.groups, g, q)))
    {
      LiftKeepsOthers(c, s, w, to, g, q);
      var j := JobIn(s.handler.groups, g, q);
      assert Listed(t, j) == Listed(s, j).(retry := to.retry);
    }
  }

  lemma LiftJobs(c: Config, s: State, w: nat, to: Job)
    requires Inv(c, s) && s.handler.Draining? && IsAt(s.handler, w)
    requires Onward(JobAt(s, w), to) && JobOk(c, to.row, to.log, to.marked)
    ensures var t := Lift(s, w, to); JobsOk(c, t) && WakeOk(t)
  {
    var t := Lift(s, w, to);
    forall j | 0 <= j < |t.rows| ensures JobOk(c, t.rows[j], t.logs[j], j in t.marks) {
      assert JobOk(c, s.rows[j], s.logs[j], j in s.marks);
    }
  }

  lemma LiftBusy(c: Config, s: State, w: nat, to: Job)
    requires Inv(c, s) && s.handler.Draining? && IsAt(s.handler, w)
    ensures BusyOk(Lift(s, w, to))
  {
    var t := Lift(s, w, to);
    forall v | IsAt(t.handler, v) ensures IsAt(s.handler, v) && t.handler.workers[v].group == s.handler.workers[v].group
                                          && t.handler.workers[v].pos == s.handler.workers[v].pos {}
    forall j | 0 <= j < |t.logs| && t.logs[j].busy ensures Placed(t.handler) && Held(t, j) {
      if j == SnapAt(s, w).job {
        assert IsAt(t.handler, w);
      } else {
        assert Held(s, j);
        var v :| IsAt(s.handler, v)
          && JobIn(s.handler.groups, s.handler.workers[v].group, s.handler.workers[v].pos) == j;
        assert IsAt(t.handler, v);
      }
    }
  }

  lemma StepKeepsInv(c: Config, s: State, w: nat, e: JobEvent)
    requires ValidConfig(c) && Inv(c, s) && Consistent(s) && Apply(c, s, Step(w, e)).Some?
    ensures Inv(c, Apply(c, s, Step(w, e)).value)
  {
    var j := JobAt(s, w);
    assert IsAt(s.handler, w);
    var job := SnapAt(s, w).job;
    assert JobOk(c, s.rows[job], s.logs[job], job in s.marks);
    JobStepKeeps(c, SnapAt(s, w), e, j);
    var to := JobStep(c, SnapAt(s, w), e, j).value;
    LiftShape(c, s, w, to);
    LiftHands(c, s, w, to);
    LiftPassed(c, s, w, to);
    LiftAhead(c, s, w, to);
    LiftJobs(c, s, w, to);
    LiftBusy(c, s, w, to);
  }

  // ----- a worker goes on

  lemma AdvanceWorkers(h: Handler, w: nat)
    requires h.Draining? && WorkersOk(h) && IsAt(h, w) && h.workers[w].phase.Returned?
    requires forall g :: 0 <= g < |h.groups| ==> h.groups[g] != []
    ensures var k := Advanced(h, w); k.groups == h.groups && WorkersOk(k)
  {
    assert Upto(h.next) + [h.next] == Upto(h.next + 1);
    var k := Advanced(h, w);
    assert forall v :: v != w ==> IsAt(k, v) == IsAt(h, v);
    assert h.next < |h.groups| ==> Within(h.groups, h.next, 0);
  }

  lemma AdvanceStaysAhead(h: Handler, w: nat, g: int, q: int)
    requires h.Draining? && WorkersOk(h) && IsAt(h, w) && h.workers[w].phase.Returned?
    requires Ahead(Advanced(h, w), g, q)
    ensures Ahead(h, g, q)
  {
    var k := Advanced(h, w);
    if g < h.next {
      var v :| IsAt(k, v) && k.workers[v].group == g && k.workers[v].pos < q;
      assert IsAt(h, v) && h.workers[v].group == g && h.workers[v].pos < q;
    }
  }

  lemma AdvanceKeepsInv(c: Config, s: State, w: nat)
    requires ValidConfig(c) && Inv(c, s) && Consistent(s) && Apply(c, s, Advance(w)).Some?
    ensures Inv(c, Apply(c, s, Advance(w)).value)
  {
    var t := Apply(c, s, Advance(w)).value;
    assert IsAt(s.handler, w);
    AdvanceWorkers(s.handler, w);
    assert GroupsOk(t.rows, t.handler.groups) && Complete(t.rows, t.logs, t.handler.groups);
    AdvanceHands(c, s, w, t);
    AdvancePassed(c, s, w, t);
    forall g, q | Ahead(t.handler, g, q)
      ensures Waiting(c, t.handler.groups[g][q], Listed(t, JobIn(t.handler.groups, g, q)))
    {
      AdvanceStaysAhead(s.handler, w, g, q);
      assert Listed(t, JobIn(t.handler.groups, g, q)) == Listed(s, JobIn(s.handler.groups, g, q));
    }
    AdvanceBusy(c, s, w, t);
  }

  lemma AdvanceHands(c: Config, s: State, w: nat, t: State)
    requires Inv(c, s) && s.handler.Draining? && IsAt(s.handler, w) && s.handler.workers[w].phase.Returned?
    requires t == s.(handler := Advanced(s.handler, w)) && DrainShape(t)
    ensures HandsOk(c, t)
  {
    forall v | IsAt(t.handler, v) ensures InHand(c, SnapAt(t, v), JobAt(t, v)) {
      if v == w {
        AdvanceOwnHand(c, s, w, t);
      } else {
        AdvanceOtherHand(c, s, w, t, v);
      }
    }
  }

  lemma AdvanceOtherHand(c: Config, s: State, w: nat, t: State, v: nat)
    requires Inv(c, s) && s.handler.Draining? && IsAt(s.handler, w) && s.handler.workers[w].phase.Returned?
    requires t == s.(handler := Advanced(s.handler, w)) && DrainShape(t) && IsAt(t.handler, v) && v != w
    ensures InHand(c, SnapAt(t, v), JobAt(t, v))
  {
    assert t.handler.workers[v] == s.handler.workers[v] && IsAt(s.handler, v);
    assert InHand(c, SnapAt(s, v), JobAt(s, v));
    assert JobAt(t, v) == JobAt(s, v);
  }

  lemma AdvanceOwnHand(c: Config, s: State, w: nat, t: State)
    requires Inv(c, s) && s.handler.Draining? && IsAt(s.handler, w) && s.handler.workers[w].phase.Returned?
    requires t == s.(handler := Advanced(s.handler, w)) && DrainShape(t) && IsAt(t.handler, w)
    ensures InHand(c, SnapAt(t, w), JobAt(t, w))
  {
    var to := t.handler.workers[w];
    assert JobAt(t, w) == Listed(s, JobIn(s.handler.groups, to.group, to.pos));
  }

  lemma AdvancePassed(c: Config, s: State, w: nat, t: State)
    requires Inv(c, s) && s.handler.Draining? && IsAt(s.handler, w) && s.handler.workers[w].phase.Returned?
    requires t == s.(handler := Advanced(s.handler, w)) && DrainShape(t)
    ensures PassedOk(t)
  {
    var h, k := s.handler, t.handler;
    forall v, q | IsAt(k, v) && 0 <= q < k.workers[v].pos
      ensures var j := JobIn(k.groups, k.workers[v].group, q); Settled(t.rows[j], t.logs[j])
    {
      assert IsAt(h, v);
      if v == w { AdvanceOwnPassed(c, s, w, t, q); }
    }
  }

  lemma AdvanceOwnPassed(c: Config, s: State, w: nat, t: State, q: int)
    requires Inv(c, s) && s.handler.Draining? && IsAt(s.handler, w) && s.handler.workers[w].phase.Returned?
    requires t == s.(handler := Advanced(s.handler, w)) && DrainShape(t)
    requires IsAt(t.handler, w) && 0 <= q < t.handler.workers[w].pos
    ensures var j := JobIn(t.handler.groups, t.handler.workers[w].group, q); Settled(t.rows[j], t.logs[j])
  {
    assert InHand(c, SnapAt(s, w), JobAt(s, w));
  }

  lemma AdvanceBusy(c: Config, s: State, w: nat, t: State)
    requires Inv(c, s) && s.handler.Draining? && IsAt(s.handler, w) && s.handler.workers[w].phase.Returned?
    requires t == s.(handler := Advanced(s.handler, w)) && DrainShape(t)
    ensures BusyOk(t)
  {
    assert InHand(c, SnapAt(s, w), JobAt(s, w));
    forall j | 0 <= j < |t.logs| && t.logs[j].busy ensures Placed(t.handler) && Held(t, j) {
      assert Held(s, j);
      var v :| IsAt(s.handler, v) && JobIn(s.handler.groups, s.handler.workers[v].group, s.handler.workers[v].pos) == j;
      assert v != w;
      assert IsAt(t.handler, v) && t.handler.workers[v] == s.handler.workers[v];
    }
  }

  // ----- what others do to a job

  /** Someone outside the drain changed the job's row or log. */
  predicate Outside(row: Row, log: Log, newRow: Row, newLog: Log) {
    || (newRow == row && newLog == log)
    || (newRow == Recovered(row) && newLog == log.(foreign := true)
        && (row.status == Pending || row.status == Recovery))
    || (row.status == Recovery && newRow == row.(status := Errored) && newLog == log)
    || (row.status == Recovery && newRow == row.(status := Pending)
        && newLog == log.(reopened := true, foreign := false, exempt := log.exempt + 1))
  }

  lemma OutsideKeepsJob(c: Config, row: Row, log: Log, marked: bool, newRow: Row, newLog: Log)
    requires JobOk(c, row, log, marked) && Outside(row, log, newRow, newLog)
    ensures JobOk(c, newRow, newLog, marked) && newLog.busy == log.busy
    ensures Settled(row, log) ==> Settled(newRow, newLog)
  {
  }

  lemma OutsideKeepsWaiting(c: Config, snap: Snap, j: Job, newRow: Row, newLog: Log)
    requires JobOk(c, j.row, j.log, j.marked) && Outside(j.row, j.log, newRow, newLog) && Waiting(c, snap, j)
    ensures Waiting(c, snap, j.(row := newRow, log := newLog))
  {
  }

  lemma OutsideKeepsHand(c: Config, snap: Snap, j: Job, newRow: Row, newLog: Log)
    requires JobOk(c, j.row, j.log, j.marked) && Outside(j.row, j.log, newRow, newLog) && InHand(c, snap, j)
    ensures InHand(c, snap, j.(row := newRow, log := newLog))
  {
    match j.phase
    case Preflight => OutsideKeepsWaiting(c, snap, j, newRow, newLog);
    case Assigning => OutsideKeepsWaiting(c, snap, j, newRow, newLog);
    case _ =>
  }

  /** The rows and logs of `t` are those of `s` changed from outside, and perhaps
      more jobs; its handler is that of `s`. */
  ghost predicate ChangedOutside(s: State, t: State)
    requires |s.logs| == |s.rows|
  {
    && |t.logs| == |t.rows| && |s.rows| <= |t.rows| && t.handler == s.handler
    && (forall j :: 0 <= j < |s.rows| ==>
          Outside(s.rows[j], s.logs[j], t.rows[j], t.logs[j]) && (j in t.marks <==> j in s.marks))
  }

  lemma OutsideShape(c: Config, s: State, t: State)
    requires Inv(c, s) && s.handler.Draining? && ChangedOutside(s, t)
    ensures DrainShape(t)
  {
    var groups := s.handler.groups;
    forall j | 0 <= j < |s.rows|
      ensures t.rows[j].thread == s.rows[j].thread
      ensures t.rows[j].status == Pending && !t.logs[j].reopened ==> s.rows[j].status == Pending && !s.logs[j].reopened
    {
      assert Outside(s.rows[j], s.logs[j], t.rows[j], t.logs[j]);
    }
    CompleteLasts(s.rows, s.logs, t.rows, t.logs, groups);
  }

  lemma OutsideKeepsDrain(c: Config, s: State, t: State)
    requires Inv(c, s) && s.handler.Draining? && ChangedOutside(s, t)
    ensures DrainOk(c, t)
  {
    OutsideShape(c, s, t);
    var h := s.handler;
    forall w | IsAt(h, w) ensures InHand(c, SnapAt(t, w), JobAt(t, w)) {
      var j := SnapAt(s, w).job;
      assert InHand(c, SnapAt(s, w), JobAt(s, w));
      OutsideKeepsHand(c, SnapAt(s, w), JobAt(s, w), t.rows[j], t.logs[j]);
      assert JobAt(t, w) == JobAt(s, w).(row := t.rows[j], log := t.logs[j]);
    }
    forall w, q | IsAt(h, w) && 0 <= q < h.workers[w].pos
      ensures var j := JobIn(h.groups, h.workers[w].group, q); Settled(t.rows[j], t.logs[j])
    {
      var j := JobIn(h.groups, h.workers[w].group, q);
      assert JobOk(c, s.rows[j], s.logs[j], j in s.marks);
      OutsideKeepsJob(c, s.rows[j], s.logs[j], j in s.marks, t.rows[j], t.logs[j]);
    }
    forall g, q | Ahead(h, g, q) ensures Waiting(c, h.groups[g][q], Listed(t, JobIn(h.groups, g, q))) {
      var j := JobIn(h.groups, g, q);
      assert JobOk(c, s.rows[j], s.logs[j], j in s.marks);
      OutsideKeepsWaiting(c, h.groups[g][q], Listed(s, j), t.rows[j], t.logs[j]);
      assert Listed(t, j) == Listed(s, j).(row := t.rows[j], log := t.logs[j]);
    }
  }

  lemma OutsideKeepsJobs(c: Config, s: State, t: State)
    requires Inv(c, s) && ChangedOutside(s, t)
    requires forall j :: |s.rows| <= j < |t.rows| ==>
               !t.logs[j].busy && JobOk(c, t.rows[j], t.logs[j], j in t.marks)
    ensures JobsOk(c, t) && BusyOk(t) && (t.handler.Draining? ==> DrainOk(c, t))
  {
    if s.handler.Draining? { OutsideKeepsDrain(c, s, t); }
    forall j | 0 <= j < |s.rows|
      ensures JobOk(c, t.rows[j], t.logs[j], j in t.marks) && t.logs[j].busy == s.logs[j].busy
    {
      OutsideKeepsJob(c, s.rows[j], s.logs[j], j in s.marks, t.rows[j], t.logs[j]);
    }
    forall j | 0 <= j < |t.logs| && t.logs[j].busy ensures t.handler.Draining? && Placed(t.handler) && Held(t, j) {
      assert Held(s, j);
    }
  }

  // ----- RPCs

  lemma FlightGrows(rpcs: seq<Rpc>, more: Rpc, j: nat)
    ensures InFlight(rpcs + [more], j) <==> InFlight(rpcs, j) || j in more.jobs
  {
    var all := rpcs + [more];
    assert all[|rpcs|] == more;
    if r :| 0 <= r < |rpcs| && j in rpcs[r].jobs { assert j in all[r].jobs; }
  }

  lemma FlightShrinks(rpcs: seq<Rpc>, k: nat, j: nat)
    requires k < |rpcs| && InFlight(rpcs, j)
    ensures j in rpcs[k].jobs || InFlight(rpcs[..k] + rpcs[k + 1..], j)
  {
    var rest := rpcs[..k] + rpcs[k + 1..];
    var r :| 0 <= r < |rpcs| && j in rpcs[r].jobs;
    if r < k {
      assert j in rest[r].jobs;
    } else if r > k {
      assert j in rest[r - 1].jobs;
    }
  }

  lemma {:induction false} FlightIsListed(rpcs: seq<Rpc>, j: nat)
    requires InFlight(rpcs, j)
    ensures j in JobsOf(rpcs)
    decreases |rpcs|
  {
    var r :| 0 <= r < |rpcs| && j in rpcs[r].jobs;
    if r > 0 {
      assert j in rpcs[1..][r - 1].jobs;
      FlightIsListed(rpcs[1..], j);
    }
  }

  lemma EnqueueKeepsInv(c: Config, s: State, thread: string, direct: bool, intent: Intent)
    requires ValidConfig(c) && Inv(c, s) && Consistent(s)
    ensures Inv(c, Apply(c, s, Enqueue(thread, direct, intent)).value)
  {
    var t := Apply(c, s, Enqueue(thread, direct, intent)).value;
    OutsideKeepsJobs(c, s, t);
    forall j | 0 <= j < |t.rows| && t.rows[j].status == Pending
      ensures if j in t.acked then t.armed || Rechecks(t.handler) else j in t.lost || InFlight(t.rpcs, j)
    {
      FlightGrows(s.rpcs, Rpc({|s.rows|}, false), j);
    }
  }

  lemma ReopenKeepsInv(c: Config, s: State, jobs: set<nat>)
    requires ValidConfig(c) && Inv(c, s) && Consistent(s) && Apply(c, s, Reopen(jobs)).Some?
    ensures Inv(c, Apply(c, s, Reopen(jobs)).value)
  {
    var t := Apply(c, s, Reopen(jobs)).value;
    forall j | 0 <= j < |s.rows| ensures Outside(s.rows[j], s.logs[j], t.rows[j], t.logs[j]) {
      if j in jobs { assert j in RecoveryJobs(s.rows); }
    }
    OutsideKeepsJobs(c, s, t);
    forall j | 0 <= j < |t.rows| && t.rows[j].status == Pending
      ensures if j in t.acked then t.armed || Rechecks(t.handler) else j in t.lost || InFlight(t.rpcs, j)
    {
      FlightGrows(s.rpcs, Rpc(jobs, false), j);
    }
  }

  lemma StartRpcKeepsInv(c: Config, s: State, rpc: Rpc)
    requires Inv(c, s)
    ensures Inv(c, s.(rpcs := s.rpcs + [rpc]))
  {
    var t := s.(rpcs := s.rpcs + [rpc]);
    OutsideKeepsJobs(c, s, t);
    forall j | 0 <= j < |t.rows| && t.rows[j].status == Pending
      ensures if j in t.acked then t.armed || Rechecks(t.handler) else j in t.lost || InFlight(t.rpcs, j)
    {
      FlightGrows(s.rpcs, rpc, j);
    }
  }

  lemma FinishKeepsInv(c: Config, s: State, rpc: nat, t: State)
    requires Inv(c, s) && rpc < |s.rpcs| && t == Finished(s, rpc).(armed := true)
    ensures Inv(c, t)
  {
    OutsideKeepsJobs(c, s, t);
    forall j | 0 <= j < |t.rows| && t.rows[j].status == Pending
      ensures if j in t.acked then t.armed || Rechecks(t.handler) else j in t.lost || InFlight(t.rpcs, j)
    {
      if InFlight(s.rpcs, j) { FlightShrinks(s.rpcs, rpc, j); }
    }
  }

  lemma ReadKeepsInv(c: Config, s: State, rpc: nat)
    requires ValidConfig(c) && Inv(c, s) && Consistent(s) && Apply(c, s, ReadAlarm(rpc)).Some?
    ensures Inv(c, Apply(c, s, ReadAlarm(rpc)).value)
  {
    var t := Apply(c, s, ReadAlarm(rpc)).value;
    if s.armed {
      assert t == Finished(s, rpc).(armed := true);
      FinishKeepsInv(c, s, rpc, t);
    } else {
      OutsideKeepsJobs(c, s, t);
      forall j | InFlight(s.rpcs, j) ensures InFlight(t.rpcs, j) {
        var r :| 0 <= r < |s.rpcs| && j in s.rpcs[r].jobs;
        assert j in t.rpcs[r].jobs;
      }
    }
  }

  lemma OneRowKeepsInv(c: Config, s: State, e: Event)
    requires ValidConfig(c) && Inv(c, s) && Consistent(s) && (e.Intrude? || e.Resolve?) && Apply(c, s, e).Some?
    ensures Inv(c, Apply(c, s, e).value)
  {
    var t := Apply(c, s, e).value;
    forall j | 0 <= j < |s.rows| ensures Outside(s.rows[j], s.logs[j], t.rows[j], t.logs[j]) {}
    OutsideKeepsJobs(c, s, t);
  }

  // ----- the platform and the ends of the handler

  lemma CrashKeepsInv(c: Config, s: State)
    requires ValidConfig(c) && Inv(c, s) && Consistent(s)
    ensures Inv(c, Apply(c, s, Crash).value)
  {
    var t := Apply(c, s, Crash).value;
    forall j | 0 <= j < |t.rows| ensures JobOk(c, t.rows[j], t.logs[j], j in t.marks) && !t.logs[j].busy {
      assert JobOk(c, s.rows[j], s.logs[j], j in s.marks);
    }
    forall j | 0 <= j < |t.rows| && t.rows[j].status == Pending
      ensures if j in t.acked then t.armed || Rechecks(t.handler) else j in t.lost || InFlight(t.rpcs, j)
    {
      if InFlight(s.rpcs, j) { FlightIsListed(s.rpcs, j); }
    }
  }

  lemma DrainDoneKeepsInv(c: Config, s: State)
    requires Inv(c, s) && Consistent(s) && Apply(c, s, DrainDone).Some?
    ensures Inv(c, Apply(c, s, DrainDone).value)
  {
  }

  /** Steps of the handler outside a drain. */
  lemma EndKeepsInv(c: Config, s: State, e: Event)
    requires Inv(c, s) && Consistent(s) && Apply(c, s, e).Some?
    requires e.EmptyDone? || e.EmptyArm? || e.SettleDone? || e.Arm?
    ensures Inv(c, Apply(c, s, e).value)
  {
    if e.SettleDone? {
      forall j | 0 <= j < |s.rows| && s.rows[j].status == Pending ensures j in PendingJobs(s.rows) {}
    }
  }
}

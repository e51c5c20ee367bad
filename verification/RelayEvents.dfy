/** What every other step of the relay comes to: how a drain begins and ends, and
    what RPCs, operators and the platform change. */
module RelayEvents {
  import opened Prelude
  import opened RelayModel
  import opened RelayInvariant
  import RelayGrouping

  // ----- a worker goes on, and the drain ends

  /** A worker that let go of a job goes on with its group if the job is settled
      and another follows; else it takes the next group that no worker has taken,
      or stops when there is none. */
  lemma WorkerGoesOn(c: Config, s: State, w: nat)
    requires Consistent(s) && s.handler.Draining? && IsAt(s.handler, w) && s.handler.workers[w].phase.Returned?
    ensures var h, at, t := s.handler, s.handler.workers[w], Apply(c, s, Advance(w));
            var more := at.phase.ok && at.pos + 1 < |h.groups[at.group]|;
            var place := if more then At(at.group, at.pos + 1, Preflight)
                         else if h.next < |h.groups| then At(h.next, 0, Preflight) else Exited;
            var takes := !more && h.next < |h.groups|;
            t == Some(s.(handler := Draining(h.groups, if takes then h.next + 1 else h.next, h.workers[w := place],
                                             h.retry, h.started, if takes then h.taken + [h.next] else h.taken)))
  {
  }

  /** The drain ends when every worker has stopped.  Another alarm is armed
      exactly if one was asked for, a job is pending, or other work is left; an
      empty drain has only the last to ask. */
  lemma DrainEnds(c: Config, s: State, more: bool)
    requires Consistent(s)
    ensures Apply(c, s, DrainDone) ==
            if s.handler.Draining? && forall w <- s.handler.workers :: w == Exited
            then Some(s.(handler := Settling(s.handler.retry))) else None
    ensures Apply(c, s, SettleDone(more)) ==
            if !s.handler.Settling? then None
            else if s.handler.retry || more || exists j :: 0 <= j < |s.rows| && s.rows[j].status == Pending
            then Some(s.(handler := Arming)) else Some(s.(handler := Asleep))
    ensures Apply(c, s, EmptyDone(more)) ==
            if !s.handler.EmptyDrain? then None else Some(s.(handler := if more then EmptyArming else Asleep))
    ensures var armed := s.(handler := Asleep, armed := true);
            && Apply(c, s, Arm) == (if s.handler.Arming? then Some(armed) else None)
            && Apply(c, s, EmptyArm) == if s.handler.EmptyArming? then Some(armed) else None
  {
    SomePending(s.rows);
  }

  lemma SomePending(rows: seq<Row>)
    ensures PendingJobs(rows) != {} <==> exists j :: 0 <= j < |rows| && rows[j].status == Pending
  {
    if j :| 0 <= j < |rows| && rows[j].status == Pending { assert j in PendingJobs(rows); }
  }

  // ----- the drain begins

  /** The alarm fires when it is armed and no handler runs.  With nothing pending
      the drain is empty; else as many workers as there are groups, at most
      four, each begin with the first job of a group of their own. */
  lemma DrainBegins(c: Config, s: State)
    requires ValidConfig(c) && Consistent(s)
    ensures Apply(c, s, Fire).Some? <==> s.armed && s.handler.Asleep?
    ensures Apply(c, s, Fire).Some? ==>
              var t := Apply(c, s, Fire).value;
              && t == s.(armed := false, handler := t.handler)
              && if forall j :: 0 <= j < |s.rows| ==> s.rows[j].status != Pending then t.handler == EmptyDrain
                 else && t.handler.Draining? && t.handler.groups == RelayGrouping.GroupsOf(s.rows, c.batch)
                      && BeginsWorkers(t.handler)
  {
    var pending := ListPending(s.rows, c.batch);
    if pending == [] {
      forall j | 0 <= j < |s.rows| ensures s.rows[j].status != Pending {
        if s.rows[j].status == Pending { RelayGrouping.ListIsOldestFirst(s.rows, 0, c.batch, j); }
      }
    } else {
      assert s.rows[pending[0]].status == Pending;
    }
  }

  predicate BeginsWorkers(h: Handler)
    requires h.Draining?
  {
    && h.next == (if |h.groups| < 4 then |h.groups| else 4) && |h.workers| == h.next && |h.taken| == h.next
    && (forall k :: 0 <= k < h.next ==> h.workers[k] == At(k, 0, Preflight) && h.taken[k] == k)
    && !h.retry && h.started == {}
  }

  /** A place of a group is a pending job as its row says it, in the order of the queue. */
  lemma GroupsHoldPending(rows: seq<Row>, limit: nat, g: nat, q: nat)
    requires var groups := RelayGrouping.GroupsOf(rows, limit); g < |groups| && q < |groups[g]|
    ensures var groups := RelayGrouping.GroupsOf(rows, limit);
            var snap := groups[g][q];
            && snap.job < |rows| && rows[snap.job].status == Pending
            && snap.attempts == rows[snap.job].attempts && snap.envelope == rows[snap.job].envelope
            && snap.intent == (if rows[snap.job].turnIntent != NoIntent then rows[snap.job].turnIntent
                               else rows[snap.job].progressIntent)
            && groups[g][0].job < |rows| && rows[snap.job].thread == rows[groups[g][0].job].thread
            && forall p :: 0 <= p < q ==> groups[g][p].job < snap.job
  {
    RelayGrouping.PlaceIsListed(rows, limit, g, q);
    RelayGrouping.PlaceIsListed(rows, limit, g, 0);
    var groups := RelayGrouping.GroupsOf(rows, limit);
    assert Within(groups, g, q) && JobIn(groups, g, q) == groups[g][q].job;
    assert forall p :: 0 <= p < q ==> JobIn(groups, g, p) == groups[g][p].job;
  }

  /** A pending job has its place, or as many older ones as the limit have theirs. */
  lemma PendingIsGrouped(rows: seq<Row>, limit: nat, j: nat)
    requires j < |rows| && rows[j].status == Pending
    ensures var groups := RelayGrouping.GroupsOf(rows, limit);
            || (exists g, q :: 0 <= g < |groups| && 0 <= q < |groups[g]| && groups[g][q].job == j)
            || (var older := ListPending(rows, limit);
                |older| == limit && forall k :: 0 <= k < |older| ==> older[k] < j)
  {
    var pending := ListPending(rows, limit);
    RelayGrouping.ListIsOldestFirst(rows, 0, limit, j);
    if j in pending {
      var k :| 0 <= k < |pending| && pending[k] == j;
      RelayGrouping.OfThreadHasAll(rows, pending, k);
      var m := Grouped(rows, pending);
      RelayGrouping.GroupedByThread(rows, pending, rows[j].thread);
      assert rows[j].thread in m.keys;
      var g :| 0 <= g < |m.keys| && m.keys[g] == rows[j].thread;
      assert RelayGrouping.GroupsOf(rows, limit)[g] == m.at[rows[j].thread];
    }
  }

  /** The first job that was listed of a conversation. */
  function FirstOf(rows: seq<Row>, jobs: seq<nat>, key: string): nat
    requires (forall i :: 0 <= i < |jobs| ==> jobs[i] < |rows|) && RelayGrouping.OfThread(rows, jobs, key) != []
  {
    RelayGrouping.OfThread(rows, jobs, key)[0].job
  }

  lemma FirstIsKept(rows: seq<Row>, jobs: seq<nat>, key: string)
    requires (forall i :: 0 <= i < |jobs| ==> jobs[i] < |rows|) && RelayGrouping.Ascending(jobs) && jobs != []
    requires RelayGrouping.OfThread(rows, jobs[..|jobs| - 1], key) != []
    ensures RelayGrouping.OfThread(rows, jobs, key) != []
    ensures FirstOf(rows, jobs, key) == FirstOf(rows, jobs[..|jobs| - 1], key) < jobs[|jobs| - 1]
  {
    RelayGrouping.OfThreadIsListed(rows, jobs[..|jobs| - 1], key, 0);
  }

  /** Each key stands where its oldest job puts it. */
  ghost predicate ByFirst(rows: seq<Row>, jobs: seq<nat>, keys: seq<string>)
    requires forall i :: 0 <= i < |jobs| ==> jobs[i] < |rows|
  {
    && (forall a :: 0 <= a < |keys| ==> RelayGrouping.OfThread(rows, jobs, keys[a]) != [])
    && forall a, b :: 0 <= a < b < |keys| ==> FirstOf(rows, jobs, keys[a]) < FirstOf(rows, jobs, keys[b])
  }

  lemma {:induction false} KeysByFirst(rows: seq<Row>, jobs: seq<nat>)
    requires forall i :: 0 <= i < |jobs| ==> jobs[i] < |rows|
    requires RelayGrouping.Ascending(jobs)
    ensures ByFirst(rows, jobs, Grouped(rows, jobs).keys)
    decreases |jobs|
  {
    if jobs != [] {
      var init, last := jobs[..|jobs| - 1], jobs[|jobs| - 1];
      var keys, key := Grouped(rows, init).keys, rows[last].thread;
      KeysByFirst(rows, init);
      KeysStay(rows, jobs, keys);
      if key !in Grouped(rows, init).at {
        RelayGrouping.GroupedByThread(rows, init, key);
        NewKeyIsFirst(rows, jobs, last);
        NewKeyIsLast(rows, jobs, keys, key);
      }
    }
  }

  lemma KeysStay(rows: seq<Row>, jobs: seq<nat>, keys: seq<string>)
    requires (forall i :: 0 <= i < |jobs| ==> jobs[i] < |rows|) && RelayGrouping.Ascending(jobs) && jobs != []
    requires ByFirst(rows, jobs[..|jobs| - 1], keys)
    ensures ByFirst(rows, jobs, keys)
    ensures forall a :: 0 <= a < |keys| ==> FirstOf(rows, jobs, keys[a]) < jobs[|jobs| - 1]
  {
    forall a | 0 <= a < |keys|
      ensures RelayGrouping.OfThread(rows, jobs, keys[a]) != []
      ensures FirstOf(rows, jobs, keys[a]) == FirstOf(rows, jobs[..|jobs| - 1], keys[a]) < jobs[|jobs| - 1]
    {
      FirstIsKept(rows, jobs, keys[a]);
    }
  }

  lemma NewKeyIsFirst(rows: seq<Row>, jobs: seq<nat>, last: nat)
    requires (forall i :: 0 <= i < |jobs| ==> jobs[i] < |rows|) && jobs != [] && last == jobs[|jobs| - 1]
    requires RelayGrouping.OfThread(rows, jobs[..|jobs| - 1], rows[last].thread) == []
    ensures RelayGrouping.OfThread(rows, jobs, rows[last].thread) == [SnapOf(rows, last)]
  {
  }

  lemma NewKeyIsLast(rows: seq<Row>, jobs: seq<nat>, keys: seq<string>, key: string)
    requires (forall i :: 0 <= i < |jobs| ==> jobs[i] < |rows|) && ByFirst(rows, jobs, keys)
    requires RelayGrouping.OfThread(rows, jobs, key) != []
    requires forall a :: 0 <= a < |keys| ==> FirstOf(rows, jobs, keys[a]) < FirstOf(rows, jobs, key)
    ensures ByFirst(rows, jobs, keys + [key])
  {
  }

  /** Groups are of different conversations, and stand in the order of their oldest jobs. */
  lemma GroupsStandOldestFirst(rows: seq<Row>, limit: nat, g: nat, h: nat)
    requires g < h < |RelayGrouping.GroupsOf(rows, limit)|
    ensures var groups := RelayGrouping.GroupsOf(rows, limit);
            && groups[g] != [] && groups[h] != [] && groups[g][0].job < groups[h][0].job < |rows|
            && rows[groups[g][0].job].thread != rows[groups[h][0].job].thread
  {
    var groups, pending := RelayGrouping.GroupsOf(rows, limit), ListPending(rows, limit);
    KeysByFirst(rows, pending);
    RelayGrouping.GroupIsThread(rows, limit, g);
    RelayGrouping.GroupIsThread(rows, limit, h);
    RelayGrouping.NewGroupsOk(rows, limit);
    assert Within(groups, g, 0) && Within(groups, h, 0);
    assert JobIn(groups, g, 0) == groups[g][0].job && JobIn(groups, h, 0) == groups[h][0].job;
  }

  // ----- RPCs, operators, and the platform

  /** A new job's row is pending, without attempts, and marked if its turn carries
      an intent to work; its RPC is in flight. */
  lemma JobIsEnqueued(c: Config, s: State, thread: string, direct: bool, intent: Intent)
    requires Consistent(s)
    ensures var j := |s.rows|;
            Apply(c, s, Enqueue(thread, direct, intent))
            == Some(s.(rows := s.rows + [Row(thread, direct, intent, Pending, 0, false, NoIntent)],
                       logs := s.logs + [Log(0, false, 0, 0, false, 0, false, false, false)],
                       marks := if intent == Work then s.marks + {j} else s.marks - {j},
                       rpcs := s.rpcs + [Rpc({j}, false)], acked := s.acked - {j}, lost := s.lost - {j}))
  {
  }

  /** Enqueueing an event again, and maintenance when there is work, only start an
      RPC that covers the job, or every pending job. */
  lemma RpcBegins(c: Config, s: State, job: nat, ledger: bool)
    requires Consistent(s)
    ensures Apply(c, s, EnqueueAgain(job)) ==
            if job < |s.rows| then Some(s.(rpcs := s.rpcs + [Rpc({job}, false)])) else None
    ensures var pending := set j: nat | j < |s.rows| && s.rows[j].status == Pending;
            Apply(c, s, Maintain(ledger)) ==
            if pending != {} || ledger then Some(s.(rpcs := s.rpcs + [Rpc(pending, false)])) else None
  {
  }

  /** An RPC ends at once if the alarm is armed, and else arms it and ends. */
  lemma RpcEnds(c: Config, s: State, rpc: nat)
    requires Consistent(s) && rpc < |s.rpcs|
    ensures var jobs, left := s.rpcs[rpc].jobs, s.rpcs[..rpc] + s.rpcs[rpc + 1..];
            var ended := s.(rpcs := left, acked := s.acked + jobs, lost := s.lost - jobs);
            && Apply(c, s, ReadAlarm(rpc)) == (if s.rpcs[rpc].setting then None
                                               else if s.armed then Some(ended)
                                               else Some(s.(rpcs := s.rpcs[rpc := Rpc(jobs, true)])))
            && Apply(c, s, SetAlarm(rpc)) == if s.rpcs[rpc].setting then Some(ended.(armed := true)) else None
  {
  }

  /** An operator's retry makes jobs in recovery pending again and starts an RPC for them. */
  lemma JobsAreReopened(c: Config, s: State, jobs: set<nat>)
    requires Consistent(s)
    ensures Apply(c, s, Reopen(jobs)).Some? <==>
              jobs != {} && forall j <- jobs :: j < |s.rows| && s.rows[j].status == Recovery
    ensures Apply(c, s, Reopen(jobs)).Some? ==>
              var t := Apply(c, s, Reopen(jobs)).value;
              && t == s.(rows := t.rows, logs := t.logs, rpcs := s.rpcs + [Rpc(jobs, false)],
                         acked := s.acked - jobs, lost := s.lost - jobs)
              && |t.rows| == |s.rows| && |t.logs| == |s.logs|
              && forall j :: 0 <= j < |s.rows| ==>
                   if j in jobs
                   then t.rows[j] == s.rows[j].(status := Pending)
                        && t.logs[j] == s.logs[j].(reopened := true, foreign := false, exempt := s.logs[j].exempt + 1)
                   else t.rows[j] == s.rows[j] && t.logs[j] == s.logs[j]
  {
  }

  /** Something else puts a job that is not over in recovery; an operator closes
      one that is in recovery. */
  lemma JobIsSetAside(c: Config, s: State, job: nat)
    requires Consistent(s) && job < |s.rows|
    ensures Apply(c, s, Intrude(job)) ==
            if s.rows[job].status == Done || s.rows[job].status == Errored then None
            else Some(s.(rows := s.rows[job := s.rows[job].(status := Recovery)],
                         logs := s.logs[job := s.logs[job].(foreign := true)]))
    ensures Apply(c, s, Resolve(job)) ==
            if s.rows[job].status != Recovery then None
            else Some(s.(rows := s.rows[job := s.rows[job].(status := Errored)]))
  {
  }

  /** The object dies: the platform fires the alarm again if a handler was running,
      RPCs that had not returned are lost, and attempts under way end. */
  lemma ObjectDies(c: Config, s: State)
    requires Consistent(s)
    ensures var t := Apply(c, s, Crash);
            && t.Some? && t.value == s.(armed := s.armed || s.handler != Asleep, handler := Asleep, rpcs := [],
                                        lost := t.value.lost, logs := t.value.logs)
            && (forall j :: j in t.value.lost <==>
                  j in s.lost || (j !in s.acked && exists r <- s.rpcs :: j in r.jobs))
            && |t.value.logs| == |s.logs|
            && forall j :: 0 <= j < |s.logs| ==>
                 t.value.logs[j] == if s.logs[j].busy then s.logs[j].(busy := false, exempt := s.logs[j].exempt + 1)
                                    else s.logs[j]
  {
    forall j ensures j in JobsOf(s.rpcs) <==> exists r <- s.rpcs :: j in r.jobs { JobsOfRpcs(s.rpcs, j); }
  }

  lemma {:induction false} JobsOfRpcs(rpcs: seq<Rpc>, j: nat)
    ensures j in JobsOf(rpcs) <==> exists r <- rpcs :: j in r.jobs
    decreases |rpcs|
  {
    if rpcs != [] {
      JobsOfRpcs(rpcs[1..], j);
      assert rpcs == [rpcs[0]] + rpcs[1..];
    }
  }
}

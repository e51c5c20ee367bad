/** The start of a drain: the oldest pending jobs, grouped by conversation. */
module RelayGrouping {
  import opened OrderedMaps
  import opened RelayModel
  import opened RelayJob
  import opened RelayInvariant

  // ----- the list

  predicate Ascending(jobs: seq<nat>) {
    forall i, j :: 0 <= i < j < |jobs| ==> jobs[i] < jobs[j]
  }

  /** Oldest first: a pending job is listed, or the list is full of older ones. */
  lemma {:induction false} ListIsOldestFirst(rows: seq<Row>, from: nat, limit: nat, i: nat)
    requires from <= i < |rows| && rows[i].status == Pending
    ensures var r := PendingFrom(rows, from, limit);
            i in r || (|r| == limit && forall k :: 0 <= k < |r| ==> r[k] < i)
    decreases |rows| - from
  {
    if limit > 0 {
      var taken := rows[from].status == Pending;
      var left := if taken then limit - 1 else limit;
      var r, rest := PendingFrom(rows, from, limit), PendingFrom(rows, from + 1, left);
      assert r == if taken then [from] + rest else rest;
      if i == from {
        assert r[0] == i;
      } else {
        ListIsOldestFirst(rows, from + 1, left, i);
      }
    }
  }

  // ----- the groups

  /** The listed jobs of a conversation, in the order of the list. */
  function OfThread(rows: seq<Row>, jobs: seq<nat>, key: string): (r: seq<Snap>)
    requires forall i :: 0 <= i < |jobs| ==> jobs[i] < |rows|
  {
    if jobs == [] then []
    else
      var last := jobs[|jobs| - 1];
      OfThread(rows, jobs[..|jobs| - 1], key) + if rows[last].thread == key then [SnapOf(rows, last)] else []
  }

  lemma {:induction false} GroupedByThread(rows: seq<Row>, jobs: seq<nat>, key: string)
    requires forall i :: 0 <= i < |jobs| ==> jobs[i] < |rows|
    ensures var m := Grouped(rows, jobs);
            && (key in m.at <==> OfThread(rows, jobs, key) != [])
            && (key in m.at ==> m.at[key] == OfThread(rows, jobs, key))
    decreases |jobs|
  {
    if jobs != [] { GroupedByThread(rows, jobs[..|jobs| - 1], key); }
  }

  lemma {:induction false} OfThreadIsListed(rows: seq<Row>, jobs: seq<nat>, key: string, q: nat)
    requires forall i :: 0 <= i < |jobs| ==> jobs[i] < |rows|
    requires q < |OfThread(rows, jobs, key)|
    ensures exists k :: 0 <= k < |jobs| && OfThread(rows, jobs, key)[q] == SnapOf(rows, jobs[k])
              && rows[jobs[k]].thread == key
    decreases |jobs|
  {
    var init, last := jobs[..|jobs| - 1], jobs[|jobs| - 1];
    var before := OfThread(rows, init, key);
    if q < |before| {
      OfThreadIsListed(rows, init, key, q);
      var k :| 0 <= k < |init| && before[q] == SnapOf(rows, init[k]) && rows[init[k]].thread == key;
      assert jobs[k] == init[k];
    } else {
      assert OfThread(rows, jobs, key)[q] == SnapOf(rows, last);
    }
  }

  lemma {:induction false} OfThreadIsInOrder(rows: seq<Row>, jobs: seq<nat>, key: string, p: nat, q: nat)
    requires forall i :: 0 <= i < |jobs| ==> jobs[i] < |rows|
    requires Ascending(jobs) && p < q < |OfThread(rows, jobs, key)|
    ensures OfThread(rows, jobs, key)[p].job < OfThread(rows, jobs, key)[q].job
    decreases |jobs|
  {
    var init, last := jobs[..|jobs| - 1], jobs[|jobs| - 1];
    if q < |OfThread(rows, init, key)| {
      OfThreadIsInOrder(rows, init, key, p, q);
    } else {
      OfThreadIsListed(rows, init, key, p);
    }
  }

  lemma {:induction false} OfThreadHasAll(rows: seq<Row>, jobs: seq<nat>, k: nat)
    requires forall i :: 0 <= i < |jobs| ==> jobs[i] < |rows|
    requires k < |jobs|
    ensures exists p :: 0 <= p < |OfThread(rows, jobs, rows[jobs[k]].thread)|
              && OfThread(rows, jobs, rows[jobs[k]].thread)[p].job == jobs[k]
    decreases |jobs|
  {
    var key := rows[jobs[k]].thread;
    var init, all := OfThread(rows, jobs[..|jobs| - 1], key), OfThread(rows, jobs, key);
    if k == |jobs| - 1 {
      assert all[|init|].job == jobs[k];
    } else {
      OfThreadHasAll(rows, jobs[..|jobs| - 1], k);
      var p :| 0 <= p < |init| && init[p].job == jobs[k];
      assert all[p].job == jobs[k];
    }
  }

  /** The Map after one more job. */
  function Appended(rows: seq<Row>, m: OrderedMap<string, seq<Snap>>, job: nat): OrderedMap<string, seq<Snap>>
    requires m.Valid() && job < |rows|
  {
    var key := rows[job].thread;
    m.Set(key, (if key in m.at then m.at[key] else []) + [SnapOf(rows, job)])
  }

  lemma GroupedNext(rows: seq<Row>, jobs: seq<nat>, i: nat)
    requires forall k :: 0 <= k < |jobs| ==> jobs[k] < |rows|
    requires i < |jobs|
    ensures Grouped(rows, jobs[..i + 1]) == Appended(rows, Grouped(rows, jobs[..i]), jobs[i])
  {
    assert jobs[..i + 1][..i] == jobs[..i];
  }

  /** The grouping loop: a Map from conversation to its jobs, extended job by job. */
  method GroupByConversation(rows: seq<Row>, pending: seq<nat>) returns (groups: OrderedMap<string, seq<Snap>>)
    requires forall i :: 0 <= i < |pending| ==> pending[i] < |rows|
    ensures groups.Valid() && groups == Grouped(rows, pending)
  {
    groups := NoEntries();
    var i := 0;
    while i < |pending|
      invariant 0 <= i <= |pending| && groups.Valid()
      invariant groups == Grouped(rows, pending[..i])
    {
      GroupedNext(rows, pending, i);
      var job := pending[i];
      var key := rows[job].thread;
      assert [] + [SnapOf(rows, job)] == [SnapOf(rows, job)];
      if key in groups.at {
        groups := groups.Set(key, groups.at[key] + [SnapOf(rows, job)]);
      } else {
        groups := groups.Set(key, [SnapOf(rows, job)]);
      }
      i := i + 1;
    }
    assert pending[..i] == pending;
  }

  // ----- the drain that starts

  function GroupsOf(rows: seq<Row>, limit: nat): seq<seq<Snap>> {
    Grouped(rows, ListPending(rows, limit)).Values()
  }

  /** A group is all that was listed of a conversation. */
  lemma GroupIsThread(rows: seq<Row>, limit: nat, g: nat)
    requires g < |GroupsOf(rows, limit)|
    ensures var pending := ListPending(rows, limit); var key := Grouped(rows, pending).keys[g];
            GroupsOf(rows, limit)[g] == OfThread(rows, pending, key) != []
  {
    var pending := ListPending(rows, limit);
    var m := Grouped(rows, pending);
    assert m.keys[g] in m.keys;
    GroupedByThread(rows, pending, m.keys[g]);
  }

  /** What a worker finds at a place of a group. */
  lemma PlaceIsListed(rows: seq<Row>, limit: nat, g: int, q: int)
    requires Within(GroupsOf(rows, limit), g, q)
    ensures var groups := GroupsOf(rows, limit); var pending := ListPending(rows, limit);
            var j := JobIn(groups, g, q);
            && j in pending && rows[j].status == Pending && groups[g][q] == SnapOf(rows, j)
            && rows[j].thread == Grouped(rows, pending).keys[g]
            && forall p :: 0 <= p < q ==> JobIn(groups, g, p) < j
  {
    var pending := ListPending(rows, limit);
    GroupIsThread(rows, limit, g);
    var key := Grouped(rows, pending).keys[g];
    OfThreadIsListed(rows, pending, key, q);
    forall p | 0 <= p < q ensures JobIn(GroupsOf(rows, limit), g, p) < JobIn(GroupsOf(rows, limit), g, q) {
      OfThreadIsInOrder(rows, pending, key, p, q);
    }
  }

  lemma NewGroupsOk(rows: seq<Row>, limit: nat)
    ensures GroupsOk(rows, GroupsOf(rows, limit))
  {
    var groups := GroupsOf(rows, limit);
    var m := Grouped(rows, ListPending(rows, limit));
    forall g | 0 <= g < |groups| ensures groups[g] != [] { GroupIsThread(rows, limit, g); }
    forall g, q | Within(groups, g, q)
      ensures JobIn(groups, g, q) < |rows| && rows[JobIn(groups, g, q)].thread == m.keys[g]
      ensures forall p :: 0 <= p < q ==> JobIn(groups, g, p) < JobIn(groups, g, q)
    {
      PlaceIsListed(rows, limit, g, q);
    }
  }

  lemma NewGroupsComplete(rows: seq<Row>, logs: seq<Log>, limit: nat)
    requires |logs| == |rows| && GroupsOk(rows, GroupsOf(rows, limit))
    ensures Complete(rows, logs, GroupsOf(rows, limit))
  {
    var groups, pending := GroupsOf(rows, limit), ListPending(rows, limit);
    forall g, q, i | Within(groups, g, q) && OpenBefore(rows, logs, i, JobIn(groups, g, q))
      ensures exists p :: 0 <= p < q && JobIn(groups, g, p) == i
    {
      PlaceIsListed(rows, limit, g, q);
      ListIsOldestFirst(rows, 0, limit, i);
      assert i in pending;
      var k :| 0 <= k < |pending| && pending[k] == i;
      OfThreadHasAll(rows, pending, k);
      GroupIsThread(rows, limit, g);
      var p :| 0 <= p < |groups[g]| && groups[g][p].job == i;
      assert JobIn(groups, g, p) == i;
      if p > q { PlaceIsListed(rows, limit, g, p); }
    }
  }

  lemma NewWorkersOk(groups: seq<seq<Snap>>)
    requires groups != [] && forall g :: 0 <= g < |groups| ==> groups[g] != []
    ensures WorkersOk(StartDrain(groups))
  {
    var h := StartDrain(groups);
    forall w | IsAt(h, w) ensures h.workers[w] == At(w, 0, Preflight) && Within(groups, w, 0) {}
  }

  lemma NewPlaceWaits(c: Config, s: State, t: State, g: int, q: int)
    requires ValidConfig(c) && Inv(c, s) && s.handler.Asleep? && Within(GroupsOf(s.rows, c.batch), g, q)
    requires t == s.(armed := false, handler := StartDrain(GroupsOf(s.rows, c.batch)))
    ensures JobIn(GroupsOf(s.rows, c.batch), g, q) < |t.rows|
    ensures var groups := GroupsOf(s.rows, c.batch); Waiting(c, groups[g][q], Listed(t, JobIn(groups, g, q)))
  {
    var groups := GroupsOf(s.rows, c.batch);
    PlaceIsListed(s.rows, c.batch, g, q);
    var j := JobIn(groups, g, q);
    assert JobOk(c, s.rows[j], s.logs[j], j in s.marks);
  }

  lemma NewHandWaits(c: Config, s: State, t: State, w: int)
    requires ValidConfig(c) && Inv(c, s) && s.handler.Asleep?
    requires t == s.(armed := false, handler := StartDrain(GroupsOf(s.rows, c.batch)))
    requires DrainShape(t) && IsAt(t.handler, w)
    ensures InHand(c, SnapAt(t, w), JobAt(t, w))
  {
    var groups := GroupsOf(s.rows, c.batch);
    assert t.handler.workers[w] == At(w, 0, Preflight) && Within(groups, w, 0);
    NewPlaceWaits(c, s, t, w, 0);
    assert JobAt(t, w) == Listed(t, JobIn(groups, w, 0));
  }

  lemma FireStartsDrain(c: Config, s: State)
    requires ValidConfig(c) && Inv(c, s) && s.handler.Asleep? && ListPending(s.rows, c.batch) != []
    ensures DrainOk(c, s.(armed := false, handler := StartDrain(GroupsOf(s.rows, c.batch))))
  {
    var groups := GroupsOf(s.rows, c.batch);
    var t := s.(armed := false, handler := StartDrain(groups));
    NewGroupsOk(s.rows, c.batch);
    NewGroupsComplete(s.rows, s.logs, c.batch);
    NewWorkersOk(groups);
    forall g, q | Within(groups, g, q) ensures Waiting(c, groups[g][q], Listed(t, JobIn(groups, g, q))) {
      NewPlaceWaits(c, s, t, g, q);
    }
    forall w | IsAt(t.handler, w) ensures InHand(c, SnapAt(t, w), JobAt(t, w)) {
      NewHandWaits(c, s, t, w);
    }
  }

  lemma FireKeepsInv(c: Config, s: State)
    requires ValidConfig(c) && Inv(c, s) && Consistent(s) && Apply(c, s, Fire).Some?
    ensures Inv(c, Apply(c, s, Fire).value)
  {
    if ListPending(s.rows, c.batch) != [] {
      FireStartsDrain(c, s);
    } else {
      forall i | 0 <= i < |s.rows| ensures s.rows[i].status != Pending {
        if s.rows[i].status == Pending { ListIsOldestFirst(s.rows, 0, c.batch, i); }
      }
    }
  }
}

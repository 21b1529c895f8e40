/** What the lane scheduler promises, for every run: any interleaving of
    dispatches and turn ends, any number of slots. */
module LaneTheorems {
  import opened QueueMerge
  import opened LaneModel

  /** Slots are counted exactly and never exceeded; ready lists each idle lane
      once and nothing else; a lane waits only while all slots are taken. */
  lemma SlotInvariant(es: seq<Event>, cap: nat)
    requires ValidRun(EMPTY, es, cap)
    ensures var s := After(EMPTY, es, cap);
      && s.runningLanes == |RunningKeys(s)| <= cap
      && (forall i, j | 0 <= i < j < |s.ready| :: s.ready[i] != s.ready[j])
      && (forall k :: k in s.ready <==> k in s.lanes && !s.lanes[k].running)
      && (forall k | k in s.ready :: s.lanes[k].queue != [])
      && (s.ready != [] ==> s.runningLanes == cap)
  {
    Reached(es, cap);
    var s := After(EMPTY, es, cap);
    forall k | k in s.ready ensures s.lanes[k].queue != [] { assert LaneOK(s, k); }
  }

  lemma Reached(es: seq<Event>, cap: nat)
    requires ValidRun(EMPTY, es, cap)
    ensures Inv(After(EMPTY, es, cap), cap)
  {
    EmptyInv(cap);
    AfterInv(EMPTY, es, cap);
  }

  /** The turn's end frees its lane (as opposed to going on in the same slot). */
  ghost predicate Frees(s: State, w: nat) {
    && w in s.live && w < |s.turns| && s.turns[w].key in s.lanes
    && Remaining(s, w) == []
    && (s.lanes[s.turns[w].key].interactive ==> s.lanes[s.turns[w].key].inFlight == 1)
  }

  lemma ScheduleOne(s: State, cap: nat)
    requires Core(s, cap, {}) && s.ready != [] && s.runningLanes == cap - 1
    ensures s.ready[0] in s.lanes && s.lanes[s.ready[0]].queue != []
    ensures Schedule(s, cap) == StartHead(s.(ready := s.ready[1..]), s.ready[0])
  {
    PopReadyCore(s, cap);
    assert LaneOK(s, s.ready[0]);
  }

  lemma FreedLane(s: State, w: nat, cap: nat)
    requires Inv(s, cap) && Frees(s, w)
    ensures Core(Free(s, w), cap, {}) && Finish(s, w, cap) == Schedule(Free(s, w), cap)
  {
    assert LaneOK(s, s.turns[w].key);
    assert w in LiveOf(s, s.turns[w].key);
    LastTurn(s, w);
    FreeCore(s, w, cap);
  }

  lemma FreedLaneStarts(s: State, w: nat, cap: nat)
    requires Inv(s, cap) && Frees(s, w) && s.ready != []
    ensures var h := s.ready[0];
      && h in s.lanes && s.lanes[h].queue != [] && h != s.turns[w].key
      && Finish(s, w, cap) == StartHead(Free(s, w).(ready := s.ready[1..]), h)
  {
    FreedLane(s, w, cap);
    ScheduleOne(Free(s, w), cap);
  }

  /** A freed slot goes to the lane that waited longest, and to that one only:
      scheduleLocked pops one entry and that entry is never stale. */
  lemma FreedSlotHandedOver(es: seq<Event>, w: nat, cap: nat)
    requires ValidRun(EMPTY, es, cap)
    requires var s := After(EMPTY, es, cap); Frees(s, w) && s.ready != []
    ensures var s := After(EMPTY, es, cap);
      var s2, h := Finish(s, w, cap), s.ready[0];
      && h in s.lanes && s.lanes[h].queue != []
      && s2.ready == s.ready[1..] && s2.runningLanes == s.runningLanes
      && s2.lanes.Keys == s.lanes.Keys - {s.turns[w].key} && h in s2.lanes && s2.lanes[h].running
      && s2.turns == s.turns + [Turn(h, s.lanes[h].queue[0], true)]
  {
    var s := After(EMPTY, es, cap);
    assert Inv(s, cap) by { Reached(es, cap); }
    FreedLaneStarts(s, w, cap);
  }

  /** scheduleLocked never meets a stale entry on the way. */
  ghost predicate NoStale(s: State, cap: nat)
    decreases |s.ready|
  {
    s.runningLanes < cap && s.ready != [] ==>
      var key := s.ready[0];
      && key in s.lanes && !s.lanes[key].running && s.lanes[key].queue != []
      && NoStale(StartHead(s.(ready := s.ready[1..]), key), cap)
  }

  lemma {:induction false} NoStaleFrom(s: State, cap: nat)
    requires Core(s, cap, {})
    ensures NoStale(s, cap)
    decreases |s.ready|
  {
    if s.runningLanes < cap && s.ready != [] {
      PopReadyCore(s, cap);
      var s1 := s.(ready := s.ready[1..]);
      StartHeadCore(s1, s.ready[0], cap);
      NoStaleFrom(StartHead(s1, s.ready[0]), cap);
    }
  }

  lemma StaleSkipNeverTaken(es: seq<Event>, w: nat, cap: nat)
    requires ValidRun(EMPTY, es, cap) && Frees(After(EMPTY, es, cap), w)
    ensures NoStale(Free(After(EMPTY, es, cap), w), cap)
  {
    Reached(es, cap);
    FreedLane(After(EMPTY, es, cap), w, cap);
    NoStaleFrom(Free(After(EMPTY, es, cap), w), cap);
  }

  /** A running normal lane has one turn in flight and it is its queue's head. */
  lemma NormalLaneSerial(es: seq<Event>, cap: nat, k: Key)
    requires ValidRun(EMPTY, es, cap)
    requires var s := After(EMPTY, es, cap); k in s.lanes && !s.lanes[k].interactive && s.lanes[k].running
    ensures var s := After(EMPTY, es, cap);
      && s.lanes[k].inFlight == 1 && s.lanes[k].queue != []
      && exists w :: LiveOf(s, k) == {w} && s.turns[w] == Turn(k, s.lanes[k].queue[0], true)
  {
    Reached(es, cap);
    var s := After(EMPTY, es, cap);
    assert LaneOK(s, k);
    var w :| w in LiveOf(s, k);
    assert LiveOf(s, k) == {w} by { assert forall v | v in LiveOf(s, k) :: v == w; }
  }

  /** An interactive lane counts its turns in flight; at most one came from the
      queue and that one is the head. */
  lemma InteractiveLaneCounts(es: seq<Event>, cap: nat, k: Key)
    requires ValidRun(EMPTY, es, cap)
    requires var s := After(EMPTY, es, cap); k in s.lanes && s.lanes[k].interactive
    ensures var s := After(EMPTY, es, cap);
      && s.lanes[k].inFlight == |LiveOf(s, k)|
      && (s.lanes[k].running <==> s.lanes[k].inFlight > 0)
      && (forall v, w | v in LiveOf(s, k) && w in LiveOf(s, k) && s.turns[v].queued && s.turns[w].queued :: v == w)
      && (forall w | w in LiveOf(s, k) && s.turns[w].queued ::
            s.lanes[k].queue != [] && s.turns[w].msgs == s.lanes[k].queue[0])
  {
    Reached(es, cap);
    assert LaneOK(After(EMPTY, es, cap), k);
  }

  /** While an interactive lane runs, a new message never touches its queue. */
  lemma InteractiveArrival(s: State, msg: QueuedMsg, i: bool, cap: nat, k: Key)
    requires k in s.lanes && s.lanes[k].interactive && s.lanes[k].running
    ensures var s2 := Dispatch(s, msg, i, cap);
      k in s2.lanes && s2.lanes[k].running && s2.lanes[k].queue == s.lanes[k].queue
  {
    if msg.QueueKey() != k { EnqueueKeepsOther(s, msg, i, cap, k); }
  }

  lemma FinishOwnLane(s: State, w: nat, cap: nat)
    requires w < |s.turns| && s.turns[w].key in s.lanes && s.lanes[s.turns[w].key].interactive
    requires s.lanes[s.turns[w].key].running && s.lanes[s.turns[w].key].inFlight >= 1
    ensures var s2, k := Finish(s, w, cap), s.turns[w].key;
      if s.lanes[k].inFlight == 1 && Remaining(s, w) == [] then k !in s2.lanes
      else k in s2.lanes && s2.lanes[k].running && s2.lanes[k].queue == Remaining(s, w)
  {
    ScheduleKeepsRunning(Free(s, w), cap);
  }

  lemma FinishOtherLane(s: State, w: nat, cap: nat, k: Key)
    requires w < |s.turns| && s.turns[w].key != k && k in s.lanes && s.lanes[k].running
    ensures var s2 := Finish(s, w, cap); k in s2.lanes && s2.lanes[k] == s.lanes[k]
  {
    ScheduleKeepsRunning(Free(s, w), cap);
  }

  /** The end of a queue-born turn takes the head of its interactive lane's
      queue, the end of any other turn takes nothing, and the lane goes away
      only with the last turn in flight and an empty queue. */
  lemma InteractiveEnd(s: State, w: nat, cap: nat, k: Key)
    requires Inv(s, cap) && w in s.live && w < |s.turns|
    requires k in s.lanes && s.lanes[k].interactive && s.lanes[k].running
    ensures s.turns[w].key == k && s.turns[w].queued ==> s.lanes[k].queue != []
    ensures var s2, t := Finish(s, w, cap), s.turns[w];
      if t.key == k && s.lanes[k].inFlight == 1 && Remaining(s, w) == [] then k !in s2.lanes
      else (
        && k in s2.lanes && s2.lanes[k].running
        && s2.lanes[k].queue == if t.key == k && t.queued then s.lanes[k].queue[1..] else s.lanes[k].queue)
  {
    if s.turns[w].key == k {
      assert s.lanes[k].inFlight >= 1 && (s.turns[w].queued ==> s.lanes[k].queue != []) by {
        assert LaneOK(s, k) && w in LiveOf(s, k);
      }
      FinishOwnLane(s, w, cap);
    } else {
      FinishOtherLane(s, w, cap, k);
    }
  }

  lemma EnqueueKeepsOther(s: State, msg: QueuedMsg, i: bool, cap: nat, k: Key)
    requires msg.QueueKey() != k && k in s.lanes
    ensures k in Dispatch(s, msg, i, cap).lanes && Dispatch(s, msg, i, cap).lanes[k] == s.lanes[k]
  {}

  lemma {:induction false} ScheduleKeepsRunning(s: State, cap: nat)
    ensures Schedule(s, cap).lanes.Keys == s.lanes.Keys
    ensures forall k | k in s.lanes && s.lanes[k].running :: Schedule(s, cap).lanes[k] == s.lanes[k]
    decreases |s.ready|
  {
    if s.runningLanes < cap && s.ready != [] {
      var s1 := s.(ready := s.ready[1..]);
      if s.ready[0] !in s.lanes || s.lanes[s.ready[0]].running || s.lanes[s.ready[0]].queue == [] {
        ScheduleKeepsRunning(s1, cap);
      } else {
        ScheduleKeepsRunning(StartHead(s1, s.ready[0]), cap);
      }
    }
  }

  /** What the end of turn w means, in every reachable state. While others of its
      lane are in flight nothing is started and what waits goes on waiting. The last
      one out of a lane with nothing waiting takes the lane with it. Otherwise the
      lane goes on in the same slot with one new turn that takes the front of what
      waits: one message on an interactive lane, the merged run on a normal one. */
  lemma TurnEndOutcome(es: seq<Event>, w: nat, cap: nat)
    requires ValidRun(EMPTY, es, cap) && w in After(EMPTY, es, cap).live
    ensures var s := After(EMPTY, es, cap);
      w < |s.turns| && s.turns[w].key in s.lanes && Outcome(s, Finish(s, w, cap), w)
  {
    Reached(es, cap);
    EndOutcome(After(EMPTY, es, cap), w, cap);
  }

  ghost predicate Outcome(s: State, z: State, w: nat)
    requires w < |s.turns| && s.turns[w].key in s.lanes
  {
    var k := s.turns[w].key;
    if LiveOf(s, k) != {w} then
      && z.turns == s.turns && z.runningLanes == s.runningLanes && z.ready == s.ready
      && LiveOf(z, k) == LiveOf(s, k) - {w} && Waiting(z, k) == Waiting(s, k)
    else if Waiting(s, k) == [] then k !in z.lanes && LiveOf(z, k) == {}
    else
      && z.runningLanes == s.runningLanes && z.ready == s.ready
      && |z.turns| == |s.turns| + 1 && LiveOf(z, k) == {|s.turns|} && TakesFront(s, z, k)
  }

  /** The new turn of k carries the front of what waited, the rest goes on waiting. */
  ghost predicate TakesFront(s: State, z: State, k: Key)
    requires |z.turns| == |s.turns| + 1 && k in s.lanes
  {
    var t := z.turns[|s.turns|];
    && t.key == k && t.queued
    && Waiting(s, k) == t.msgs + Waiting(z, k)
    && (if s.lanes[k].interactive then |t.msgs| == 1 else IsHeadRun(Waiting(s, k), |t.msgs|))
  }

  lemma EndOutcome(s: State, w: nat, cap: nat)
    requires Inv(s, cap) && w in s.live
    ensures w < |s.turns| && s.turns[w].key in s.lanes
    ensures Outcome(s, Finish(s, w, cap), w)
  {
    var k := s.turns[w].key;
    assert LaneOK(s, k) && w in LiveOf(s, k);
    assert Ending(s, w);
    if s.lanes[k].interactive && s.lanes[k].inFlight > 1 {
      assert LiveOf(s, k) != {w};
      LeaveOutcome(s, w);
    } else {
      LastTurn(s, w);
      RemainingSingles(s, w);
      if Remaining(s, w) == [] {
        FreeOutcome(s, w, cap);
      } else if s.lanes[k].interactive {
        ChainOutcome(s, w, Remaining(s, w));
        FlattenSingle(Remaining(s, w));
      } else {
        var m := MergeGroups(Remaining(s, w));
        MergeGroupsFlatten(Remaining(s, w));
        ChainOutcome(s, w, m);
        MergedRun(Remaining(s, w));
      }
    }
  }

  lemma RemainingSingles(s: State, w: nat)
    requires Ending(s, w)
    ensures forall i | 0 <= i < |Remaining(s, w)| :: |Remaining(s, w)[i]| == 1
  {
    var k := s.turns[w].key;
    assert w in LiveOf(s, k);
    var q, r := s.lanes[k].queue, Remaining(s, w);
    if r != q { assert forall i | 0 <= i < |r| :: r[i] == q[i + 1]; }
  }

  lemma LeaveOutcome(s: State, w: nat)
    requires Ending(s, w) && s.lanes[s.turns[w].key].interactive && s.lanes[s.turns[w].key].inFlight > 1
    ensures var k, z := s.turns[w].key, Leave(s, w);
      LiveOf(z, k) == LiveOf(s, k) - {w} && Waiting(z, k) == Waiting(s, k)
  {
    assert w in LiveOf(s, s.turns[w].key);
    LeaveLane(s, w);
  }

  lemma FreeOutcome(s: State, w: nat, cap: nat)
    requires Inv(s, cap) && Ending(s, w) && LiveOf(s, s.turns[w].key) == {w} && Waiting(s, s.turns[w].key) == []
    ensures var k, z := s.turns[w].key, Schedule(Free(s, w), cap); k !in z.lanes && LiveOf(z, k) == {}
  {
    var k, z := s.turns[w].key, Schedule(Free(s, w), cap);
    FreeCore(s, w, cap);
    ScheduleInv(Free(s, w), cap);
    ScheduleKeepsRunning(Free(s, w), cap);
    assert forall v | v in z.live :: z.turns[v].key in z.lanes;
  }

  lemma ChainOutcome(s: State, w: nat, q: seq<Group>)
    requires Ending(s, w) && LiveOf(s, s.turns[w].key) == {w} && q != []
    requires Waiting(s, s.turns[w].key) == Flatten(q)
    ensures var k, z := s.turns[w].key, Chain(s, w, q);
      && |z.turns| == |s.turns| + 1 && z.turns[|s.turns|] == Turn(k, q[0], true)
      && LiveOf(z, k) == {|s.turns|} && Waiting(z, k) == Flatten(q[1..]) && Waiting(s, k) == q[0] + Waiting(z, k)
  {
    var k, z, n := s.turns[w].key, Chain(s, w, q), |s.turns|;
    forall v | v in LiveOf(z, k) ensures v == n { assert v != n ==> v in LiveOf(s, k); }
    assert n in LiveOf(z, k);
    assert HeadBusy(z, k);
  }

  lemma FlattenSingle(gs: seq<Group>)
    requires gs != [] && |gs[0]| == 1
    ensures Flatten(gs) == gs[0] + Flatten(gs[1..])
  {}

  /** Merging groups of one message each takes the head run of the messages. */
  lemma MergedRun(gs: seq<Group>)
    requires gs != [] && forall i | 0 <= i < |gs| :: |gs[i]| == 1
    ensures IsHeadRun(Flatten(gs), |MergeGroups(gs)[0]|)
  {
    var n := HeadRun(Folded(gs));
    FlattenSingles(gs);
    FlattenSingles(gs[..n]);
    assert |Folded(gs[..n])| == n;
  }

  /** First in, first out, across merging and across lanes deleted and made
      again: what was started from k's queue, followed by what still waits, is
      what was dispatched to it in order, steered messages aside. */
  lemma QueueFifo(es: seq<Event>, cap: nat, k: Key)
    requires ValidRun(EMPTY, es, cap)
    ensures var s := After(EMPTY, es, cap);
      && Arrived(s.arrivals, k, false) == Begun(s.turns, k, true) + Waiting(s, k)
      && Begun(s.turns, k, true) <= Arrived(s.arrivals, k, false)
      && Begun(s.turns, k, false) == Arrived(s.arrivals, k, true)
  {
    Reached(es, cap);
    assert Account(After(EMPTY, es, cap), k);
  }

  // ------------------------------------------------------------ exactly once

  function Sent(xs: seq<Arrival>): seq<QueuedMsg> {
    if xs == [] then [] else Sent(xs[..|xs| - 1]) + [xs[|xs| - 1].msg]
  }

  /** The messages of the turns in flight (flying) or of those that ended. */
  function Pick(ts: seq<Turn>, live: set<nat>, flying: bool): seq<QueuedMsg> {
    if ts == [] then []
    else
      var n := |ts| - 1;
      Pick(ts[..n], live, flying) + if (n in live) == flying then ts[n].msgs else []
  }

  function Ended(s: State): seq<QueuedMsg> { Pick(s.turns, s.live, false) }
  function Flying(s: State): seq<QueuedMsg> { Pick(s.turns, s.live, true) }

  lemma {:induction false} SentSplit(xs: seq<Arrival>, m: QueuedMsg)
    ensures multiset(Sent(xs))[m]
         == multiset(Arrived(xs, m.QueueKey(), false))[m] + multiset(Arrived(xs, m.QueueKey(), true))[m]
  {
    if xs != [] {
      SentSplit(xs[..|xs| - 1], m);
    }
  }

  lemma {:induction false} TurnsSplit(ts: seq<Turn>, live: set<nat>, m: QueuedMsg)
    requires forall i | 0 <= i < |ts| :: Plain(ts[i].key, ts[i].msgs)
    ensures multiset(Pick(ts, live, true))[m] + multiset(Pick(ts, live, false))[m]
         == multiset(Begun(ts, m.QueueKey(), true))[m] + multiset(Begun(ts, m.QueueKey(), false))[m]
  {
    if ts != [] {
      var n := |ts| - 1;
      TurnsSplit(ts[..n], live, m);
      assert Plain(ts[n].key, ts[n].msgs);
      assert ts[n].key != m.QueueKey() ==> m !in ts[n].msgs;
    }
  }

  ghost predicate Once(s: State, m: QueuedMsg) {
    multiset(Sent(s.arrivals))[m]
      == multiset(Ended(s))[m] + multiset(Flying(s))[m] + multiset(Waiting(s, m.QueueKey()))[m]
  }

  lemma OnceOf(s: State, cap: nat, m: QueuedMsg)
    requires Inv(s, cap)
    ensures Once(s, m)
  {
    var k := m.QueueKey();
    assert Account(s, k);
    SentSplit(s.arrivals, m);
    TurnsSplit(s.turns, s.live, m);
  }

  /** Every message dispatched is finished, in flight or waiting: as many times
      as it was dispatched, and in one of the three places each time. */
  lemma ExactlyOnce(es: seq<Event>, cap: nat, m: QueuedMsg)
    requires ValidRun(EMPTY, es, cap)
    ensures Once(After(EMPTY, es, cap), m)
  {
    Reached(es, cap);
    OnceOf(After(EMPTY, es, cap), cap, m);
  }

  /** An entry never merges messages that were merged before, so the count a
      turn announces is the number of messages it carries. */
  lemma MergedCountHonest(es: seq<Event>, cap: nat, i: nat)
    requires ValidRun(EMPTY, es, cap)
    requires i < |After(EMPTY, es, cap).turns|
    ensures var t := After(EMPTY, es, cap).turns[i]; Carried(Fold(t.msgs)) == |t.msgs|
  {
    Reached(es, cap);
    var s := After(EMPTY, es, cap);
    var g := s.turns[i].msgs;
    assert Plain(s.turns[i].key, g);
    assert g[0] in g;
  }

  // ------------------------------------------------------------------- drain

  /** Messages not finished yet. */
  function Work(s: State): int {
    |s.arrivals| - |Ended(s)|
  }

  lemma {:induction false} SentLength(xs: seq<Arrival>)
    ensures |Sent(xs)| == |xs|
  {
    if xs != [] { SentLength(xs[..|xs| - 1]); }
  }

  lemma SubMultiset<T>(a: multiset<T>, b: multiset<T>)
    requires forall x :: a[x] <= b[x]
    ensures |a| <= |b|
  {
    assert b == a + (b - a);
  }

  lemma WorkNatural(s: State, cap: nat)
    requires Inv(s, cap)
    ensures Work(s) >= 0
  {
    forall m ensures multiset(Ended(s))[m] <= multiset(Sent(s.arrivals))[m] { OnceOf(s, cap, m); }
    SubMultiset(multiset(Ended(s)), multiset(Sent(s.arrivals)));
    SentLength(s.arrivals);
  }

  lemma {:induction false} PickDrop(ts: seq<Turn>, live: set<nat>, w: nat)
    requires w in live
    ensures |Pick(ts, live - {w}, false)| == |Pick(ts, live, false)| + if w < |ts| then |ts[w].msgs| else 0
  {
    if ts != [] { PickDrop(ts[..|ts| - 1], live, w); }
  }

  lemma {:induction false} PickIgnores(ts: seq<Turn>, live: set<nat>, n: nat)
    requires n >= |ts|
    ensures Pick(ts, live + {n}, false) == Pick(ts, live, false)
  {
    if ts != [] { PickIgnores(ts[..|ts| - 1], live, n); }
  }

  lemma PickLaunch(ts: seq<Turn>, live: set<nat>, t: Turn)
    ensures Pick(ts + [t], live + {|ts|}, false) == Pick(ts, live, false)
  {
    assert (ts + [t])[..|ts|] == ts;
    assert Pick(ts + [t], live + {|ts|}, false) == Pick(ts, live + {|ts|}, false) + [];
    PickIgnores(ts, live, |ts|);
  }

  lemma LaunchEnds(s: State, t: Turn)
    ensures Ended(Launch(s, t)) == Ended(s)
  {
    PickLaunch(s.turns, s.live, t);
  }

  lemma {:induction false} ScheduleEnds(s: State, cap: nat)
    ensures Ended(Schedule(s, cap)) == Ended(s) && Schedule(s, cap).arrivals == s.arrivals
    decreases |s.ready|
  {
    if s.runningLanes < cap && s.ready != [] {
      var key, s1 := s.ready[0], s.(ready := s.ready[1..]);
      if key !in s.lanes || s.lanes[key].running || s.lanes[key].queue == [] {
        ScheduleEnds(s1, cap);
      } else {
        var l := s.lanes[key];
        LaunchEnds(s1.(lanes := s.lanes[key := l.(running := true, inFlight := 1)], runningLanes := s.runningLanes + 1),
                   Turn(key, l.queue[0], true));
        ScheduleEnds(StartHead(s1, key), cap);
      }
    }
  }

  lemma ChainEnds(s: State, w: nat, q: seq<Group>)
    requires w < |s.turns| && s.turns[w].key in s.lanes && q != []
    ensures Ended(Chain(s, w, q)) == Pick(s.turns, s.live - {w}, false)
  {
    PickLaunch(s.turns, s.live - {w}, Turn(s.turns[w].key, q[0], true));
  }

  /** The end of a turn finishes exactly the messages it carried. */
  lemma FinishProgress(s: State, w: nat, cap: nat)
    requires w in s.live && w < |s.turns|
    ensures Work(Finish(s, w, cap)) == Work(s) - |s.turns[w].msgs|
  {
    PickDrop(s.turns, s.live, w);
    if s.turns[w].key in s.lanes {
      var l, q := s.lanes[s.turns[w].key], Remaining(s, w);
      if l.interactive && l.inFlight > 1 {
        assert Ended(Leave(s, w)) == Pick(s.turns, s.live - {w}, false);
      } else if q == [] {
        ScheduleEnds(Free(s, w), cap);
      } else {
        ChainEnds(s, w, if l.interactive then q else MergeGroups(q));
      }
    }
  }

  /** Nothing in flight means nothing left: no lane, no ready entry, no slot
      held, and every message dispatched is finished. */
  lemma Quiescent(s: State, cap: nat)
    requires Inv(s, cap) && cap >= 1 && s.live == {}
    ensures s.lanes == map[] && s.ready == [] && s.runningLanes == 0
    ensures multiset(Ended(s)) == multiset(Sent(s.arrivals))
  {
    forall k | k in s.lanes ensures !s.lanes[k].running { assert LaneOK(s, k); assert LiveOf(s, k) == {}; }
    assert RunningKeys(s) == {};
    forall k ensures k !in s.lanes { assert k in s.lanes ==> k in s.ready; }
    assert s.ready == [];
    forall m ensures multiset(Ended(s))[m] == multiset(Sent(s.arrivals))[m] {
      OnceOf(s, cap, m);
      NoneFlying(s.turns, m);
    }
  }

  lemma {:induction false} NoneFlying(ts: seq<Turn>, m: QueuedMsg)
    ensures Pick(ts, {}, true) == []
  {
    if ts != [] { NoneFlying(ts[..|ts| - 1], m); }
  }

  ghost predicate OnlyEnds(es: seq<Event>) {
    forall i | 0 <= i < |es| :: es[i].End?
  }

  /** Without new messages the bot stops: no run of turn ends is longer than the
      work left. */
  lemma {:induction false} DrainBound(s: State, es: seq<Event>, cap: nat)
    requires Inv(s, cap) && ValidRun(s, es, cap) && OnlyEnds(es)
    ensures |es| <= Work(s)
    decreases |es|
  {
    if es == [] {
      WorkNatural(s, cap);
    } else {
      var w := es[0].w;
      EndStep(s, w, cap);
      OnlyEndsTail(es);
      DrainBound(Finish(s, w, cap), es[1..], cap);
    }
  }

  lemma OnlyEndsTail(es: seq<Event>)
    requires OnlyEnds(es) && es != []
    ensures OnlyEnds(es[1..])
  {
    assert forall i | 0 <= i < |es| - 1 :: es[1..][i] == es[i + 1];
  }

  lemma FinishArrivals(s: State, w: nat, cap: nat)
    requires w < |s.turns|
    ensures Finish(s, w, cap).arrivals == s.arrivals
  {
    ScheduleEnds(Free(s, w), cap);
  }

  lemma EndStep(s: State, w: nat, cap: nat)
    requires Inv(s, cap) && w in s.live
    ensures Enabled(s, End(w)) && Inv(Finish(s, w, cap), cap)
    ensures 0 <= Work(Finish(s, w, cap)) < Work(s)
  {
    FinishInv(s, w, cap);
    FinishProgress(s, w, cap);
    WorkNatural(Finish(s, w, cap), cap);
  }

  /** From every reachable state some sequence of turn ends leads to a bot with
      no turn in flight. */
  lemma {:induction false} Drains(s: State, cap: nat) returns (es: seq<Event>)
    requires Inv(s, cap)
    ensures OnlyEnds(es) && ValidRun(s, es, cap) && After(s, es, cap).live == {}
    decreases Work(s)
  {
    es := [];
    if s.live != {} {
      var w :| w in s.live;
      EndStep(s, w, cap);
      var rest := Drains(Finish(s, w, cap), cap);
      es := [End(w)] + rest;
      DrainsCons(s, w, rest, cap);
    }
  }

  lemma DrainsCons(s: State, w: nat, rest: seq<Event>, cap: nat)
    requires Enabled(s, End(w)) && OnlyEnds(rest) && ValidRun(Finish(s, w, cap), rest, cap)
    ensures var es := [End(w)] + rest;
      OnlyEnds(es) && ValidRun(s, es, cap) && After(s, es, cap) == After(Finish(s, w, cap), rest, cap)
  {
    var es := [End(w)] + rest;
    assert es[1..] == rest && es[0] == End(w) && Step(s, es[0], cap) == Finish(s, w, cap);
  }

  lemma {:induction false} EndsKeepArrivals(s: State, es: seq<Event>, cap: nat)
    requires ValidRun(s, es, cap) && OnlyEnds(es)
    ensures After(s, es, cap).arrivals == s.arrivals
    decreases |es|
  {
    if es != [] {
      FinishArrivals(s, es[0].w, cap);
      assert OnlyEnds(es[1..]);
      EndsKeepArrivals(Step(s, es[0], cap), es[1..], cap);
    }
  }

  /** However the turns of a run come to an end once messages stop arriving:
      when none is in flight the bot is empty and all its messages are finished. */
  lemma DrainedIsEmpty(es: seq<Event>, ends: seq<Event>, cap: nat)
    requires cap >= 1 && ValidRun(EMPTY, es, cap) && ValidRun(After(EMPTY, es, cap), ends, cap) && OnlyEnds(ends)
    requires After(After(EMPTY, es, cap), ends, cap).live == {}
    ensures var s, z := After(EMPTY, es, cap), After(After(EMPTY, es, cap), ends, cap);
      && z.lanes == map[] && z.ready == [] && z.runningLanes == 0
      && multiset(Ended(z)) == multiset(Sent(s.arrivals))
  {
    Reached(es, cap);
    AfterInv(After(EMPTY, es, cap), ends, cap);
    Quiescent(After(After(EMPTY, es, cap), ends, cap), cap);
    EndsKeepArrivals(After(EMPTY, es, cap), ends, cap);
  }
}

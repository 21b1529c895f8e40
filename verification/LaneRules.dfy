/** host/bot.go and host/queuemerge.go: who is steered in and who waits, and which
    messages may share a turn, over every run of the scheduler and told from its events
    alone. */
module LaneRules {
  import opened GoText
  import opened QueueMerge
  import opened LaneModel
  import opened LaneTheorems

  // ------------------------------------------------------------ who is steered in

  /** Nothing of k is in flight or waiting. */
  ghost predicate Quiet(s: State, k: Key) { LiveOf(s, k) == {} && Waiting(s, k) == [] }

  /** Whether there is a lane, and whether it runs, seen from outside. */
  lemma LaneSeen(s: State, cap: nat, k: Key)
    requires Inv(s, cap)
    ensures k in s.lanes <==> !Quiet(s, k)
    ensures k in s.lanes && s.lanes[k].running <==> LiveOf(s, k) != {}
  {
    if k in s.lanes {
      assert LaneOK(s, k);
    } else {
      assert LiveOf(s, k) == {};
    }
  }

  /** What IsInteractive answered for the message that made k's lane: the latest one
      that came while k was quiet; m is what it answered before es. */
  ghost function Maker(s: State, es: seq<Event>, cap: nat, k: Key, m: Option<bool>): Option<bool>
    requires ValidRun(s, es, cap)
    decreases |es|
  {
    if es == [] then m
    else
      var e := es[0];
      Maker(Step(s, e, cap), es[1..], cap, k,
            if e.Arrive? && e.msg.QueueKey() == k && Quiet(s, k) then Some(e.interactive) else m)
  }

  /** k's lane, if there is one, is of the kind m says. */
  ghost predicate MadeBy(s: State, k: Key, m: Option<bool>) {
    k in s.lanes ==> m == Some(s.lanes[k].interactive)
  }

  lemma ArriveMade(s: State, msg: QueuedMsg, i: bool, cap: nat, k: Key, m: Option<bool>)
    requires Inv(s, cap) && MadeBy(s, k, m)
    ensures MadeBy(Dispatch(s, msg, i, cap), k, if msg.QueueKey() == k && Quiet(s, k) then Some(i) else m)
  {
    LaneSeen(s, cap, k);
    if msg.QueueKey() != k && k in s.lanes { EnqueueKeepsOther(s, msg, i, cap, k); }
  }

  lemma {:induction false} ScheduleKeepsKind(s: State, cap: nat)
    ensures Schedule(s, cap).lanes.Keys == s.lanes.Keys
    ensures forall k | k in s.lanes :: Schedule(s, cap).lanes[k].interactive == s.lanes[k].interactive
    decreases |s.ready|
  {
    if s.runningLanes < cap && s.ready != [] {
      var s1 := s.(ready := s.ready[1..]);
      if s.ready[0] !in s.lanes || s.lanes[s.ready[0]].running || s.lanes[s.ready[0]].queue == [] {
        ScheduleKeepsKind(s1, cap);
      } else {
        ScheduleKeepsKind(StartHead(s1, s.ready[0]), cap);
      }
    }
  }

  lemma EndMade(s: State, w: nat, cap: nat, k: Key, m: Option<bool>)
    requires w < |s.turns| && MadeBy(s, k, m)
    ensures MadeBy(Finish(s, w, cap), k, m)
  {
    ScheduleKeepsKind(Free(s, w), cap);
  }

  lemma {:induction false} MadeAfter(s: State, es: seq<Event>, cap: nat, k: Key, m: Option<bool>)
    requires Inv(s, cap) && ValidRun(s, es, cap) && MadeBy(s, k, m)
    ensures MadeBy(After(s, es, cap), k, Maker(s, es, cap, k, m))
    decreases |es|
  {
    if es != [] {
      StepInv(s, es[0], cap);
      match es[0] {
        case Arrive(msg, i) =>
          ArriveMade(s, msg, i, cap, k, m);
          MadeAfter(Step(s, es[0], cap), es[1..], cap, k, if msg.QueueKey() == k && Quiet(s, k) then Some(i) else m);
        case End(w) =>
          EndMade(s, w, cap, k, m);
          MadeAfter(Step(s, es[0], cap), es[1..], cap, k, m);
      }
    }
  }

  /** What a message does that comes to k's lane; interactive: of what kind it is. */
  ghost predicate Came(s: State, z: State, msg: QueuedMsg, interactive: bool, cap: nat) {
    var k := msg.QueueKey();
    if LiveOf(s, k) != {} && interactive then
      && z.turns == s.turns + [Turn(k, [msg], false)]
      && LiveOf(z, k) == LiveOf(s, k) + {|s.turns|} && Waiting(z, k) == Waiting(s, k)
    else if Quiet(s, k) && s.runningLanes < cap then
      z.turns == s.turns + [Turn(k, [msg], true)] && LiveOf(z, k) == {|s.turns|} && Waiting(z, k) == []
    else
      z.turns == s.turns && LiveOf(z, k) == LiveOf(s, k) && Waiting(z, k) == Waiting(s, k) + [msg]
  }

  lemma QuietArrival(s: State, msg: QueuedMsg, i: bool, cap: nat)
    requires Inv(s, cap) && msg.QueueKey() !in s.lanes
    ensures Came(s, Dispatch(s, msg, i, cap), msg, i, cap)
  {
    var k, e := msg.QueueKey(), Enqueue(s, msg, i);
    LaneSeen(s, cap, k);
    EnqueueWaiting(s, msg, i);
    assert LiveOf(e, k) == {} && e.lanes[k].queue == [[msg]] && [] + [msg] == [msg];
    if s.runningLanes < cap {
      var z, n := StartHead(e, k), |s.turns|;
      forall w | w in LiveOf(z, k) ensures w == n { assert w != n ==> w in LiveOf(e, k); }
      assert n in LiveOf(z, k) && HeadBusy(z, k) && Flatten([]) == [];
    } else {
      var z := e.(ready := e.ready + [k]);
      assert LiveOf(z, k) == {} && Waiting(z, k) == Waiting(e, k);
    }
  }

  lemma BusyArrival(s: State, msg: QueuedMsg, i: bool, cap: nat)
    requires Inv(s, cap) && msg.QueueKey() in s.lanes
    ensures Came(s, Dispatch(s, msg, i, cap), msg, s.lanes[msg.QueueKey()].interactive, cap)
  {
    var k := msg.QueueKey();
    LaneSeen(s, cap, k);
    assert LaneOK(s, k);
    if s.lanes[k].running && s.lanes[k].interactive {
      SteerLive(s, msg);
      SteerLane(s, msg);
      SteerWaiting(s, msg);
    } else {
      assert LiveOf(Enqueue(s, msg, i), k) == LiveOf(s, k);
      assert HeadBusy(Enqueue(s, msg, i), k) <==> HeadBusy(s, k);
      EnqueueWaiting(s, msg, i);
    }
  }

  /** In every reachable state: a message joins the turns in flight at once if its lane
      is at work and was made by a message of an interactive conversation; it starts a
      turn if nothing of its lane is in flight or waiting and a slot is free; otherwise
      it waits. */
  lemma ArrivalOutcome(es: seq<Event>, msg: QueuedMsg, i: bool, cap: nat)
    requires ValidRun(EMPTY, es, cap)
    ensures var s, k := After(EMPTY, es, cap), msg.QueueKey();
      var m := Maker(EMPTY, es, cap, k, None);
      && (!Quiet(s, k) ==> m.Some?)
      && Came(s, Dispatch(s, msg, i, cap), msg, if Quiet(s, k) then i else m.value, cap)
  {
    var s, k := After(EMPTY, es, cap), msg.QueueKey();
    Reached(es, cap);
    EmptyInv(cap);
    MadeAfter(EMPTY, es, cap, k, None);
    LaneSeen(s, cap, k);
    if k in s.lanes { BusyArrival(s, msg, i, cap); } else { QuietArrival(s, msg, i, cap); }
  }

  /** All messages of k are of conversations of this kind. */
  predicate AllOf(es: seq<Event>, k: Key, interactive: bool) {
    forall e | e in es && e.Arrive? && e.msg.QueueKey() == k :: e.interactive == interactive
  }

  lemma {:induction false} MakerOf(s: State, es: seq<Event>, cap: nat, k: Key, i: bool, m: Option<bool>)
    requires ValidRun(s, es, cap) && AllOf(es, k, i) && m in {None, Some(i)}
    ensures Maker(s, es, cap, k, m) in {None, Some(i)}
    decreases |es|
  {
    if es != [] {
      var e := es[0];
      assert e in es && forall x | x in es[1..] :: x in es;
      MakerOf(Step(s, e, cap), es[1..], cap, k, i,
              if e.Arrive? && e.msg.QueueKey() == k && Quiet(s, k) then Some(e.interactive) else m);
    }
  }

  lemma KindOf(es: seq<Event>, cap: nat, k: Key, i: bool)
    requires ValidRun(EMPTY, es, cap) && AllOf(es, k, i)
    ensures var s := After(EMPTY, es, cap); k in s.lanes ==> s.lanes[k].interactive == i
  {
    EmptyInv(cap);
    MadeAfter(EMPTY, es, cap, k, None);
    MakerOf(EMPTY, es, cap, k, i, None);
  }

  /** k has had nothing steered in, nor a lane it could be steered into. */
  ghost predicate Unsteered(s: State, k: Key) {
    (k in s.lanes ==> !s.lanes[k].interactive) && Arrived(s.arrivals, k, true) == []
  }

  lemma ArriveUnsteered(s: State, msg: QueuedMsg, i: bool, cap: nat, k: Key)
    requires Inv(s, cap) && Unsteered(s, k) && (msg.QueueKey() == k ==> !i)
    ensures Unsteered(Dispatch(s, msg, i, cap), k)
  {
    ArriveKind(s, msg, i, cap, k);
    DispatchArrivals(s, msg, i, cap);
    var l := LaneFor(s, msg.QueueKey(), i);
    ArrivedSnoc(s.arrivals, Arrival(msg, l.interactive && l.running), k, true);
  }

  lemma ArriveKind(s: State, msg: QueuedMsg, i: bool, cap: nat, k: Key)
    requires Inv(s, cap) && (k in s.lanes ==> !s.lanes[k].interactive) && (msg.QueueKey() == k ==> !i)
    ensures var z := Dispatch(s, msg, i, cap); k in z.lanes ==> !z.lanes[k].interactive
  {
    ArriveMade(s, msg, i, cap, k, if k in s.lanes then Some(false) else None);
  }

  lemma DispatchArrivals(s: State, msg: QueuedMsg, i: bool, cap: nat)
    ensures var l := LaneFor(s, msg.QueueKey(), i);
      Dispatch(s, msg, i, cap).arrivals == s.arrivals + [Arrival(msg, l.interactive && l.running)]
  {}

  lemma EndUnsteered(s: State, w: nat, cap: nat, k: Key)
    requires w < |s.turns| && Unsteered(s, k)
    ensures Unsteered(Finish(s, w, cap), k)
  {
    EndMade(s, w, cap, k, if k in s.lanes then Some(false) else None);
    FinishArrivals(s, w, cap);
  }

  lemma {:induction false} NoneSteered(s: State, es: seq<Event>, cap: nat, k: Key)
    requires Inv(s, cap) && ValidRun(s, es, cap) && AllOf(es, k, false) && Unsteered(s, k)
    ensures Unsteered(After(s, es, cap), k)
    decreases |es|
  {
    if es != [] {
      assert es[0] in es && forall x | x in es[1..] :: x in es;
      StepInv(s, es[0], cap);
      match es[0] {
        case Arrive(msg, i) => ArriveUnsteered(s, msg, i, cap, k);
        case End(w) => EndUnsteered(s, w, cap, k);
      }
      NoneSteered(Step(s, es[0], cap), es[1..], cap, k);
    }
  }

  /** Turns of a conversation that is never interactive do not overlap, and none of its
      messages is steered in. */
  lemma NeverTwoAtOnce(es: seq<Event>, cap: nat, k: Key)
    requires ValidRun(EMPTY, es, cap) && AllOf(es, k, false)
    ensures |LiveOf(After(EMPTY, es, cap), k)| <= 1
    ensures Arrived(After(EMPTY, es, cap).arrivals, k, true) == []
  {
    var s := After(EMPTY, es, cap);
    Reached(es, cap);
    KindOf(es, cap, k, false);
    LaneSeen(s, cap, k);
    if LiveOf(s, k) != {} { NormalLaneSerial(es, cap, k); }
    EmptyInv(cap);
    NoneSteered(EMPTY, es, cap, k);
  }

  /** A message of an interactive conversation at work is one more turn in flight. */
  lemma AlwaysSteered(es: seq<Event>, msg: QueuedMsg, i: bool, cap: nat)
    requires ValidRun(EMPTY, es, cap) && AllOf(es, msg.QueueKey(), true)
    requires LiveOf(After(EMPTY, es, cap), msg.QueueKey()) != {}
    ensures var s, k := After(EMPTY, es, cap), msg.QueueKey();
      var z := Dispatch(s, msg, i, cap);
      z.turns == s.turns + [Turn(k, [msg], false)] && LiveOf(z, k) == LiveOf(s, k) + {|s.turns|}
  {
    ArrivalOutcome(es, msg, i, cap);
    MakerOf(EMPTY, es, cap, msg.QueueKey(), true, None);
  }

  // ---------------------------------------------------- who shares a lane, or a turn

  /** Addressed to the same web topic, or neither to one. */
  predicate SameTopic(t: Target, u: Target) {
    (t.kind == "web" || u.kind == "web") ==> t.kind == u.kind && t.id == u.id
  }

  /** Conversations have lanes of their own: all that is not for a web topic is the
      telegram stream's. A lane key of its own overrides that. */
  lemma OwnLanes(a: QueuedMsg, b: QueuedMsg)
    ensures a.laneKey != "" ==> a.QueueKey() == a.laneKey
    ensures a.laneKey == "" && b.laneKey == "" ==>
      (a.QueueKey() == b.QueueKey() <==> SameTopic(a.Conversation(), b.Conversation()))
    ensures a.target == Some(a.Conversation()) || (a.target == None && a.Conversation().kind != "web")
  {
    var t, u := a.Conversation(), b.Conversation();
    assert ("web:" + t.id)[0] == 'w' && ("web:" + u.id)[0] == 'w' && "telegram"[0] == 't';
    assert ("web:" + t.id)[4..] == t.id && ("web:" + u.id)[4..] == u.id;
  }

  /** From the same chat and origin, and addressed alike. */
  predicate Together(a: QueuedMsg, b: QueuedMsg) {
    && a.chatID == b.chatID && a.origin == b.origin
    && (a.target.None? <==> b.target.None?)
    && (a.target.Some? && b.target.Some? ==> SameTopic(a.target.value, b.target.value))
  }

  /** Not a scheduled task, not to be kept apart, not a command. */
  predicate Ordinary(m: QueuedMsg) {
    !m.isTask && !m.noMerge && FirstInk(m.text) != Some('!')
  }

  lemma CompatibleIff(a: QueuedMsg, b: QueuedMsg)
    requires a.QueueKey() == b.QueueKey()
    ensures MergeCompatible(a, b) <==> Ordinary(a) && Ordinary(b) && Together(a, b)
  {
    MergeableByInk(a);
    MergeableByInk(b);
  }

  /** More than one message: all ordinary, and all together. */
  ghost predicate OneVoice(g: seq<QueuedMsg>) {
    |g| > 1 ==> (forall m | m in g :: Ordinary(m)) && (forall a, b | a in g && b in g :: Together(a, b))
  }

  ghost predicate Voices(s: State) {
    && (forall k, i | k in s.lanes && 0 <= i < |s.lanes[k].queue| :: OneVoice(s.lanes[k].queue[i]))
    && (forall i | 0 <= i < |s.turns| :: OneVoice(s.turns[i].msgs))
  }

  lemma VoiceOf(q: seq<QueuedMsg>, k: Key, n: nat)
    requires IsHeadRun(q, n) && forall m | m in q :: m.QueueKey() == k
    ensures OneVoice(q[..n])
  {
    if n > 1 {
      CompatibleIff(q[0], q[1]);
      forall m | m in q[..n] ensures Ordinary(m) && Together(q[0], m) {
        var i :| 0 <= i < n && q[i] == m;
        if i > 0 { CompatibleIff(q[0], q[i]); }
      }
    }
  }

  lemma StartVoices(s: State, k: Key)
    requires Voices(s) && k in s.lanes && s.lanes[k].queue != []
    ensures Voices(StartHead(s, k))
  {
    var z := StartHead(s, k);
    assert forall j | j in z.lanes :: z.lanes[j].queue == s.lanes[j].queue;
  }

  lemma DispatchVoices(s: State, msg: QueuedMsg, i: bool, cap: nat)
    requires Voices(s)
    ensures Voices(Dispatch(s, msg, i, cap))
  {
    var k, l := msg.QueueKey(), LaneFor(s, msg.QueueKey(), i);
    if l.interactive && l.running {
      var z := Steer(s, msg);
      assert forall j | j in z.lanes :: z.lanes[j].queue == s.lanes[j].queue;
    } else {
      var e := Enqueue(s, msg, i);
      assert forall j | j in e.lanes && j != k :: e.lanes[j] == s.lanes[j];
      assert Voices(e);
      if !e.lanes[k].running && k !in e.ready && e.runningLanes < cap { StartVoices(e, k); }
    }
  }

  lemma {:induction false} ScheduleVoices(s: State, cap: nat)
    requires Voices(s)
    ensures Voices(Schedule(s, cap))
    decreases |s.ready|
  {
    if s.runningLanes < cap && s.ready != [] {
      var s1 := s.(ready := s.ready[1..]);
      if s.ready[0] !in s.lanes || s.lanes[s.ready[0]].running || s.lanes[s.ready[0]].queue == [] {
        ScheduleVoices(s1, cap);
      } else {
        StartVoices(s1, s.ready[0]);
        ScheduleVoices(StartHead(s1, s.ready[0]), cap);
      }
    }
  }

  lemma MergedVoice(gs: seq<Group>, k: Key)
    requires gs != [] && forall i | 0 <= i < |gs| :: |gs[i]| == 1 && Plain(k, gs[i])
    ensures OneVoice(MergeGroups(gs)[0])
  {
    var n := HeadRun(Folded(gs));
    FlattenSingles(gs[..n]);
    assert Folded(gs[..n]) == Folded(gs)[..n];
    forall m | m in Folded(gs) ensures m.QueueKey() == k {
      var i :| 0 <= i < |gs| && Folded(gs)[i] == m;
      assert m in gs[i];
    }
    VoiceOf(Folded(gs), k, n);
  }

  lemma ChainVoices(s: State, w: nat, q: seq<Group>)
    requires Voices(s) && w < |s.turns| && s.turns[w].key in s.lanes && q != []
    requires forall i | 0 <= i < |q| :: OneVoice(q[i])
    ensures Voices(Chain(s, w, q))
  {
    var z := Chain(s, w, q);
    assert forall j | j in z.lanes && j != s.turns[w].key :: z.lanes[j] == s.lanes[j];
  }

  lemma LeaveVoices(s: State, w: nat)
    requires Voices(s) && w < |s.turns| && s.turns[w].key in s.lanes
    ensures Voices(Leave(s, w))
  {
    var z, k := Leave(s, w), s.turns[w].key;
    assert forall j | j in z.lanes && j != k :: z.lanes[j] == s.lanes[j];
    RemainingVoices(s, w);
  }

  lemma RemainingVoices(s: State, w: nat)
    requires Voices(s) && w < |s.turns| && s.turns[w].key in s.lanes
    ensures forall i | 0 <= i < |Remaining(s, w)| :: OneVoice(Remaining(s, w)[i])
  {
    var q, r := s.lanes[s.turns[w].key].queue, Remaining(s, w);
    if r != q { assert forall i | 0 <= i < |r| :: r[i] == q[i + 1]; }
  }

  lemma MergedVoices(gs: seq<Group>, k: Key)
    requires gs != [] && forall i | 0 <= i < |gs| :: |gs[i]| == 1 && Plain(k, gs[i])
    ensures forall i | 0 <= i < |MergeGroups(gs)| :: OneVoice(MergeGroups(gs)[i])
  {
    MergedVoice(gs, k);
    var m, n := MergeGroups(gs), HeadRun(Folded(gs));
    forall i | 0 <= i < |m| ensures OneVoice(m[i]) {
      if i > 0 { Alone(gs, n, m, i); }
    }
  }

  lemma Alone(gs: seq<Group>, n: nat, m: seq<Group>, i: nat)
    requires n <= |gs| && |m| == 1 + |gs| - n && m[1..] == gs[n..] && 1 <= i < |m|
    requires forall j | 0 <= j < |gs| :: |gs[j]| == 1
    ensures OneVoice(m[i])
  {
    assert m[i] == m[1..][i - 1] == gs[n + i - 1];
  }

  lemma RemainingPlain(s: State, w: nat)
    requires Ending(s, w)
    ensures forall i | 0 <= i < |Remaining(s, w)| :: |Remaining(s, w)[i]| == 1 && Plain(s.turns[w].key, Remaining(s, w)[i])
  {
    RemainingSingles(s, w);
    var q, r := s.lanes[s.turns[w].key].queue, Remaining(s, w);
    if r != q { assert forall i | 0 <= i < |r| :: r[i] == q[i + 1]; }
  }

  lemma FinishVoices(s: State, w: nat, cap: nat)
    requires Voices(s) && Ending(s, w)
    ensures Voices(Finish(s, w, cap))
  {
    var k := s.turns[w].key;
    var l, q := s.lanes[k], Remaining(s, w);
    RemainingVoices(s, w);
    if l.interactive && l.inFlight > 1 {
      LeaveVoices(s, w);
    } else if q == [] {
      ScheduleVoices(Free(s, w), cap);
    } else if l.interactive {
      ChainVoices(s, w, q);
    } else {
      RemainingPlain(s, w);
      MergedVoices(q, k);
      ChainVoices(s, w, MergeGroups(q));
    }
  }

  lemma {:induction false} VoicesAfter(s: State, es: seq<Event>, cap: nat)
    requires Inv(s, cap) && Voices(s) && ValidRun(s, es, cap)
    ensures Voices(After(s, es, cap))
    decreases |es|
  {
    if es != [] {
      StepInv(s, es[0], cap);
      match es[0] {
        case Arrive(msg, i) => DispatchVoices(s, msg, i, cap);
        case End(w) =>
          assert Ending(s, w);
          FinishVoices(s, w, cap);
      }
      VoicesAfter(Step(s, es[0], cap), es[1..], cap);
    }
  }

  /** Whatever comes in, messages share a turn only if they are from the same chat and
      origin and addressed alike, and none of them is a task, a command, or to be kept
      apart. */
  lemma TurnsSpeakAsOne(es: seq<Event>, cap: nat, i: nat)
    requires ValidRun(EMPTY, es, cap) && i < |After(EMPTY, es, cap).turns|
    ensures OneVoice(After(EMPTY, es, cap).turns[i].msgs)
  {
    EmptyInv(cap);
    VoicesAfter(EMPTY, es, cap);
  }

  /** From s to z k's normal lane went on with a new turn: what it left waiting first
      could not have joined. */
  ghost predicate StandsApart(s: State, z: State, k: Key) {
    k in s.lanes && !s.lanes[k].interactive && |z.turns| == |s.turns| + 1 && k in z.lanes && Waiting(z, k) != [] ==>
      var h, x := z.turns[|s.turns|].msgs[0], Waiting(z, k)[0];
      !Ordinary(h) || !Ordinary(x) || !Together(h, x)
  }

  lemma ApartFrom(s: State, z: State, cap: nat, k: Key, w: nat)
    requires Inv(s, cap) && k in s.lanes && LiveOf(s, k) == {w} && w < |s.turns| && s.turns[w].key == k
    requires Outcome(s, z, w)
    ensures StandsApart(s, z, k)
  {
    if !s.lanes[k].interactive && |z.turns| == |s.turns| + 1 && k in z.lanes && Waiting(z, k) != [] {
      var t, q := z.turns[|s.turns|], Waiting(s, k);
      assert q[0] == t.msgs[0] && q[|t.msgs|] == Waiting(z, k)[0];
      WaitingPlain(s, cap, k);
      CompatibleIff(q[0], q[|t.msgs|]);
    }
  }

  /** And no fewer share it than may: the first message that a turn chained on a normal
      lane leaves waiting could not have joined. */
  lemma NextStandsApart(es: seq<Event>, w: nat, cap: nat)
    requires ValidRun(EMPTY, es, cap) && w in After(EMPTY, es, cap).live
    ensures var s := After(EMPTY, es, cap);
      w < |s.turns| && StandsApart(s, Finish(s, w, cap), s.turns[w].key)
  {
    var s := After(EMPTY, es, cap);
    Reached(es, cap);
    TurnEndOutcome(es, w, cap);
    NormalEnd(s, w, cap);
    if !s.lanes[s.turns[w].key].interactive { ApartFrom(s, Finish(s, w, cap), cap, s.turns[w].key, w); }
  }

  lemma NormalEnd(s: State, w: nat, cap: nat)
    requires Inv(s, cap) && w in s.live && w < |s.turns| && s.turns[w].key in s.lanes
    ensures !s.lanes[s.turns[w].key].interactive ==> LiveOf(s, s.turns[w].key) == {w}
  {
    assert Ending(s, w);
    if !s.lanes[s.turns[w].key].interactive { LastTurn(s, w); }
  }

  lemma WaitingPlain(s: State, cap: nat, k: Key)
    requires Inv(s, cap)
    ensures forall m | m in Waiting(s, k) :: m.QueueKey() == k
  {
    if k in s.lanes {
      assert LaneOK(s, k);
      FlattenPlain(k, s.lanes[k].queue);
      if s.lanes[k].queue != [] { FlattenPlain(k, s.lanes[k].queue[1..]); }
    }
  }

  /** The entry a run is folded into is its head's in everything but the text, the
      Telegram ids and the count. */
  lemma FoldedAsHead(g: seq<QueuedMsg>)
    requires g != []
    ensures var f, h := Fold(g), g[0];
      && f.chatID == h.chatID && f.origin == h.origin && f.target == h.target && f.project == h.project
      && f.isTask == h.isTask && f.noMerge == h.noMerge && f.laneKey == h.laneKey && f.QueueKey() == h.QueueKey()
  {}
}

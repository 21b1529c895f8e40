/** host/bot.go: the lane scheduler as a state machine, and what every run of it keeps.
    A queue entry is the group of original messages it stands for (see QueueMerge.Fold).
    turns, live and arrivals are history: every turn ever started, the ones still
    in flight, and every message dispatched. */
module LaneModel {
  import opened GoText
  import opened QueueMerge

  type Key = string
  type Group = g: seq<QueuedMsg> | g != []
    witness [QueuedMsg(0, "", false, "", "", None, "", false, 0, [])]

  datatype Lane = Lane(queue: seq<Group>, running: bool, interactive: bool, inFlight: int)

  /** queued: the turn came from the lane's queue; otherwise it was steered in. */
  datatype Turn = Turn(key: Key, msgs: Group, queued: bool)

  datatype Arrival = Arrival(msg: QueuedMsg, steered: bool)

  datatype State = State(
    lanes: map<Key, Lane>, ready: seq<Key>, runningLanes: int,
    turns: seq<Turn>, live: set<nat>, arrivals: seq<Arrival>)

  const EMPTY := State(map[], [], 0, [], {}, [])

  // -------------------------------------------------------------- the steps

  function Launch(s: State, t: Turn): State {
    s.(turns := s.turns + [t], live := s.live + {|s.turns|})
  }

  /** Give an idle lane a slot and start its head. */
  function StartHead(s: State, key: Key): State
    requires key in s.lanes && s.lanes[key].queue != []
  {
    var l := s.lanes[key];
    Launch(s.(lanes := s.lanes[key := l.(running := true, inFlight := 1)], runningLanes := s.runningLanes + 1),
           Turn(key, l.queue[0], true))
  }

  function LaneFor(s: State, key: Key, interactive: bool): Lane {
    if key in s.lanes then s.lanes[key] else Lane([], false, interactive, 0)
  }

  /** dispatch to a running interactive lane: same lane, same slot, one more turn. */
  function Steer(s: State, msg: QueuedMsg): State
    requires msg.QueueKey() in s.lanes
  {
    var k := msg.QueueKey();
    var l := s.lanes[k];
    Launch(s.(arrivals := s.arrivals + [Arrival(msg, true)], lanes := s.lanes[k := l.(inFlight := l.inFlight + 1)]),
           Turn(k, [msg], false))
  }

  /** dispatch up to the point where the message is in its lane's queue. */
  function Enqueue(s: State, msg: QueuedMsg, interactive: bool): State {
    var l := LaneFor(s, msg.QueueKey(), interactive);
    s.(arrivals := s.arrivals + [Arrival(msg, false)],
       lanes := s.lanes[msg.QueueKey() := l.(queue := l.queue + [[msg]])])
  }

  /** dispatch from there on: the lane of k is started, or listed as ready, if it is
      neither yet. */
  function Waits(e: State, k: Key, cap: nat): State
    requires k in e.lanes && e.lanes[k].queue != []
  {
    if e.lanes[k].running || k in e.ready then e
    else if e.runningLanes < cap then StartHead(e, k)
    else e.(ready := e.ready + [k])
  }

  /** dispatch; interactive is what IsInteractive answers if a lane has to be made. */
  function Dispatch(s: State, msg: QueuedMsg, interactive: bool, cap: nat): State {
    var l := LaneFor(s, msg.QueueKey(), interactive);
    if l.interactive && l.running then Steer(s, msg)
    else Waits(Enqueue(s, msg, interactive), msg.QueueKey(), cap)
  }

  /** scheduleLocked, stale ready entries skipped. */
  function Schedule(s: State, cap: nat): State
    decreases |s.ready|
  {
    if s.runningLanes < cap && s.ready != [] then
      var key := s.ready[0];
      var s1 := s.(ready := s.ready[1..]);
      if key !in s.lanes || s.lanes[key].running || s.lanes[key].queue == [] then Schedule(s1, cap)
      else Schedule(StartHead(s1, key), cap)
    else s
  }

  function Flatten(gs: seq<Group>): (r: seq<QueuedMsg>)
    ensures gs != [] ==> r != []
  {
    if gs == [] then [] else gs[0] + Flatten(gs[1..])
  }

  /** The queue as the program holds it: one message per group. */
  function Folded(gs: seq<Group>): (q: seq<QueuedMsg>)
    ensures |q| == |gs|
    ensures forall i :: 0 <= i < |gs| ==> q[i] == Fold(gs[i])
  {
    seq(|gs|, i requires 0 <= i < |gs| => Fold(gs[i]))
  }

  lemma {:induction false} FlattenSingles(gs: seq<Group>)
    requires forall i | 0 <= i < |gs| :: |gs[i]| == 1
    ensures Flatten(gs) == Folded(gs)
  {
    if gs != [] {
      FlattenSingles(gs[1..]);
      assert Folded(gs) == [Fold(gs[0])] + Folded(gs[1..]);
    }
  }

  /** mergeQueuedHead on groups. */
  function MergeGroups(gs: seq<Group>): (r: seq<Group>)
    requires gs != []
    ensures r != []
  {
    var n := HeadRun(Folded(gs));
    [Flatten(gs[..n])] + gs[n..]
  }

  function Popped(gs: seq<Group>): seq<Group> {
    if gs != [] then gs[1..] else gs
  }

  /** What stays of the lane's queue once turn w has ended: a steered turn's end
      takes nothing off an interactive lane's queue. */
  function Remaining(s: State, w: nat): seq<Group>
    requires w < |s.turns| && s.turns[w].key in s.lanes
  {
    var l := s.lanes[s.turns[w].key];
    if l.interactive && !s.turns[w].queued then l.queue else Popped(l.queue)
  }

  /** Others of the lane are still in flight: the turn just leaves. */
  function Leave(s: State, w: nat): State
    requires w < |s.turns| && s.turns[w].key in s.lanes
  {
    var l := s.lanes[s.turns[w].key];
    s.(live := s.live - {w},
       lanes := s.lanes[s.turns[w].key := l.(queue := Remaining(s, w), inFlight := l.inFlight - 1)])
  }

  /** The lane keeps its slot and goes on with the head of q. */
  function Chain(s: State, w: nat, q: seq<Group>): State
    requires w < |s.turns| && s.turns[w].key in s.lanes && q != []
  {
    var k := s.turns[w].key;
    var l := s.lanes[k];
    Launch(s.(live := s.live - {w},
              lanes := s.lanes[k := l.(queue := q, inFlight := if l.interactive then 1 else l.inFlight)]),
           Turn(k, q[0], true))
  }

  /** The drained lane gives its slot back. */
  function Free(s: State, w: nat): State
    requires w < |s.turns|
  {
    s.(live := s.live - {w}, lanes := s.lanes - {s.turns[w].key}, runningLanes := s.runningLanes - 1)
  }

  /** finishTurn for the in-flight turn number w. */
  function Finish(s: State, w: nat, cap: nat): State
    requires w < |s.turns|
  {
    if s.turns[w].key !in s.lanes then s.(live := s.live - {w})
    else
      var l, q := s.lanes[s.turns[w].key], Remaining(s, w);
      if l.interactive && l.inFlight > 1 then Leave(s, w)
      else if q == [] then Schedule(Free(s, w), cap)
      else Chain(s, w, if l.interactive then q else MergeGroups(q))
  }

  // -------------------------------------------------------- runs of the bot

  datatype Event = Arrive(msg: QueuedMsg, interactive: bool) | End(w: nat)

  /** Fresh messages carry no merge count; only a turn in flight can end. */
  predicate Enabled(s: State, e: Event) {
    match e
    case Arrive(msg, _) => msg.merged <= 1
    case End(w) => w in s.live && w < |s.turns|
  }

  function Step(s: State, e: Event, cap: nat): State
    requires Enabled(s, e)
  {
    match e
    case Arrive(msg, interactive) => Dispatch(s, msg, interactive, cap)
    case End(w) => Finish(s, w, cap)
  }

  predicate ValidRun(s: State, es: seq<Event>, cap: nat)
    decreases |es|
  {
    es == [] || (Enabled(s, es[0]) && ValidRun(Step(s, es[0], cap), es[1..], cap))
  }

  function After(s: State, es: seq<Event>, cap: nat): State
    requires ValidRun(s, es, cap)
    decreases |es|
  {
    if es == [] then s else After(Step(s, es[0], cap), es[1..], cap)
  }

  // ------------------------------------------------------- what is observed

  function LiveOf(s: State, k: Key): set<nat> {
    set w | w in s.live && w < |s.turns| && s.turns[w].key == k
  }

  function RunningKeys(s: State): set<Key> {
    set k | k in s.lanes && s.lanes[k].running
  }

  /** The head of k's queue is being worked on right now. */
  ghost predicate HeadBusy(s: State, k: Key) {
    exists w :: w in LiveOf(s, k) && s.turns[w].queued
  }

  /** The messages of k nobody has started yet. */
  ghost function Waiting(s: State, k: Key): seq<QueuedMsg> {
    if k !in s.lanes then []
    else Flatten(if HeadBusy(s, k) then Popped(s.lanes[k].queue) else s.lanes[k].queue)
  }

  /** Messages dispatched to k, in order: the steered ones or the others. */
  function Arrived(xs: seq<Arrival>, k: Key, steered: bool): seq<QueuedMsg> {
    if xs == [] then []
    else
      var x := xs[|xs| - 1];
      Arrived(xs[..|xs| - 1], k, steered)
        + if x.msg.QueueKey() == k && x.steered == steered then [x.msg] else []
  }

  /** Messages of k whose turn was started, in order: queue-born or steered. */
  function Begun(ts: seq<Turn>, k: Key, queued: bool): seq<QueuedMsg> {
    if ts == [] then []
    else
      var t := ts[|ts| - 1];
      Begun(ts[..|ts| - 1], k, queued) + if t.key == k && t.queued == queued then t.msgs else []
  }

  // ---------------------------------------------------------- the invariant

  ghost predicate Plain(k: Key, g: Group) {
    forall m | m in g :: m.QueueKey() == k && m.merged <= 1
  }

  ghost predicate TurnsOK(s: State) {
    && (forall i | 0 <= i < |s.turns| :: Plain(s.turns[i].key, s.turns[i].msgs))
    && (forall i | 0 <= i < |s.turns| && !s.turns[i].queued :: |s.turns[i].msgs| == 1)
    && (forall w | w in s.live :: w < |s.turns| && s.turns[w].key in s.lanes && s.lanes[s.turns[w].key].running)
  }

  ghost predicate LaneOK(s: State, k: Key)
    requires k in s.lanes
  {
    var l, fly := s.lanes[k], LiveOf(s, k);
    && (forall i | 0 <= i < |l.queue| :: Plain(k, l.queue[i]))
    && (forall i | 1 <= i < |l.queue| :: |l.queue[i]| == 1)
    && l.inFlight == |fly|
    && (if l.running then fly != {} else fly == {} && l.queue != [])
    && (!l.running || l.interactive ==> l.queue != [] ==> |l.queue[0]| == 1)
    && (forall w | w in fly && s.turns[w].queued :: l.queue != [] && s.turns[w].msgs == l.queue[0])
    && (forall v, w | v in fly && w in fly && s.turns[v].queued && s.turns[w].queued :: v == w)
    && (!l.interactive ==> forall w | w in fly :: s.turns[w].queued)
  }

  ghost predicate Account(s: State, k: Key) {
    && Arrived(s.arrivals, k, false) == Begun(s.turns, k, true) + Waiting(s, k)
    && Arrived(s.arrivals, k, true) == Begun(s.turns, k, false)
  }

  /** ready lists, once each, the idle lanes outside hole. */
  ghost predicate ReadyOK(s: State, hole: set<Key>) {
    && NoRepeat(s.ready)
    && (forall k :: k in s.ready <==> k in s.lanes && !s.lanes[k].running && k !in hole)
  }

  ghost predicate Core(s: State, cap: nat, hole: set<Key>) {
    && TurnsOK(s)
    && (forall k | k in s.lanes :: LaneOK(s, k))
    && (forall k :: Account(s, k))
    && ReadyOK(s, hole)
    && s.runningLanes == |RunningKeys(s)| <= cap
  }

  /** A lane waits only while every slot is taken. */
  ghost predicate Inv(s: State, cap: nat) {
    Core(s, cap, {}) && (s.ready != [] ==> s.runningLanes == cap)
  }

  // ------------------------------------------------------------- small facts

  lemma {:induction false} FlattenConcat(a: seq<Group>, b: seq<Group>)
    ensures Flatten(a + b) == Flatten(a) + Flatten(b)
  {
    if a == [] {
      assert a + b == b;
    } else {
      assert (a + b)[1..] == a[1..] + b;
      FlattenConcat(a[1..], b);
    }
  }

  lemma ArrivedSnoc(xs: seq<Arrival>, x: Arrival, k: Key, steered: bool)
    ensures Arrived(xs + [x], k, steered)
         == Arrived(xs, k, steered) + if x.msg.QueueKey() == k && x.steered == steered then [x.msg] else []
  {
    assert (xs + [x])[..|xs|] == xs;
  }

  lemma BegunSnoc(ts: seq<Turn>, t: Turn, k: Key, queued: bool)
    ensures Begun(ts + [t], k, queued)
         == Begun(ts, k, queued) + if t.key == k && t.queued == queued then t.msgs else []
  {
    assert (ts + [t])[..|ts|] == ts;
  }

  /** s2 differs from s only at k. */
  ghost predicate OnlyAt(s: State, s2: State, k: Key) {
    && (forall j | j != k :: (j in s.lanes <==> j in s2.lanes) && (j in s.lanes ==> s.lanes[j] == s2.lanes[j]))
    && (s2.turns == s.turns || exists t: Turn :: t.key == k && s2.turns == s.turns + [t])
    && (s2.arrivals == s.arrivals || exists x: Arrival :: x.msg.QueueKey() == k && s2.arrivals == s.arrivals + [x])
    && (forall w: nat | w < |s2.turns| && s2.turns[w].key != k :: w in s.live <==> w in s2.live)
  }

  lemma FrameLogs(s: State, s2: State, k: Key, j: Key, b: bool)
    requires OnlyAt(s, s2, k) && j != k
    ensures Begun(s2.turns, j, b) == Begun(s.turns, j, b)
    ensures Arrived(s2.arrivals, j, b) == Arrived(s.arrivals, j, b)
  {
    if s2.turns != s.turns {
      var t: Turn :| t.key == k && s2.turns == s.turns + [t];
      BegunSnoc(s.turns, t, j, b);
    }
    if s2.arrivals != s.arrivals {
      var x: Arrival :| x.msg.QueueKey() == k && s2.arrivals == s.arrivals + [x];
      ArrivedSnoc(s.arrivals, x, j, b);
    }
  }

  lemma FrameLive(s: State, s2: State, k: Key, j: Key)
    requires OnlyAt(s, s2, k) && j != k && TurnsOK(s)
    ensures LiveOf(s2, j) == LiveOf(s, j)
    ensures forall w | w in LiveOf(s, j) :: s2.turns[w] == s.turns[w]
    ensures HeadBusy(s2, j) <==> HeadBusy(s, j)
  {
    assert |s.turns| <= |s2.turns| && forall w: nat | w < |s.turns| :: s2.turns[w] == s.turns[w];
  }

  lemma FrameAt(s: State, s2: State, k: Key, j: Key)
    requires OnlyAt(s, s2, k) && j != k
    requires Account(s, j) && (j in s.lanes ==> LaneOK(s, j))
    requires TurnsOK(s)
    ensures Account(s2, j) && (j in s2.lanes ==> LaneOK(s2, j))
  {
    FrameLogs(s, s2, k, j, true);
    FrameLogs(s, s2, k, j, false);
    FrameLive(s, s2, k, j);
  }

  lemma FrameAll(s: State, s2: State, k: Key)
    requires OnlyAt(s, s2, k) && TurnsOK(s)
    requires (forall j | j in s.lanes :: LaneOK(s, j)) && forall j :: Account(s, j)
    ensures forall j | j != k :: Account(s2, j)
    ensures forall j | j != k && j in s2.lanes :: LaneOK(s2, j)
  {
    forall j | j != k ensures Account(s2, j) && (j in s2.lanes ==> LaneOK(s2, j)) {
      FrameAt(s, s2, k, j);
    }
  }

  // --------------------------------------------- every step keeps the invariant

  ghost predicate NoRepeat(r: seq<Key>) {
    forall i, j | 0 <= i < j < |r| :: r[i] != r[j]
  }

  lemma PushKey(r: seq<Key>, k: Key)
    requires NoRepeat(r) && k !in r
    ensures NoRepeat(r + [k]) && forall j :: j in r + [k] <==> j in r || j == k
  {
    var z := r + [k];
    forall i, j | 0 <= i < j < |z| ensures z[i] != z[j] { assert z[i] == r[i]; }
  }

  lemma PopKey(r: seq<Key>)
    requires NoRepeat(r) && r != []
    ensures NoRepeat(r[1..]) && forall j :: j in r[1..] <==> j in r && j != r[0]
  {
    var z := r[1..];
    assert forall i | 0 <= i < |z| :: z[i] == r[i + 1];
    forall j | j in r && j != r[0] ensures j in z {
      var i :| 0 <= i < |r| && r[i] == j;
      assert z[i - 1] == j;
    }
  }

  lemma PushReadyCore(s: State, k: Key, cap: nat)
    requires Core(s, cap, {k}) && k in s.lanes && !s.lanes[k].running
    ensures Core(s.(ready := s.ready + [k]), cap, {})
  {
    var s2 := s.(ready := s.ready + [k]);
    FrameAllSame(s, s2);
    PushKey(s.ready, k);
    assert RunningKeys(s2) == RunningKeys(s);
  }

  lemma PopReadyCore(s: State, cap: nat)
    requires Core(s, cap, {}) && s.ready != []
    ensures Core(s.(ready := s.ready[1..]), cap, {s.ready[0]})
    ensures s.ready[0] in s.lanes && !s.lanes[s.ready[0]].running
  {
    var s2 := s.(ready := s.ready[1..]);
    FrameAllSame(s, s2);
    PopKey(s.ready);
    assert s.ready[0] in s.ready;
    assert RunningKeys(s2) == RunningKeys(s);
  }

  /** States that differ in ready only look the same to every lane. */
  lemma FrameAllSame(s: State, s2: State)
    requires s2 == s.(ready := s2.ready)
    requires (forall j | j in s.lanes :: LaneOK(s, j)) && forall j :: Account(s, j)
    ensures forall j :: Account(s2, j)
    ensures forall j | j in s2.lanes :: LaneOK(s2, j)
  {
    forall j ensures Account(s2, j) && (j in s2.lanes ==> LaneOK(s2, j)) {
      assert Account(s, j);
      assert LiveOf(s2, j) == LiveOf(s, j);
      assert HeadBusy(s2, j) <==> HeadBusy(s, j);
    }
  }

  /** A step that touches lane k only: what is left to check for the invariant. */
  lemma CoreFrom(s: State, s2: State, k: Key, cap: nat, hole: set<Key>, hole2: set<Key>)
    requires Core(s, cap, hole) && OnlyAt(s, s2, k)
    requires TurnsOK(s2) && (k in s2.lanes ==> LaneOK(s2, k)) && Account(s2, k)
    requires ReadyOK(s2, hole2) && s2.runningLanes == |RunningKeys(s2)| <= cap
    ensures Core(s2, cap, hole2)
  {
    FrameAll(s, s2, k);
  }

  lemma StartHeadLane(s: State, k: Key)
    requires TurnsOK(s) && k in s.lanes && LaneOK(s, k) && !s.lanes[k].running
    ensures s.lanes[k].queue != []
    ensures LaneOK(StartHead(s, k), k) && HeadBusy(StartHead(s, k), k)
    ensures !HeadBusy(s, k)
  {
    var s2, n := StartHead(s, k), |s.turns|;
    assert LiveOf(s, k) == {};
    assert LiveOf(s2, k) == {n} by {
      forall w | w in LiveOf(s2, k) ensures w == n { assert w != n ==> w in LiveOf(s, k); }
    }
    assert n in LiveOf(s2, k);
  }

  lemma StartHeadAccount(s: State, k: Key)
    requires k in s.lanes && s.lanes[k].queue != [] && Account(s, k)
    requires !HeadBusy(s, k) && HeadBusy(StartHead(s, k), k)
    ensures Account(StartHead(s, k), k)
  {
    var l := s.lanes[k];
    var t := Turn(k, l.queue[0], true);
    BegunSnoc(s.turns, t, k, true);
    BegunSnoc(s.turns, t, k, false);
    MoveHead(Begun(s.turns, k, true), l.queue);
  }

  lemma StartHeadFrame(s: State, k: Key, cap: nat)
    requires TurnsOK(s) && k in s.lanes && !s.lanes[k].running && s.lanes[k].queue != []
    requires Plain(k, s.lanes[k].queue[0]) && ReadyOK(s, {k})
    requires s.runningLanes == |RunningKeys(s)| < cap
    ensures var s2 := StartHead(s, k);
      OnlyAt(s, s2, k) && TurnsOK(s2) && ReadyOK(s2, {}) && s2.runningLanes == |RunningKeys(s2)| <= cap
  {
    var s2 := StartHead(s, k);
    assert RunningKeys(s2) == RunningKeys(s) + {k};
    assert s2.turns == s.turns + [Turn(k, s.lanes[k].queue[0], true)];
  }

  lemma StartHeadCore(s: State, k: Key, cap: nat)
    requires Core(s, cap, {k}) && k in s.lanes && !s.lanes[k].running && s.runningLanes < cap
    ensures s.lanes[k].queue != []
    ensures Core(StartHead(s, k), cap, {})
  {
    assert LaneOK(s, k) && Account(s, k);
    StartHeadLane(s, k);
    StartHeadAccount(s, k);
    StartHeadFrame(s, k, cap);
    CoreFrom(s, StartHead(s, k), k, cap, {k}, {});
  }

  lemma SteerLive(s: State, msg: QueuedMsg)
    requires TurnsOK(s) && msg.QueueKey() in s.lanes
    ensures var k, s2 := msg.QueueKey(), Steer(s, msg);
      && LiveOf(s2, k) == LiveOf(s, k) + {|s.turns|} && |s.turns| !in LiveOf(s, k)
      && s2.turns == s.turns + [Turn(k, [msg], false)]
  {}

  lemma SteerLane(s: State, msg: QueuedMsg)
    requires var k := msg.QueueKey();
      TurnsOK(s) && k in s.lanes && LaneOK(s, k) && s.lanes[k].running && s.lanes[k].interactive
    ensures LaneOK(Steer(s, msg), msg.QueueKey())
    ensures HeadBusy(Steer(s, msg), msg.QueueKey()) <==> HeadBusy(s, msg.QueueKey())
  {
    var k := msg.QueueKey();
    var s2, n := Steer(s, msg), |s.turns|;
    SteerLive(s, msg);
    assert !s2.turns[n].queued && forall w | w in LiveOf(s, k) :: s2.turns[w] == s.turns[w];
    if HeadBusy(s, k) {
      var w :| w in LiveOf(s, k) && s.turns[w].queued;
      assert w in LiveOf(s2, k);
    }
  }

  lemma SteerLogs(s: State, msg: QueuedMsg, b: bool)
    requires msg.QueueKey() in s.lanes
    ensures var s2, k := Steer(s, msg), msg.QueueKey();
      && Begun(s2.turns, k, b) == Begun(s.turns, k, b) + (if b then [] else [msg])
      && Arrived(s2.arrivals, k, b) == Arrived(s.arrivals, k, b) + (if b then [msg] else [])
  {
    BegunSnoc(s.turns, Turn(msg.QueueKey(), [msg], false), msg.QueueKey(), b);
    ArrivedSnoc(s.arrivals, Arrival(msg, true), msg.QueueKey(), b);
  }

  lemma SteerWaiting(s: State, msg: QueuedMsg)
    requires msg.QueueKey() in s.lanes
    requires HeadBusy(Steer(s, msg), msg.QueueKey()) <==> HeadBusy(s, msg.QueueKey())
    ensures Waiting(Steer(s, msg), msg.QueueKey()) == Waiting(s, msg.QueueKey())
  {
    assert Steer(s, msg).lanes[msg.QueueKey()].queue == s.lanes[msg.QueueKey()].queue;
  }

  lemma SteerAccount(s: State, msg: QueuedMsg)
    requires var k := msg.QueueKey(); k in s.lanes && Account(s, k)
    requires HeadBusy(Steer(s, msg), msg.QueueKey()) <==> HeadBusy(s, msg.QueueKey())
    ensures Account(Steer(s, msg), msg.QueueKey())
  {
    SteerWaiting(s, msg);
    SteerLogs(s, msg, true);
    SteerLogs(s, msg, false);
  }

  lemma SteerFrame(s: State, msg: QueuedMsg)
    requires TurnsOK(s) && msg.QueueKey() in s.lanes && s.lanes[msg.QueueKey()].running && msg.merged <= 1
    requires ReadyOK(s, {}) && s.runningLanes == |RunningKeys(s)|
    ensures var s2 := Steer(s, msg);
      OnlyAt(s, s2, msg.QueueKey()) && TurnsOK(s2) && ReadyOK(s2, {}) && s2.runningLanes == |RunningKeys(s2)|
  {
    var k, s2 := msg.QueueKey(), Steer(s, msg);
    assert RunningKeys(s2) == RunningKeys(s);
    assert s2.turns == s.turns + [Turn(k, [msg], false)] && s2.arrivals == s.arrivals + [Arrival(msg, true)];
  }

  lemma SteerCore(s: State, msg: QueuedMsg, cap: nat)
    requires Core(s, cap, {}) && msg.merged <= 1
    requires msg.QueueKey() in s.lanes && s.lanes[msg.QueueKey()].interactive && s.lanes[msg.QueueKey()].running
    ensures Core(Steer(s, msg), cap, {})
  {
    var k := msg.QueueKey();
    assert LaneOK(s, k) && Account(s, k);
    SteerLane(s, msg);
    SteerAccount(s, msg);
    SteerFrame(s, msg);
    CoreFrom(s, Steer(s, msg), k, cap, {}, {});
  }

  lemma EnqueueLane(s: State, msg: QueuedMsg, interactive: bool)
    requires var k := msg.QueueKey();
      TurnsOK(s) && (k in s.lanes ==> LaneOK(s, k)) && msg.merged <= 1
    requires var l := LaneFor(s, msg.QueueKey(), interactive); !(l.interactive && l.running)
    ensures LaneOK(Enqueue(s, msg, interactive), msg.QueueKey())
    ensures HeadBusy(Enqueue(s, msg, interactive), msg.QueueKey()) <==> HeadBusy(s, msg.QueueKey())
    ensures HeadBusy(s, msg.QueueKey()) ==> LaneFor(s, msg.QueueKey(), interactive).queue != []
  {
    var k := msg.QueueKey();
    var s2 := Enqueue(s, msg, interactive);
    assert LiveOf(s2, k) == LiveOf(s, k);
    if k !in s.lanes { assert LiveOf(s, k) == {}; }
  }

  lemma FlattenSnoc(gs: seq<Group>, m: QueuedMsg)
    ensures Flatten(gs + [[m]]) == Flatten(gs) + [m]
  {
    assert Flatten([[m]]) == [m] + Flatten([]);
    FlattenConcat(gs, [[m]]);
  }

  lemma EnqueueWaiting(s: State, msg: QueuedMsg, interactive: bool)
    requires HeadBusy(Enqueue(s, msg, interactive), msg.QueueKey()) <==> HeadBusy(s, msg.QueueKey())
    requires HeadBusy(s, msg.QueueKey()) ==> msg.QueueKey() in s.lanes && s.lanes[msg.QueueKey()].queue != []
    ensures Waiting(Enqueue(s, msg, interactive), msg.QueueKey()) == Waiting(s, msg.QueueKey()) + [msg]
  {
    var q := LaneFor(s, msg.QueueKey(), interactive).queue;
    FlattenSnoc(q, msg);
    if HeadBusy(s, msg.QueueKey()) {
      FlattenSnoc(q[1..], msg);
      assert (q + [[msg]])[1..] == q[1..] + [[msg]];
    }
  }

  lemma EnqueueAccount(s: State, msg: QueuedMsg, interactive: bool)
    requires var k := msg.QueueKey(); Account(s, k)
    requires HeadBusy(Enqueue(s, msg, interactive), msg.QueueKey()) <==> HeadBusy(s, msg.QueueKey())
    requires HeadBusy(s, msg.QueueKey()) ==> msg.QueueKey() in s.lanes && s.lanes[msg.QueueKey()].queue != []
    ensures Account(Enqueue(s, msg, interactive), msg.QueueKey())
  {
    ArrivedSnoc(s.arrivals, Arrival(msg, false), msg.QueueKey(), true);
    ArrivedSnoc(s.arrivals, Arrival(msg, false), msg.QueueKey(), false);
    EnqueueWaiting(s, msg, interactive);
  }

  lemma EnqueueFrame(s: State, msg: QueuedMsg, interactive: bool)
    requires TurnsOK(s) && ReadyOK(s, {}) && s.runningLanes == |RunningKeys(s)|
    ensures var s2, k := Enqueue(s, msg, interactive), msg.QueueKey();
      && OnlyAt(s, s2, k) && TurnsOK(s2)
      && ReadyOK(s2, if k in s.lanes then {} else {k}) && s2.runningLanes == |RunningKeys(s2)|
  {
    var s2 := Enqueue(s, msg, interactive);
    assert RunningKeys(s2) == RunningKeys(s);
    assert s2.arrivals == s.arrivals + [Arrival(msg, false)];
  }

  lemma EnqueueCore(s: State, msg: QueuedMsg, interactive: bool, cap: nat)
    requires Core(s, cap, {}) && msg.merged <= 1
    requires var l := LaneFor(s, msg.QueueKey(), interactive); !(l.interactive && l.running)
    ensures Core(Enqueue(s, msg, interactive), cap, if msg.QueueKey() in s.lanes then {} else {msg.QueueKey()})
  {
    var k, s2 := msg.QueueKey(), Enqueue(s, msg, interactive);
    assert Account(s, k) && (k in s.lanes ==> LaneOK(s, k));
    if k !in s.lanes { assert LiveOf(s, k) == {}; }
    EnqueueLane(s, msg, interactive);
    EnqueueAccount(s, msg, interactive);
    EnqueueFrame(s, msg, interactive);
    CoreFrom(s, s2, k, cap, {}, if k in s.lanes then {} else {k});
  }

  lemma DispatchInv(s: State, msg: QueuedMsg, interactive: bool, cap: nat)
    requires Inv(s, cap) && msg.merged <= 1
    ensures Inv(Dispatch(s, msg, interactive, cap), cap)
  {
    var k := msg.QueueKey();
    var l := LaneFor(s, k, interactive);
    if l.interactive && l.running {
      SteerCore(s, msg, cap);
    } else {
      EnqueueCore(s, msg, interactive, cap);
      var s1 := Enqueue(s, msg, interactive);
      if !l.running && k !in s.ready {
        if s.runningLanes < cap { StartHeadCore(s1, k, cap); } else { PushReadyCore(s1, k, cap); }
      }
    }
  }

  lemma {:induction false} ScheduleInv(s: State, cap: nat)
    requires Core(s, cap, {})
    ensures Inv(Schedule(s, cap), cap)
    decreases |s.ready|
  {
    if s.runningLanes < cap && s.ready != [] {
      PopReadyCore(s, cap);
      var s1 := s.(ready := s.ready[1..]);
      StartHeadCore(s1, s.ready[0], cap);
      ScheduleInv(StartHead(s1, s.ready[0]), cap);
    }
  }

  // ---- the end of a turn

  ghost predicate Ending(s: State, w: nat) {
    && w in s.live && TurnsOK(s) && w < |s.turns| && s.turns[w].key in s.lanes
    && LaneOK(s, s.turns[w].key)
  }

  lemma LeaveLane(s: State, w: nat)
    requires Ending(s, w) && s.lanes[s.turns[w].key].interactive && s.lanes[s.turns[w].key].inFlight > 1
    ensures var k, s2 := s.turns[w].key, Leave(s, w);
      LaneOK(s2, k) && (HeadBusy(s2, k) <==> HeadBusy(s, k) && !s.turns[w].queued)
  {
    var k, s2 := s.turns[w].key, Leave(s, w);
    assert w in LiveOf(s, k);
    assert LiveOf(s2, k) == LiveOf(s, k) - {w};
    assert LiveOf(s2, k) != {} by { assert LiveOf(s2, k) == {} ==> LiveOf(s, k) == {w}; }
    if HeadBusy(s, k) && !s.turns[w].queued {
      var v :| v in LiveOf(s, k) && s.turns[v].queued;
      assert v in LiveOf(s2, k);
    }
  }

  lemma LeaveCore(s: State, w: nat, cap: nat)
    requires Core(s, cap, {}) && Ending(s, w)
    requires s.lanes[s.turns[w].key].interactive && s.lanes[s.turns[w].key].inFlight > 1
    ensures Core(Leave(s, w), cap, {})
  {
    var k, s2 := s.turns[w].key, Leave(s, w);
    LeaveLane(s, w);
    assert w in LiveOf(s, k);
    assert Account(s, k);
    assert Account(s2, k);
    LeaveFrame(s, w);
    CoreFrom(s, s2, k, cap, {}, {});
  }

  lemma LeaveFrame(s: State, w: nat)
    requires Ending(s, w) && ReadyOK(s, {}) && s.runningLanes == |RunningKeys(s)|
    ensures var s2 := Leave(s, w);
      OnlyAt(s, s2, s.turns[w].key) && TurnsOK(s2) && ReadyOK(s2, {}) && s2.runningLanes == |RunningKeys(s2)|
  {
    assert RunningKeys(Leave(s, w)) == RunningKeys(s);
  }

  /** The last turn of a lane: what was waiting is what remains queued. */
  lemma LastTurn(s: State, w: nat)
    requires Ending(s, w) && (s.lanes[s.turns[w].key].interactive ==> s.lanes[s.turns[w].key].inFlight <= 1)
    ensures LiveOf(s, s.turns[w].key) == {w}
    ensures Waiting(s, s.turns[w].key) == Flatten(Remaining(s, w))
  {
    var k := s.turns[w].key;
    assert w in LiveOf(s, k);
    if s.lanes[k].interactive {
      Singleton(LiveOf(s, k), w);
    } else {
      assert LiveOf(s, k) == {w} by { assert forall v | v in LiveOf(s, k) :: v == w; }
    }
  }

  lemma Singleton<T>(a: set<T>, x: T)
    requires x in a && |a| <= 1
    ensures a == {x}
  {
    assert a == {x} + (a - {x});
  }

  lemma ChainLane(s: State, w: nat, q: seq<Group>)
    requires Ending(s, w) && LiveOf(s, s.turns[w].key) == {w} && q != []
    requires forall i | 0 <= i < |q| :: Plain(s.turns[w].key, q[i])
    requires forall i | 1 <= i < |q| :: |q[i]| == 1
    requires s.lanes[s.turns[w].key].interactive ==> |q[0]| == 1
    ensures var k, s2 := s.turns[w].key, Chain(s, w, q); LaneOK(s2, k) && HeadBusy(s2, k)
  {
    var k, s2, n := s.turns[w].key, Chain(s, w, q), |s.turns|;
    assert LiveOf(s2, k) == {n} by {
      forall v | v in LiveOf(s2, k) ensures v == n { assert v != n ==> v in LiveOf(s, k); }
      assert n in LiveOf(s2, k);
    }
    assert n in LiveOf(s2, k);
  }

  lemma ChainLogs(s: State, w: nat, q: seq<Group>, b: bool)
    requires w < |s.turns| && s.turns[w].key in s.lanes && q != []
    ensures var k := s.turns[w].key;
      Begun(Chain(s, w, q).turns, k, b) == Begun(s.turns, k, b) + (if b then q[0] else [])
  {
    BegunSnoc(s.turns, Turn(s.turns[w].key, q[0], true), s.turns[w].key, b);
  }

  lemma ChainAccount(s: State, w: nat, q: seq<Group>)
    requires w < |s.turns| && s.turns[w].key in s.lanes && q != []
    requires Account(s, s.turns[w].key) && Waiting(s, s.turns[w].key) == Flatten(q)
    requires HeadBusy(Chain(s, w, q), s.turns[w].key)
    ensures Account(Chain(s, w, q), s.turns[w].key)
  {
    ChainLogs(s, w, q, true);
    ChainLogs(s, w, q, false);
    MoveHead(Begun(s.turns, s.turns[w].key, true), q);
  }

  lemma MoveHead(b: seq<QueuedMsg>, q: seq<Group>)
    requires q != []
    ensures b + Flatten(q) == b + q[0] + Flatten(q[1..])
  {}

  lemma ChainFrame(s: State, w: nat, q: seq<Group>)
    requires Ending(s, w) && q != [] && Plain(s.turns[w].key, q[0])
    requires ReadyOK(s, {}) && s.runningLanes == |RunningKeys(s)|
    ensures var s2 := Chain(s, w, q);
      OnlyAt(s, s2, s.turns[w].key) && TurnsOK(s2) && ReadyOK(s2, {}) && s2.runningLanes == |RunningKeys(s2)|
  {
    assert RunningKeys(Chain(s, w, q)) == RunningKeys(s);
    assert Chain(s, w, q).turns == s.turns + [Turn(s.turns[w].key, q[0], true)];
  }

  lemma ChainCore(s: State, w: nat, q: seq<Group>, cap: nat)
    requires Core(s, cap, {}) && Ending(s, w) && LiveOf(s, s.turns[w].key) == {w} && q != []
    requires forall i | 0 <= i < |q| :: Plain(s.turns[w].key, q[i])
    requires forall i | 1 <= i < |q| :: |q[i]| == 1
    requires s.lanes[s.turns[w].key].interactive ==> |q[0]| == 1
    requires Waiting(s, s.turns[w].key) == Flatten(q)
    ensures Core(Chain(s, w, q), cap, {})
  {
    assert Account(s, s.turns[w].key);
    ChainLane(s, w, q);
    ChainAccount(s, w, q);
    ChainFrame(s, w, q);
    CoreFrom(s, Chain(s, w, q), s.turns[w].key, cap, {}, {});
  }

  lemma FreeFrame(s: State, w: nat)
    requires Ending(s, w) && LiveOf(s, s.turns[w].key) == {w}
    requires ReadyOK(s, {}) && s.runningLanes == |RunningKeys(s)|
    ensures var s2 := Free(s, w);
      OnlyAt(s, s2, s.turns[w].key) && TurnsOK(s2) && ReadyOK(s2, {}) && s2.runningLanes == |RunningKeys(s2)|
  {
    var k, s2 := s.turns[w].key, Free(s, w);
    assert RunningKeys(s2) == RunningKeys(s) - {k};
    forall v | v in s2.live ensures s2.turns[v].key in s2.lanes {
      assert v in LiveOf(s, s.turns[v].key);
    }
  }

  lemma FreeCore(s: State, w: nat, cap: nat)
    requires Core(s, cap, {}) && Ending(s, w) && LiveOf(s, s.turns[w].key) == {w}
    requires Waiting(s, s.turns[w].key) == []
    ensures Core(Free(s, w), cap, {})
  {
    assert Account(s, s.turns[w].key);
    FreeFrame(s, w);
    CoreFrom(s, Free(s, w), s.turns[w].key, cap, {}, {});
  }

  lemma {:induction false} FlattenPlain(k: Key, gs: seq<Group>)
    requires forall i | 0 <= i < |gs| :: Plain(k, gs[i])
    ensures forall m | m in Flatten(gs) :: m.QueueKey() == k && m.merged <= 1
  {
    if gs != [] {
      FlattenPlain(k, gs[1..]);
      assert Plain(k, gs[0]);
    }
  }

  lemma MergeGroupsFlatten(gs: seq<Group>)
    requires gs != []
    ensures Flatten(MergeGroups(gs)) == Flatten(gs)
  {
    var n := HeadRun(Folded(gs));
    assert gs == gs[..n] + gs[n..];
    FlattenConcat(gs[..n], gs[n..]);
    assert MergeGroups(gs)[1..] == gs[n..];
  }

  lemma MergeGroupsShape(k: Key, gs: seq<Group>)
    requires gs != [] && forall i | 0 <= i < |gs| :: Plain(k, gs[i])
    requires forall i | 0 <= i < |gs| :: |gs[i]| == 1
    ensures var m := MergeGroups(gs);
      && Flatten(m) == Flatten(gs)
      && (forall i | 0 <= i < |m| :: Plain(k, m[i]))
      && (forall i | 1 <= i < |m| :: |m[i]| == 1)
  {
    var n, m := HeadRun(Folded(gs)), MergeGroups(gs);
    MergeGroupsFlatten(gs);
    FlattenPlain(k, gs[..n]);
    assert forall i | 1 <= i < |m| :: m[i] == gs[n + i - 1];
  }

  lemma ChainNormalCore(s: State, w: nat, cap: nat)
    requires Core(s, cap, {}) && Ending(s, w) && !s.lanes[s.turns[w].key].interactive
    requires LiveOf(s, s.turns[w].key) == {w} && Waiting(s, s.turns[w].key) == Flatten(Remaining(s, w))
    requires Remaining(s, w) != []
    ensures Core(Chain(s, w, MergeGroups(Remaining(s, w))), cap, {})
  {
    assert w in LiveOf(s, s.turns[w].key);
    MergeGroupsShape(s.turns[w].key, Remaining(s, w));
    ChainCore(s, w, MergeGroups(Remaining(s, w)), cap);
  }

  lemma LastTurnInv(s: State, w: nat, cap: nat)
    requires Inv(s, cap) && Ending(s, w)
    requires s.lanes[s.turns[w].key].interactive ==> s.lanes[s.turns[w].key].inFlight <= 1
    ensures Inv(Finish(s, w, cap), cap)
  {
    LastTurn(s, w);
    assert w in LiveOf(s, s.turns[w].key);
    if Remaining(s, w) == [] {
      FreeCore(s, w, cap);
      ScheduleInv(Free(s, w), cap);
    } else if s.lanes[s.turns[w].key].interactive {
      ChainCore(s, w, Remaining(s, w), cap);
    } else {
      ChainNormalCore(s, w, cap);
    }
  }

  lemma FinishInv(s: State, w: nat, cap: nat)
    requires Inv(s, cap) && w in s.live
    ensures w < |s.turns| && s.turns[w].key in s.lanes
    ensures Inv(Finish(s, w, cap), cap)
  {
    var l := s.lanes[s.turns[w].key];
    assert Ending(s, w);
    if l.interactive && l.inFlight > 1 { LeaveCore(s, w, cap); } else { LastTurnInv(s, w, cap); }
  }

  /** A normal lane ends its only turn with single messages behind the head. */
  lemma FinishNeeds(s: State, w: nat, cap: nat)
    requires Inv(s, cap) && w in s.live
    ensures w < |s.turns| && s.turns[w].key in s.lanes
    ensures var l := s.lanes[s.turns[w].key];
      && (forall i | 1 <= i < |l.queue| :: |l.queue[i]| == 1)
      && (!l.interactive ==> l.inFlight == 1)
  {
    assert LaneOK(s, s.turns[w].key);
    assert w in LiveOf(s, s.turns[w].key);
    if !s.lanes[s.turns[w].key].interactive { LastTurn(s, w); }
  }

  // ----------------------------------------------------------- over whole runs

  lemma StepInv(s: State, e: Event, cap: nat)
    requires Inv(s, cap) && Enabled(s, e)
    ensures Inv(Step(s, e, cap), cap)
  {
    match e
    case Arrive(msg, interactive) => DispatchInv(s, msg, interactive, cap);
    case End(w) => FinishInv(s, w, cap);
  }

  lemma {:induction false} AfterInv(s: State, es: seq<Event>, cap: nat)
    requires Inv(s, cap) && ValidRun(s, es, cap)
    ensures Inv(After(s, es, cap), cap)
    decreases |es|
  {
    if es != [] {
      StepInv(s, es[0], cap);
      AfterInv(Step(s, es[0], cap), es[1..], cap);
    }
  }

  lemma EmptyInv(cap: nat)
    ensures Inv(EMPTY, cap)
  {
    assert RunningKeys(EMPTY) == {};
    forall k ensures Account(EMPTY, k) {}
  }
}

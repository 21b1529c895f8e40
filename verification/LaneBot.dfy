/** host/bot.go: the scheduler with its own data, a map of lane objects updated
    in place, proved to take exactly the steps of LaneModel. */
module LaneBot {
  import opened GoText
  import opened QueueMerge
  import opened LaneModel

  class LaneObj {
    var queue: seq<QueuedMsg>
    var running: bool
    var interactive: bool
    var inFlight: int

    constructor (interactive: bool)
      ensures queue == [] && !running && this.interactive == interactive && inFlight == 0
    {
      this.queue, this.running, this.interactive, this.inFlight := [], false, interactive, 0;
    }

    /** The object holds what the model's lane says. */
    ghost predicate Shows(l: Lane)
      reads this
    {
      queue == Folded(l.queue) && running == l.running && interactive == l.interactive && inFlight == l.inFlight
    }
  }

  /** Groups and messages merge alike: entries behind a finished head are single messages. */
  lemma MergeGroupsFolds(gs: seq<Group>)
    requires gs != [] && forall i | 0 <= i < |gs| :: |gs[i]| == 1
    ensures Folded(MergeGroups(gs)) == MergeHead(Folded(gs))
  {
    var q := Folded(gs);
    var n := HeadRun(q);
    FlattenSingles(gs[..n]);
    assert Folded(gs[..n]) == q[..n];
    assert Folded(MergeGroups(gs))[0] == Fold(q[..n]);
    assert forall i | 1 <= i < |MergeGroups(gs)| :: Folded(MergeGroups(gs))[i] == q[n + i - 1];
  }

  lemma FoldedPopped(gs: seq<Group>)
    requires gs != []
    ensures Folded(Popped(gs)) == Folded(gs)[1..]
  {}

  /** One turn started, as `go b.runTurn` gets it: key and message of a queue head. */
  ghost predicate Announced(t: Turn, r: (Key, QueuedMsg)) {
    t.queued && r.0 == t.key && r.1 == Fold(t.msgs)
  }

  /** after is before and the turns started, each with the key and message it got. */
  ghost predicate Ran(before: seq<Turn>, after: seq<Turn>, started: seq<(Key, QueuedMsg)>) {
    && |after| == |before| + |started| && before <= after
    && forall i | 0 <= i < |started| :: Announced(after[|before| + i], started[i])
  }

  lemma RanMore(a: seq<Turn>, b: seq<Turn>, c: seq<Turn>, x: seq<(Key, QueuedMsg)>, y: seq<(Key, QueuedMsg)>)
    requires Ran(a, b, x) && Ran(b, c, y)
    ensures Ran(a, c, x + y)
  {
    forall i | 0 <= i < |x + y| ensures Announced(c[|a| + i], (x + y)[i]) {
      if i < |x| { assert c[|a| + i] == b[|a| + i]; } else { assert Announced(c[|b| + (i - |x|)], y[i - |x|]); }
    }
  }

  class Bot {
    const maxWorkers: nat
    var lanes: map<Key, LaneObj>
    var readyLanes: seq<Key>
    var runningLanes: int
    ghost var view: State // the model's state this bot is in

    /** The fields are the view's, lane by lane, and no two keys share an object. */
    ghost predicate Wired()
      reads this, lanes.Values
    {
      && readyLanes == view.ready && runningLanes == view.runningLanes
      && lanes.Keys == view.lanes.Keys
      && (forall k | k in lanes :: lanes[k].Shows(view.lanes[k]))
      && (forall j, k | j in lanes && k in lanes && j != k :: lanes[j] != lanes[k])
    }

    /** The same, except that the object at key may be ahead of the view. */
    ghost predicate WiredBut(key: Key)
      reads this, lanes.Values
    {
      && readyLanes == view.ready && runningLanes == view.runningLanes
      && key in lanes && lanes.Keys == view.lanes.Keys + {key}
      && (forall k | k in lanes && k != key :: lanes[k].Shows(view.lanes[k]))
      && (forall j, k | j in lanes && k in lanes && j != k :: lanes[j] != lanes[k])
    }

    ghost predicate Valid()
      reads this, lanes.Values
    {
      Wired() && Inv(view, maxWorkers)
    }

    constructor (maxWorkers: nat)
      ensures Valid() && view == EMPTY && this.maxWorkers == maxWorkers
    {
      this.maxWorkers := maxWorkers;
      lanes, readyLanes, runningLanes, view := map[], [], 0, EMPTY;
      new;
      EmptyInv(maxWorkers);
    }

    /** The view catches up with the object at key. */
    ghost method Adopt(key: Key, s: State)
      requires WiredBut(key) && key in s.lanes && lanes[key].Shows(s.lanes[key])
      requires s.ready == view.ready && s.runningLanes == view.runningLanes && s.lanes == view.lanes[key := s.lanes[key]]
      modifies this`view
      ensures Wired() && view == s
    {
      view := s;
    }

    method LaneQueuedLocked(key: Key) returns (found: bool)
      ensures found <==> key in readyLanes
    {
      for i := 0 to |readyLanes|
        invariant key !in readyLanes[..i]
      {
        if readyLanes[i] == key { return true; }
      }
      return false;
    }

    /** The last turn started, as `go b.runTurn` gets it. */
    ghost predicate JustStarted(msg: QueuedMsg, queued: bool)
      reads this
    {
      |view.turns| > 0 && msg == Fold(view.turns[|view.turns| - 1].msgs) && queued == view.turns[|view.turns| - 1].queued
    }

    /** Gives lane l, stored under key, a slot; its head is returned to be run. */
    method StartLane(key: Key, l: LaneObj) returns (head: QueuedMsg)
      requires Wired() && key in lanes && lanes[key] == l && l.queue != []
      modifies this`runningLanes, this`view, l
      ensures Wired() && view == StartHead(old(view), key)
      ensures JustStarted(head, true)
    {
      l.running := true;
      l.inFlight := 1;
      runningLanes := runningLanes + 1;
      head := l.queue[0];
      view := StartHead(view, key);
    }

    /** started: the message handed to a new turn and whether it came from the queue. */
    method Dispatch(msg: QueuedMsg, isInteractive: bool) returns (started: Option<(QueuedMsg, bool)>)
      requires Valid() && msg.merged <= 1
      modifies this, lanes.Values
      ensures Valid() && fresh(lanes.Values - old(lanes.Values))
      ensures view == LaneModel.Dispatch(old(view), msg, isInteractive, maxWorkers)
      ensures view.turns == old(view.turns) <==> started == None
      ensures started.Some? ==> JustStarted(started.value.0, started.value.1)
    {
      DispatchInv(view, msg, isInteractive, maxWorkers);
      started := DispatchStep(msg, isInteractive);
    }

    method DispatchStep(msg: QueuedMsg, isInteractive: bool) returns (started: Option<(QueuedMsg, bool)>)
      requires Wired()
      modifies this, lanes.Values
      ensures Wired() && fresh(lanes.Values - old(lanes.Values))
      ensures view == LaneModel.Dispatch(old(view), msg, isInteractive, maxWorkers)
      ensures view.turns == old(view.turns) <==> started == None
      ensures started.Some? ==> JustStarted(started.value.0, started.value.1)
    {
      var l := LaneOf(msg.QueueKey(), isInteractive);
      started := Place(msg.QueueKey(), l, msg, isInteractive);
    }

    /** dispatch, once the lane is at hand. */
    method Place(key: Key, l: LaneObj, msg: QueuedMsg, ghost isInteractive: bool)
      returns (started: Option<(QueuedMsg, bool)>)
      requires WiredBut(key) && lanes[key] == l && key == msg.QueueKey() && l.Shows(LaneFor(view, key, isInteractive))
      requires l.running ==> key in view.lanes
      modifies this`readyLanes, this`runningLanes, this`view, l
      ensures Wired() && view == LaneModel.Dispatch(old(view), msg, isInteractive, maxWorkers)
      ensures view.turns == old(view.turns) <==> started == None
      ensures started.Some? ==> JustStarted(started.value.0, started.value.1)
    {
      if l.interactive && l.running {
        SteerIn(key, l, msg);
        return Some((msg, false));
      }
      Append(key, l, msg, isInteractive);
      started := StartOrWait(key, l);
    }

    /** Same lane, same slot, one more turn in flight. */
    method SteerIn(key: Key, l: LaneObj, msg: QueuedMsg)
      requires WiredBut(key) && lanes[key] == l && key == msg.QueueKey()
      requires key in view.lanes && l.Shows(view.lanes[key])
      modifies this`view, l`inFlight
      ensures Wired() && view == Steer(old(view), msg)
    {
      l.inFlight := l.inFlight + 1;
      Adopt(key, Steer(view, msg));
    }

    method Append(key: Key, l: LaneObj, msg: QueuedMsg, ghost isInteractive: bool)
      requires WiredBut(key) && lanes[key] == l && key == msg.QueueKey() && l.Shows(LaneFor(view, key, isInteractive))
      modifies this`view, l`queue
      ensures Wired() && view == Enqueue(old(view), msg, isInteractive)
    {
      l.queue := l.queue + [msg];
      Adopt(key, Enqueue(view, msg, isInteractive));
    }

    /** dispatch, once the message is in the queue of l. */
    method StartOrWait(key: Key, l: LaneObj) returns (started: Option<(QueuedMsg, bool)>)
      requires Wired() && key in lanes && lanes[key] == l && l.queue != []
      modifies this`readyLanes, this`runningLanes, this`view, l
      ensures Wired()
      ensures view == Waits(old(view), key, maxWorkers)
      ensures view.turns == old(view.turns) <==> started == None
      ensures started.Some? ==> JustStarted(started.value.0, started.value.1)
    {
      if l.running {
        return None;
      }
      var waiting := LaneQueuedLocked(key);
      if waiting {
        return None;
      }
      if runningLanes < maxWorkers {
        var head := StartLane(key, l);
        return Some((head, true));
      }
      readyLanes := readyLanes + [key];
      view := view.(ready := view.ready + [key]);
      return None;
    }

    /** The lane of key, made on the spot if there is none. */
    method LaneOf(key: Key, isInteractive: bool) returns (l: LaneObj)
      requires Wired()
      modifies this`lanes
      ensures WiredBut(key) && lanes[key] == l && l.Shows(LaneFor(view, key, isInteractive))
      ensures fresh(lanes.Values - old(lanes.Values)) && (key in old(lanes) ==> lanes == old(lanes))
      ensures key !in old(lanes) ==> fresh(l)
    {
      if key in lanes {
        l := lanes[key];
      } else {
        l := new LaneObj(isInteractive);
        lanes := lanes[key := l];
      }
    }

    /** started: the lanes promoted and what each of them runs. */
    method ScheduleLocked() returns (started: seq<(Key, QueuedMsg)>)
      requires Wired()
      modifies this`readyLanes, this`runningLanes, this`view, lanes.Values
      ensures Wired() && view == Schedule(old(view), maxWorkers)
      ensures Ran(old(view.turns), view.turns, started)
    {
      started := [];
      while runningLanes < maxWorkers && |readyLanes| > 0
        invariant Wired()
        invariant Schedule(view, maxWorkers) == Schedule(old(view), maxWorkers)
        invariant Ran(old(view.turns), view.turns, started)
        decreases |readyLanes|
      {
        ghost var before := view.turns;
        var one := StartNextReady();
        RanMore(old(view.turns), before, view.turns, started, one);
        started := started + one;
      }
    }

    /** One round of scheduleLocked's loop. */
    method StartNextReady() returns (started: seq<(Key, QueuedMsg)>)
      requires Wired() && runningLanes < maxWorkers && |readyLanes| > 0
      modifies this`readyLanes, this`runningLanes, this`view, lanes.Values
      ensures Wired() && |readyLanes| == |old(readyLanes)| - 1
      ensures Schedule(view, maxWorkers) == Schedule(old(view), maxWorkers)
      ensures Ran(old(view.turns), view.turns, started)
    {
      started := [];
      var key := readyLanes[0];
      readyLanes := readyLanes[1..];
      view := view.(ready := view.ready[1..]);
      if key in lanes && !lanes[key].running && |lanes[key].queue| > 0 {
        var head := StartLane(key, lanes[key]);
        started := [(key, head)];
      }
    }

    /** w is the history number of the turn that ended; it says whose turn it was.
        next is the same lane's next message, if it goes on; started is what the slot
        it may have given up went to. */
    method FinishTurn(key: Key, queued: bool, ghost w: nat)
      returns (next: Option<QueuedMsg>, started: seq<(Key, QueuedMsg)>)
      requires Valid() && w in view.live && w < |view.turns|
      requires view.turns[w].key == key && view.turns[w].queued == queued
      modifies this, lanes.Values
      ensures Valid() && lanes.Values <= old(lanes.Values)
      ensures view == Finish(old(view), w, maxWorkers)
      ensures Ran(old(view.turns), view.turns, if next.Some? then [(key, next.value)] else started)
      ensures next.Some? ==> started == []
      ensures next.None? ==> key !in lanes || lanes[key].inFlight > 0
    {
      FinishInv(view, w, maxWorkers);
      FinishNeeds(view, w, maxWorkers);
      next, started := FinishStep(key, queued, w);
    }

    method FinishStep(key: Key, queued: bool, ghost w: nat)
      returns (next: Option<QueuedMsg>, started: seq<(Key, QueuedMsg)>)
      requires Wired() && w < |view.turns| && view.turns[w].key == key && view.turns[w].queued == queued
      requires key in lanes && !lanes[key].interactive ==>
        lanes[key].inFlight == 1 && forall i | 1 <= i < |view.lanes[key].queue| :: |view.lanes[key].queue[i]| == 1
      modifies this`lanes, this`readyLanes, this`runningLanes, this`view, lanes.Values
      ensures Wired() && lanes.Values <= old(lanes.Values)
      ensures view == Finish(old(view), w, maxWorkers)
      ensures Ran(old(view.turns), view.turns, if next.Some? then [(key, next.value)] else started)
      ensures next.Some? ==> started == []
      ensures next.None? ==> key !in lanes || lanes[key].inFlight > 0
    {
      if key !in lanes {
        view := view.(live := view.live - {w});
        return None, [];
      }
      if lanes[key].interactive {
        next, started := FinishInteractive(key, lanes[key], queued, w);
      } else {
        next, started := FinishNormal(key, lanes[key], w);
      }
    }

    method FinishInteractive(key: Key, l: LaneObj, queued: bool, ghost w: nat)
      returns (next: Option<QueuedMsg>, started: seq<(Key, QueuedMsg)>)
      requires Wired() && w < |view.turns| && view.turns[w].key == key && view.turns[w].queued == queued
      requires key in lanes && lanes[key] == l && l.interactive
      modifies this`lanes, this`readyLanes, this`runningLanes, this`view, lanes.Values
      ensures Wired() && lanes.Values <= old(lanes.Values)
      ensures view == Finish(old(view), w, maxWorkers)
      ensures Ran(old(view.turns), view.turns, if next.Some? then [(key, next.value)] else started)
      ensures next.Some? ==> started == []
      ensures key in lanes ==> lanes[key].inFlight > 0
    {
      TakeOut(key, l, queued, w);
      if l.inFlight > 0 {
        Adopt(key, Leave(view, w));
        return None, [];
      }
      if |l.queue| > 0 {
        var head := GoOn(key, l, w);
        return Some(head), [];
      }
      next := None;
      started := Release(key, l, w);
    }

    /** Same lane, same slot: the backlog's head is next. */
    method GoOn(key: Key, l: LaneObj, ghost w: nat) returns (head: QueuedMsg)
      requires WiredBut(key) && key in view.lanes && lanes[key] == l && w < |view.turns| && view.turns[w].key == key
      requires l.queue != [] && l.queue == Folded(Remaining(view, w))
      requires view.lanes[key].interactive && l.interactive && l.running == view.lanes[key].running
      modifies this`view, l`inFlight
      ensures Wired() && view == Chain(old(view), w, Remaining(old(view), w))
      ensures Ran(old(view.turns), view.turns, [(key, head)]) && lanes[key].inFlight == 1
    {
      l.inFlight := 1;
      head := l.queue[0];
      Adopt(key, Chain(view, w, Remaining(view, w)));
    }

    /** One turn fewer in flight; a queue-born one leaves the queue. */
    method TakeOut(key: Key, l: LaneObj, queued: bool, ghost w: nat)
      requires Wired() && w < |view.turns| && view.turns[w].key == key && view.turns[w].queued == queued
      requires key in lanes && lanes[key] == l && l.interactive
      modifies l
      ensures WiredBut(key) && l.queue == Folded(Remaining(view, w))
      ensures l.inFlight == old(l.inFlight) - 1 && l.running == old(l.running) && l.interactive == old(l.interactive)
    {
      l.inFlight := l.inFlight - 1;
      if queued && |l.queue| > 0 {
        FoldedPopped(view.lanes[key].queue);
        l.queue := l.queue[1..];
      }
    }

    method FinishNormal(key: Key, l: LaneObj, ghost w: nat)
      returns (next: Option<QueuedMsg>, started: seq<(Key, QueuedMsg)>)
      requires Wired() && w < |view.turns| && view.turns[w].key == key
      requires key in lanes && lanes[key] == l && !l.interactive && l.inFlight == 1
      requires forall i | 1 <= i < |view.lanes[key].queue| :: |view.lanes[key].queue[i]| == 1
      modifies this`lanes, this`readyLanes, this`runningLanes, this`view, lanes.Values
      ensures Wired() && lanes.Values <= old(lanes.Values)
      ensures view == Finish(old(view), w, maxWorkers)
      ensures Ran(old(view.turns), view.turns, if next.Some? then [(key, next.value)] else started)
      ensures next.Some? ==> started == []
      ensures key in lanes ==> lanes[key].inFlight > 0
    {
      ghost var q := Popped(view.lanes[key].queue);
      if |l.queue| > 0 {
        FoldedPopped(view.lanes[key].queue);
        l.queue := l.queue[1..];
      }
      if |l.queue| > 0 {
        MergeBacklog(l, q);
        next, started := Some(l.queue[0]), [];
        Adopt(key, Chain(view, w, MergeGroups(q)));
        return;
      }
      next := None;
      started := Release(key, l, w);
    }

    method MergeBacklog(l: LaneObj, ghost gs: seq<Group>)
      requires gs != [] && l.queue == Folded(gs) && forall i | 0 <= i < |gs| :: |gs[i]| == 1
      modifies l`queue
      ensures l.queue == Folded(MergeGroups(gs))
    {
      MergeGroupsFolds(gs);
      l.queue := MergeQueuedHead(l.queue);
    }

    /** The drained lane goes; its slot passes on. */
    method Release(key: Key, l: LaneObj, ghost w: nat) returns (started: seq<(Key, QueuedMsg)>)
      requires WiredBut(key) && key in view.lanes && lanes[key] == l && w < |view.turns| && view.turns[w].key == key
      modifies this`lanes, this`readyLanes, this`runningLanes, this`view, lanes.Values
      ensures Wired() && lanes == old(lanes) - {key}
      ensures view == Schedule(Free(old(view), w), maxWorkers)
      ensures Ran(old(view.turns), view.turns, started)
    {
      l.running := false;
      lanes := lanes - {key};
      runningLanes := runningLanes - 1;
      view := Free(view, w);
      started := ScheduleLocked();
    }
  }
}

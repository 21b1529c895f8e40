/** host/narration.go: the gate that throttles narration on its way to the user.
    Times are nanoseconds on one clock; an event says how long after the previous
    one it happens. */
module NarrationGate {
  import opened GoText
  import Narration

  const WINDOW: nat := 4_000_000_000
  const MAX_RUNES: nat := 300

  /** host/util.go. */
  function Truncate(s: string, n: nat): (r: string)
    ensures |r| <= n
    ensures |s| <= n ==> r == s
  {
    if |s| <= n then s else if n <= 1 then s[..n] else s[..n - 1] + "\U{2026}"
  }

  /** One call of send: the texts handed over, the message made of them. */
  datatype Send = Send(texts: seq<string>, message: string, at: int, closing: bool)

  /** timer: when the armed timer is due; last: when the latest message went out. */
  datatype State = State(
    buf: seq<string>, timer: Option<int>, last: Option<int>, closed: bool, clock: int, sent: seq<Send>)

  /** lag: time between Add's reading of the clock and its flush. */
  datatype Event = Add(text: string, gap: nat, lag: nat) | Fire(gap: nat) | Close(gap: nat)

  function Flush(s: State, closing: bool): State {
    if s.buf == [] then s
    else s.(buf := [], last := Some(s.clock),
            sent := s.sent + [Send(s.buf, Truncate(Join(s.buf, "\n"), MAX_RUNES), s.clock, closing)])
  }

  function Wait(s: State): int {
    if s.last.None? then 0 else WINDOW - (s.clock - s.last.value)
  }

  function Put(s: State, t: string, lag: nat): State {
    if t == "" || s.closed then s
    else
      var v := s.(buf := s.buf + [t]);
      if v.timer.Some? then v
      else if Wait(v) <= 0 then Flush(v.(clock := v.clock + lag), false)
      else v.(timer := Some(v.clock + Wait(v)))
  }

  function Step(s: State, e: Event): State {
    match e
    case Add(text, gap, lag) => Put(s.(clock := s.clock + gap), TrimSpace(text), lag)
    case Fire(gap) =>
      if s.timer.Some? && s.timer.value <= s.clock + gap
      then Flush(s.(clock := s.clock + gap, timer := None), false)
      else s
    case Close(gap) =>
      var u := s.(clock := s.clock + gap);
      if u.closed then u else Flush(u.(timer := None), true).(closed := true)
  }

  function After(evs: seq<Event>): State {
    if evs == [] then State([], None, None, false, 0, [])
    else Step(After(evs[..|evs| - 1]), evs[|evs| - 1])
  }

  // ------------------------------------------------------- what was asked of it

  predicate Closed(evs: seq<Event>) {
    exists i | 0 <= i < |evs| :: evs[i].Close?
  }

  /** The texts added before the first Close, in order. */
  function Added(evs: seq<Event>): seq<string> {
    if evs == [] then []
    else
      var f, e := evs[..|evs| - 1], evs[|evs| - 1];
      Added(f) + Contribution(e, Closed(f))
  }

  function Contribution(e: Event, closed: bool): seq<string> {
    if e.Add? then Kept(TrimSpace(e.text), closed) else []
  }

  function Kept(t: string, closed: bool): seq<string> {
    if t == "" || closed then [] else [t]
  }

  /** Everything the sends handed over. */
  function Delivered(sent: seq<Send>): seq<string> {
    if sent == [] then [] else Delivered(sent[..|sent| - 1]) + sent[|sent| - 1].texts
  }

  lemma DeliveredSnoc(sent: seq<Send>, d: Send)
    ensures Delivered(sent + [d]) == Delivered(sent) + d.texts
  {
    assert (sent + [d])[..|sent|] == sent;
  }

  // ------------------------------------------------------------ the invariant

  /** Messages other than the closing one keep their distance. */
  predicate Spaced(sent: seq<Send>) {
    forall i | 0 < i < |sent| :: sent[i].closing || sent[i - 1].at + WINDOW <= sent[i].at
  }

  predicate OwnMessage(d: Send) {
    d.texts != [] && d.message == Truncate(Join(d.texts, "\n"), MAX_RUNES)
  }

  /** The sends so far, the latest of them at last. */
  predicate Log(sent: seq<Send>, last: Option<int>, clock: int) {
    && (last.None? <==> sent == [])
    && (sent != [] ==> last.value == sent[|sent| - 1].at <= clock)
    && Spaced(sent)
    && (forall i | 0 <= i < |sent| :: OwnMessage(sent[i]))
  }

  predicate Inv(s: State) {
    && (s.timer.Some? <==> s.buf != [])
    && (s.closed ==> s.buf == [])
    && (s.timer.Some? ==> s.last.Some? && s.timer.value == s.last.value + WINDOW)
    && Log(s.sent, s.last, s.clock)
    && (!s.closed ==> forall i | 0 <= i < |s.sent| :: !s.sent[i].closing)
  }

  predicate Due(last: Option<int>, clock: int) {
    last.None? || last.value + WINDOW <= clock
  }

  lemma LogSnoc(sent: seq<Send>, last: Option<int>, clock: int, d: Send)
    requires Log(sent, last, clock) && OwnMessage(d) && d.at == clock && (d.closing || Due(last, clock))
    ensures Log(sent + [d], Some(clock), clock)
  {
    var z := sent + [d];
    forall i | 0 < i < |z| ensures z[i].closing || z[i - 1].at + WINDOW <= z[i].at {
      if i < |sent| { assert z[i] == sent[i] && z[i - 1] == sent[i - 1]; }
    }
  }

  lemma FlushInv(s: State, closing: bool)
    requires s.timer.None? && !s.closed && (closing || Due(s.last, s.clock))
    requires Log(s.sent, s.last, s.clock) && forall i | 0 <= i < |s.sent| :: !s.sent[i].closing
    ensures var z := Flush(s, closing);
      (!closing ==> Inv(z)) && Inv(z.(closed := true)) && z.buf == []
      && Delivered(z.sent) == Delivered(s.sent) + s.buf
  {
    if s.buf != [] {
      var d := Send(s.buf, Truncate(Join(s.buf, "\n"), MAX_RUNES), s.clock, closing);
      LogSnoc(s.sent, s.last, s.clock, d);
      DeliveredSnoc(s.sent, d);
    } else {
      assert Delivered(s.sent) + [] == Delivered(s.sent);
    }
  }

  /** Add with no timer armed: the text goes out at once or arms one. */
  lemma PutIdle(s: State, t: string, lag: nat)
    requires Inv(s) && !s.closed && s.timer.None? && t != ""
    ensures var z := Put(s, t, lag);
      Inv(z) && !z.closed && Delivered(z.sent) + z.buf == Delivered(s.sent) + (s.buf + [t])
  {
    var v := s.(buf := s.buf + [t]);
    if Wait(v) <= 0 {
      FlushInv(v.(clock := v.clock + lag), false);
      assert (Delivered(v.sent) + v.buf) + [] == Delivered(v.sent) + v.buf;
    }
  }

  lemma PutInv(s: State, t: string, lag: nat)
    requires Inv(s)
    ensures var z := Put(s, t, lag);
      Inv(z) && z.closed == s.closed
      && Delivered(z.sent) + z.buf == (Delivered(s.sent) + s.buf) + if t == "" || s.closed then [] else [t]
  {
    var done := Delivered(s.sent);
    if t == "" || s.closed {
      assert done + s.buf + [] == done + s.buf;
    } else {
      assert done + (s.buf + [t]) == done + s.buf + [t];
      if s.timer.None? { PutIdle(s, t, lag); }
    }
  }

  lemma FireInv(s: State, gap: nat)
    requires Inv(s)
    ensures var z := Step(s, Fire(gap));
      Inv(z) && z.closed == s.closed && Delivered(z.sent) + z.buf == Delivered(s.sent) + s.buf
  {
    if s.timer.Some? && s.timer.value <= s.clock + gap {
      var u := s.(clock := s.clock + gap, timer := None);
      FlushInv(u, false);
      assert (Delivered(s.sent) + s.buf) + [] == Delivered(s.sent) + s.buf;
    }
  }

  lemma CloseInv(s: State, gap: nat)
    requires Inv(s)
    ensures var z := Step(s, Close(gap));
      Inv(z) && z.closed && z.buf == [] && Delivered(z.sent) + z.buf == Delivered(s.sent) + s.buf
  {
    if !s.closed {
      FlushInv(s.(clock := s.clock + gap, timer := None), true);
      assert (Delivered(s.sent) + s.buf) + [] == Delivered(s.sent) + s.buf;
    }
  }

  lemma ClosedSnoc(f: seq<Event>, e: Event)
    ensures Closed(f + [e]) <==> Closed(f) || e.Close?
  {
    var evs := f + [e];
    assert evs[|f|] == e;
    if Closed(f) { var i :| 0 <= i < |f| && f[i].Close?; assert evs[i].Close?; }
    if Closed(evs) && !e.Close? { var i :| 0 <= i < |evs| && evs[i].Close?; assert f[i].Close?; }
  }

  /** Over all runs: the buffer is non-empty iff the timer is armed, always for the
      last message plus one window; messages other than the closing one are a
      window apart; and what was delivered plus what is buffered is exactly what
      was added before Close, in order. */
  lemma GateInvariant(evs: seq<Event>)
    ensures Inv(After(evs)) && Spaced(After(evs).sent)
    ensures After(evs).timer.Some? <==> After(evs).buf != []
    ensures After(evs).closed <==> Closed(evs)
    ensures Delivered(After(evs).sent) + After(evs).buf == Added(evs)
  {
    GateRun(evs);
  }

  /** s is where events that added just this lead. */
  ghost predicate Agrees(s: State, added: seq<string>, closed: bool) {
    Inv(s) && s.closed == closed && Delivered(s.sent) + s.buf == added
  }

  lemma {:induction false} GateRun(evs: seq<Event>)
    ensures Agrees(After(evs), Added(evs), Closed(evs))
  {
    if evs == [] {
      assert After(evs) == State([], None, None, false, 0, []);
    } else {
      var f, e := evs[..|evs| - 1], evs[|evs| - 1];
      GateRun(f);
      assert evs == f + [e];
      ClosedSnoc(f, e);
      GateStep(After(f), e, Added(f));
    }
  }

  lemma GateStep(s: State, e: Event, added: seq<string>)
    requires Agrees(s, added, s.closed)
    ensures Agrees(Step(s, e), added + Contribution(e, s.closed), s.closed || e.Close?)
  {
    match e
    case Add(text, gap, lag) => AddStep(s, e, added);
    case Fire(gap) =>
      FireInv(s, gap);
      Unchanged(s, Step(s, e), added);
    case Close(gap) =>
      CloseInv(s, gap);
      Unchanged(s, Step(s, e), added);
  }

  lemma Unchanged(s: State, z: State, added: seq<string>)
    requires Inv(z) && Delivered(s.sent) + s.buf == added && Delivered(z.sent) + z.buf == Delivered(s.sent) + s.buf
    ensures Agrees(z, added + [], z.closed)
  {
    assert added + [] == added;
  }

  lemma AddStep(s: State, e: Event, added: seq<string>)
    requires e.Add? && Agrees(s, added, s.closed)
    ensures Agrees(Step(s, e), added + Contribution(e, s.closed), s.closed)
  {
    LaterAgrees(s, e.gap, added);
    AddAgrees(Later(s, e.gap), TrimSpace(e.text), e.lag, added);
  }

  function Later(s: State, gap: nat): State { s.(clock := s.clock + gap) }

  lemma LaterAgrees(s: State, gap: nat, added: seq<string>)
    requires Agrees(s, added, s.closed)
    ensures Agrees(Later(s, gap), added, s.closed)
  {}

  lemma AddAgrees(u: State, t: string, lag: nat, added: seq<string>)
    requires Agrees(u, added, u.closed)
    ensures Agrees(Put(u, t, lag), added + Kept(t, u.closed), u.closed)
  {
    PutInv(u, t, lag);
  }

  /** Once closed, everything added has been handed over exactly once, in order. */
  lemma ClosedDeliveredAll(evs: seq<Event>)
    requires Closed(evs)
    ensures Delivered(After(evs).sent) == Added(evs)
  {
    GateInvariant(evs);
    assert Delivered(After(evs).sent) + [] == Delivered(After(evs).sent);
  }

  /** And nothing is sent after that, whatever timer was on its way. */
  lemma {:induction false} SilentAfterClose(evs: seq<Event>, more: seq<Event>)
    requires Closed(evs)
    ensures After(evs + more).sent == After(evs).sent
    decreases |more|
  {
    if more == [] {
      assert evs + more == evs;
    } else {
      var m := more[..|more| - 1];
      SilentAfterClose(evs, m);
      assert (evs + more)[..|evs + more| - 1] == evs + m;
      GateInvariant(evs + m);
      var i :| 0 <= i < |evs| && evs[i].Close?;
      assert (evs + m)[i].Close?;
    }
  }

  // ------------------------------------------------------- what the user reads

  /** The messages handed to the user, in order. */
  function Messages(sent: seq<Send>): (m: seq<string>)
    ensures |m| == |sent|
    ensures forall i | 0 <= i < |sent| :: m[i] == sent[i].message
  {
    seq(|sent|, i requires 0 <= i < |sent| => sent[i].message)
  }

  /** What they would be uncut. */
  function Whole(sent: seq<Send>): (m: seq<string>)
    ensures |m| == |sent|
    ensures forall i | 0 <= i < |sent| :: m[i] == Join(sent[i].texts, "\n")
  {
    seq(|sent|, i requires 0 <= i < |sent| => Join(sent[i].texts, "\n"))
  }

  /** No message was too long. */
  predicate AllFit(sent: seq<Send>) {
    forall i | 0 <= i < |sent| :: |Join(sent[i].texts, "\n")| <= MAX_RUNES
  }

  lemma {:induction false} JoinLength(a: seq<string>, b: seq<string>)
    requires |a| == |b| && forall i | 0 <= i < |a| :: |a[i]| <= |b[i]|
    ensures |Join(a, "\n")| <= |Join(b, "\n")|
    ensures |Join(a, "\n")| == |Join(b, "\n")| ==> forall i | 0 <= i < |a| :: |a[i]| == |b[i]|
  {
    if |a| > 1 { JoinLength(a[1..], b[1..]); }
  }

  lemma {:induction false} WholeIsDelivered(sent: seq<Send>)
    requires forall i | 0 <= i < |sent| :: sent[i].texts != []
    ensures Join(Whole(sent), "\n") == Join(Delivered(sent), "\n")
    ensures sent != [] ==> Delivered(sent) != []
  {
    if sent != [] {
      var f, d := sent[..|sent| - 1], sent[|sent| - 1];
      WholeIsDelivered(f);
      var w := Join(d.texts, "\n");
      assert Whole(sent) == Whole(f) + [w];
      assert Delivered(sent) == Delivered(f) + d.texts;
      if f == [] {
        assert Whole(sent) == [w] && Delivered(sent) == d.texts;
      } else {
        JoinTwo(Whole(f), [w], "\n");
        JoinTwo(Delivered(f), d.texts, "\n");
      }
    }
  }

  lemma WholeWhenFit(sent: seq<Send>)
    requires (forall i | 0 <= i < |sent| :: OwnMessage(sent[i])) && AllFit(sent)
    ensures Messages(sent) == Whole(sent)
  {
    forall i | 0 <= i < |sent| ensures Messages(sent)[i] == Whole(sent)[i] { assert OwnMessage(sent[i]); }
  }

  lemma ShorterWhenNot(sent: seq<Send>)
    requires (forall i | 0 <= i < |sent| :: OwnMessage(sent[i])) && !AllFit(sent)
    ensures |Join(Messages(sent), "\n")| < |Join(Whole(sent), "\n")|
  {
    var a, b := Messages(sent), Whole(sent);
    forall i | 0 <= i < |sent| ensures |a[i]| <= |b[i]| { assert OwnMessage(sent[i]); }
    JoinLength(a, b);
    var i :| 0 <= i < |sent| && |Join(sent[i].texts, "\n")| > MAX_RUNES;
    assert |a[i]| < |b[i]| by { assert OwnMessage(sent[i]); }
  }

  /** Read one under the other, the messages are what was delivered iff none was cut. */
  lemma MessagesWholeIff(sent: seq<Send>)
    requires forall i | 0 <= i < |sent| :: OwnMessage(sent[i])
    ensures Join(Messages(sent), "\n") == Join(Delivered(sent), "\n") <==> AllFit(sent)
  {
    forall i | 0 <= i < |sent| ensures sent[i].texts != [] { assert OwnMessage(sent[i]); }
    WholeIsDelivered(sent);
    if AllFit(sent) { WholeWhenFit(sent); } else { ShorterWhenNot(sent); }
  }

  /** Tracker and gate together: if the gate is given what the tracker relays, then by
      the end of the turn the texts a tool call confirmed have been handed to sends,
      each to one and in order; and what the user reads is those texts, whole, iff no
      send had more than 300 characters to say. */
  lemma NarrationReachesUser(lines: seq<Narration.Line>, evs: seq<Event>)
    requires Closed(evs) && Added(evs) == Narration.Outs(lines)
    ensures var sigs, sent := Narration.Signals(lines), After(evs).sent;
      var confirmed := Join(Narration.ConfirmedTexts(sigs, |sigs|), "\n");
      && Join(Delivered(sent), "\n") == confirmed
      && (Join(Messages(sent), "\n") == confirmed <==> AllFit(sent))
  {
    ClosedDeliveredAll(evs);
    Narration.OutsAreConfirmed(lines);
    SentOwn(evs);
    MessagesWholeIff(After(evs).sent);
  }

  lemma SentOwn(evs: seq<Event>)
    ensures forall i | 0 <= i < |After(evs).sent| :: OwnMessage(After(evs).sent[i])
  {
    GateInvariant(evs);
  }

  /** The message of a text: the text, or of a longer one the first 299 characters and an
      ellipsis. */
  predicate Shown(message: string, text: string) {
    if |text| <= 300 then message == text
    else |message| == 300 && message[..299] == text[..299] && message[299] == '\U{2026}'
  }

  /** In every run each message shows the texts it was made of, line under line. */
  lemma MessageShows(evs: seq<Event>, i: nat)
    requires i < |After(evs).sent|
    ensures var d := After(evs).sent[i]; d.texts != [] && Shown(d.message, Join(d.texts, "\n"))
  {
    SentOwn(evs);
    assert OwnMessage(After(evs).sent[i]);
  }

  /** Four seconds, in nanoseconds. */
  const FOUR_SECONDS: int := 4 * 1_000_000_000

  /** What adding t does, z being what u becomes. */
  predicate TextAdded(u: State, z: State, t: string) {
    if t == "" || u.closed then z == u
    else if u.buf == [] && (u.sent == [] || u.clock - u.sent[|u.sent| - 1].at >= FOUR_SECONDS) then
      |z.sent| == |u.sent| + 1 && z.sent[..|u.sent|] == u.sent && z.sent[|u.sent|].texts == [t] && z.buf == []
    else
      && z.sent == u.sent && z.buf == u.buf + [t]
      && u.sent != [] && z.timer == Some(u.sent[|u.sent| - 1].at + FOUR_SECONDS)
  }

  lemma PutOutcome(u: State, t: string, lag: nat)
    requires Inv(u)
    ensures TextAdded(u, Put(u, t, lag), t)
  {
    assert [] + [t] == [t];
  }

  /** What becomes of a text that is added in a run: it goes out by itself at once if nothing
      is waiting and nothing went out in the four seconds before; otherwise it waits, until
      four seconds after the last message; a blank one, or one after Close, is dropped. */
  lemma AddOutcome(evs: seq<Event>, text: string, gap: nat, lag: nat)
    ensures After(evs).closed <==> Closed(evs)
    ensures TextAdded(Later(After(evs), gap), After(evs + [Add(text, gap, lag)]), TrimSpace(text))
  {
    GateInvariant(evs);
    AfterSnoc(evs, Add(text, gap, lag));
    AddTo(After(evs), text, gap, lag);
  }

  lemma AfterSnoc(evs: seq<Event>, e: Event)
    ensures After(evs + [e]) == Step(After(evs), e)
  {
    assert (evs + [e])[..|evs|] == evs;
  }

  lemma AddTo(s: State, text: string, gap: nat, lag: nat)
    requires Inv(s)
    ensures TextAdded(Later(s, gap), Step(s, Add(text, gap, lag)), TrimSpace(text))
  {
    assert Inv(Later(s, gap));
    PutOutcome(Later(s, gap), TrimSpace(text), lag);
  }

  /** One narration of 301 characters: the user reads 299 of them and an ellipsis. */
  lemma LongNarrationIsCut() returns (text: string)
    ensures |text| == MAX_RUNES + 1
    ensures var sent := After([Add(text, 0, 0), Close(0)]).sent;
      Delivered(sent) == [text] && Messages(sent) == [text[..299] + "\U{2026}"] && !AllFit(sent)
  {
    text := seq(MAX_RUNES + 1, _ => 'a');
    assert Clean(text);
    TrimSpaceClean(text);
    var evs := [Add(text, 0, 0)];
    assert [Add(text, 0, 0), Close(0)][..1] == evs && evs[..0] == [];
    var d := Send([text], Truncate(text, MAX_RUNES), 0, false);
    var s0 := State([], None, None, false, 0, []);
    assert After([]) == s0 && After(evs) == Put(s0, text, 0);
    assert [] + [text] == [text] && [] + [d] == [d] && Join([text], "\n") == text;
    assert After(evs) == State([], None, Some(0), false, 0, [d]);
    DeliveredSnoc([], d);
    assert [] + [d] == [d] && Delivered([]) + [text] == [text];
    assert Messages([d]) == [d.message];
    assert !AllFit([d]) by { assert [d][0].texts == [text]; }
  }

  // -------------------------------------------------------------- the program

  class Gate {
    var buf: seq<string>
    var timer: Option<int>
    var last: Option<int>
    var closed: bool
    ghost var clock: int
    ghost var sent: seq<Send>

    ghost function View(): State
      reads this
    {
      State(buf, timer, last, closed, clock, sent)
    }

    constructor ()
      ensures View() == After([])
    {
      buf, timer, last, closed := [], None, None, false;
      clock, sent := 0, [];
    }

    /** now: the clock when the wait is computed; at: when a flush reads it again. */
    method Add(text: string, now: int, at: int) returns (message: Option<string>)
      requires Inv(View()) && clock <= now <= at
      modifies this
      ensures View() == Step(old(View()), Event.Add(text, now - old(clock), at - now))
      ensures Carried(old(sent), message)
    {
      clock := now;
      var t := TrimSpace(text);
      if t == "" || closed {
        return None;
      }
      buf := buf + [t];
      if timer.Some? {
        return None;
      }
      var wait := if last.None? then 0 else WINDOW - (now - last.value);
      if wait <= 0 {
        clock := at;
        message := FlushLocked(at, false);
        return;
      }
      timer := Some(now + wait);
      message := None;
    }

    /** The timer's callback; one that Close did not stop in time finds it closed. */
    method TimerFired(now: int) returns (message: Option<string>)
      requires Inv(View()) && clock <= now
      requires closed || (timer.Some? && timer.value <= now)
      modifies this
      ensures !old(closed) ==> View() == Step(old(View()), Event.Fire(now - old(clock)))
      ensures old(closed) ==> View() == old(View())
      ensures Carried(old(sent), message)
    {
      timer := None;
      message := None;
      if !closed {
        clock := now;
        message := FlushLocked(now, false);
      }
    }

    method Close(now: int) returns (message: Option<string>)
      requires Inv(View()) && clock <= now
      modifies this
      ensures View() == Step(old(View()), Event.Close(now - old(clock)))
      ensures Carried(old(sent), message)
    {
      clock := now;
      if closed {
        return None;
      }
      timer := None;
      message := FlushLocked(now, true);
      closed := true;
    }

    /** message is the one send of this step, if any. */
    ghost predicate Carried(before: seq<Send>, message: Option<string>)
      reads this
    {
      match message
      case None => sent == before
      case Some(m) => |sent| == |before| + 1 && sent[..|before|] == before && sent[|before|].message == m
    }

    method FlushLocked(now: int, ghost closing: bool) returns (message: Option<string>)
      requires clock == now
      modifies this
      ensures View() == Flush(old(View()), closing)
      ensures Carried(old(sent), message)
    {
      if |buf| == 0 {
        return None;
      }
      var text := Truncate(Join(buf, "\n"), MAX_RUNES);
      sent := sent + [Send(buf, text, now, closing)];
      buf := [];
      last := Some(now);
      message := Some(text);
    }
  }
}

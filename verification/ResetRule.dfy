/** host/manager.go: when a worker turn gives up its session, told from what happened
    before it - what the runs of earlier turns reported, and when those turns ended -
    over any sequence of turns. */
module ResetRule {
  import opened GoText
  import opened Session

  /** What a run reports of its context: nothing if it did not authenticate. */
  function Tokens(o: Outcome): int {
    match o
    case Answer(_, _, n) => n
    case OverflowBody(_, _, n) => n
    case ErrorBody(_, _, _, n) => n
    case _ => 0
  }

  /** Turn x as it goes on record c. */
  function TurnOn(c: Conv, k: Sink, x: Round): Turned { WorkerTurn(c, x.live, x.b, k, x.e) }

  /** The record was in a session, and the turn does not go on in it. */
  predicate GivesUp(c: Conv, k: Sink, x: Round) {
    c.started && TrimSpace(c.sessionID) != "" && TurnOn(c, k, x).runs != [] && !TurnOn(c, k, x).runs[0].resume
  }

  function Counter(c: Conv, b: Backend): int {
    match b
    case Claude => c.claudeTokens
    case Codex => c.codexTokens
    case OpenCode => 0
  }

  /** The size of backend b's session, as far as is known: what the last successful turn
      on b reported, unless a session was given up or the record changed since. */
  function Reported(c: Conv, k: Sink, es: seq<Round>, b: Backend): int {
    if es == [] then Counter(c, b)
    else
      var f, x := es[..|es| - 1], es[|es| - 1];
      var d := Live(c, k, f).saved;
      var t := TurnOn(d, k, x);
      if t.ok && x.b == b && !b.OpenCode? then Tokens(LastOutcome(d, x.live, x.b, k, x.e))
      else if t.parent.Some? || GivesUp(d, k, x) then 0
      else Reported(c, k, f, b)
  }

  /** When the last successful turn ended. */
  function LastEnd(c: Conv, k: Sink, es: seq<Round>): Option<int> {
    if es == [] then c.lastAt
    else
      var f, x := es[..|es| - 1], es[|es| - 1];
      if TurnOn(Live(c, k, f).saved, k, x).ok then Some(x.e.doneAt) else LastEnd(c, k, f)
  }

  /** Sixty minutes, in nanoseconds. */
  const HOUR := 60 * 60 * 1_000_000_000

  /** Too large, or - claude only - half as large and its cache cold. */
  predicate TooLarge(b: Backend, n: int, end: Option<int>, now: int) {
    match b
    case Claude => n >= 100_000 || (n >= 50_000 && end.Some? && now - end.value >= HOUR)
    case Codex => n >= 200_000
    case OpenCode => false
  }

  /** The first run of a turn, in terms of the record. */
  lemma FirstRun(c: Conv, k: Sink, x: Round)
    ensures var rs := TurnOn(c, k, x).runs;
      var large := TooLarge(x.b, Counter(c, x.b), c.lastAt, x.e.startAt);
      && rs != []
      && rs[0] == (if TrimSpace(c.sessionID) == "" || (c.started && large && x.b.Claude?) then Req(x.e.mint, false)
                   else Req(c.sessionID, c.started && !large))
      && (TurnOn(c, k, x).reset <==> GivesUp(c, k, x))
  {
    AttemptFirst(Pending(Decide(c, x.b, x.e), x.e), x.live, x.b, x.e);
    var p := Pending(Decide(c, x.b, x.e), x.e);
    RunsGrow(p, |c.history|, x.b, k, x.e, Attempt(p, x.live, x.b, x.e), Resets(c, x.b, x.e));
  }

  lemma AttemptFirst(p: Conv, live: set<string>, b: Backend, e: Script)
    ensures Attempt(p, live, b, e).runs != [] && Attempt(p, live, b, e).runs[0] == Req(p.sessionID, p.started)
  {}

  lemma RunsGrow(p: Conv, i: int, b: Backend, k: Sink, e: Script, a: Tried, reset: bool)
    ensures a.runs <= Conclude(p, i, b, k, e, a, reset).runs
  {}

  /** What one turn leaves of the counters. */
  lemma CountersLeft(c: Conv, k: Sink, x: Round, b: Backend)
    ensures var t := TurnOn(c, k, x);
      Counter(t.saved, b) ==
        if t.ok && x.b == b && !b.OpenCode? then Tokens(LastOutcome(c, x.live, x.b, k, x.e))
        else if t.parent.Some? || t.reset then 0
        else Counter(c, b)
    ensures var t := TurnOn(c, k, x); t.ok ==> t.saved.lastAt == Some(x.e.doneAt)
    ensures var t := TurnOn(c, k, x); !t.ok ==> t.saved.lastAt == c.lastAt
  {
    var p := Pending(Decide(c, x.b, x.e), x.e);
    var a := Attempt(p, x.live, x.b, x.e);
    AttemptTokens(p, x.live, x.b, x.e);
    ConcludeCounters(p, |c.history|, x.b, k, x.e, a, Resets(c, x.b, x.e), b);
    assert Counter(p, b) == if Resets(c, x.b, x.e) then 0 else Counter(c, b);
  }

  lemma AttemptTokens(p: Conv, live: set<string>, b: Backend, e: Script)
    ensures var t := Attempt(p, live, b, e);
      t.reply.Done? ==>
        && t.reply.tokens == Tokens(if |t.runs| == 2 then e.run2 else e.run1)
        && (t.reply.overflow <==> (if |t.runs| == 2 then e.run2 else e.run1).OverflowBody?)
        && (t.reply.auth ==> !t.reply.overflow)
  {}

  lemma ConcludeCounters(p: Conv, i: int, b: Backend, k: Sink, e: Script, a: Tried, reset: bool, m: Backend)
    ensures var t := Conclude(p, i, b, k, e, a, reset);
      var third := a.reply.Done? && a.reply.overflow && !a.reply.auth && k != Forking(false);
      && (t.ok ==> a.reply.Done?)
      && Counter(t.saved, m) ==
           (if t.ok && b == m && !m.OpenCode? then (if third then Tokens(e.run3) else a.reply.tokens)
            else if t.parent.Some? then 0 else Counter(p, m))
      && t.saved.lastAt == (if t.ok then Some(e.doneAt) else p.lastAt)
  {}

  /** The record knows what was reported and when, whatever else happened. */
  lemma {:induction false} SizeKnown(c: Conv, k: Sink, es: seq<Round>, b: Backend)
    ensures Counter(Live(c, k, es).saved, b) == Reported(c, k, es, b)
    ensures Live(c, k, es).saved.lastAt == LastEnd(c, k, es)
  {
    if es != [] {
      var f, x := es[..|es| - 1], es[|es| - 1];
      SizeKnown(c, k, f, b);
      CountersLeft(Live(c, k, f).saved, k, x, b);
      FirstRun(Live(c, k, f).saved, k, x);
    }
  }

  /** After any turns, a turn of a started conversation goes on in its session, or gives
      it up, and does that exactly if: it is a claude turn, and the last claude report
      since the session was new is of 100000 tokens, or of 50000 and the last answer an
      hour old; or it is a codex turn, and the last codex report is of 200000. A claude
      session given up for size gets a new id. */
  lemma GivenUpIff(c: Conv, k: Sink, es: seq<Round>, x: Round)
    requires Live(c, k, es).saved.started && TrimSpace(Live(c, k, es).saved.sessionID) != ""
    ensures var d := Live(c, k, es).saved;
      var n, q := Reported(c, k, es, x.b), TurnOn(d, k, x).runs;
      && q != []
      && (q[0].resume <==> !TooLarge(x.b, n, LastEnd(c, k, es), x.e.startAt))
      && q[0].id == (if q[0].resume || !x.b.Claude? then d.sessionID else x.e.mint)
      && (TurnOn(d, k, x).reset <==> !q[0].resume)
  {
    SizeKnown(c, k, es, x.b);
    FirstRun(Live(c, k, es).saved, k, x);
  }

  /** A conversation with no session starts one: the stored id, or a made-up one where
      there is none. */
  lemma NoneToGiveUp(c: Conv, k: Sink, x: Round)
    requires !c.started || TrimSpace(c.sessionID) == ""
    ensures var t := TurnOn(c, k, x);
      t.runs != [] && t.runs[0] == Req(if TrimSpace(c.sessionID) == "" then x.e.mint else c.sessionID, false) && !t.reset
  {
    FirstRun(c, k, x);
  }

  // ---------------------------------------------------------------- turns counted

  /** The turn counter of the record in use counts the successful turns since that record
      was made; and the record is the one the user was in unless a turn moved on. */
  lemma {:induction false} TurnCountExact(c: Conv, k: Sink, es: seq<Round>)
    ensures var l := Live(c, k, es); Counted(c.turnCount, l.saved.turnCount, l.oks, l.oks, l.forks)
  {
    if es != [] {
      var f, e := es[..|es| - 1], es[|es| - 1];
      TurnCountExact(c, k, f);
      var l0 := Live(c, k, f);
      var t := WorkerTurn(l0.saved, e.live, e.b, k, e.e);
      LiveSnoc(c, k, es, l0, t);
      TurnCounts(l0.saved, k, e);
      CountedSnoc(c.turnCount, l0.saved.turnCount, l0.oks, l0.oks, l0.forks, t.ok, t.ok, t.parent.Some?);
    }
  }

  lemma TurnCounts(c: Conv, k: Sink, x: Round)
    ensures var t := TurnOn(c, k, x);
      && t.saved.turnCount == (if t.parent.Some? then 0 else c.turnCount) + (if t.ok then 1 else 0)
      && t.saved.id == (if t.parent.Some? then x.e.newID else c.id)
  {
    var p := Pending(Decide(c, x.b, x.e), x.e);
    ConcludeCounts(p, |c.history|, x.b, k, x.e, Attempt(p, x.live, x.b, x.e), Resets(c, x.b, x.e));
    assert p.turnCount == c.turnCount && p.id == c.id;
  }

  lemma ConcludeCounts(p: Conv, i: int, b: Backend, k: Sink, e: Script, a: Tried, reset: bool)
    ensures var t := Conclude(p, i, b, k, e, a, reset);
      && t.saved.turnCount == (if t.parent.Some? then 0 else p.turnCount) + (if t.ok then 1 else 0)
      && t.saved.id == (if t.parent.Some? then e.newID else p.id)
  {}

  // ------------------------------------------------------------- after an overflow

  /** The run names the session it made. */
  predicate Named(b: Backend, o: Outcome) {
    b.Claude? || match o
      case Answer(_, reports, _) => reports
      case OverflowBody(_, reports, _) => reports
      case ErrorBody(_, _, reports, _) => reports
      case _ => false
  }

  lemma ConcludeMoved(p: Conv, i: int, b: Backend, k: Sink, e: Script, a: Tried, reset: bool)
    requires a.reply.Done? && a.reply.overflow && !a.reply.auth && k != Forking(false) && e.thread3 != "" && e.mint2 != ""
    ensures var t := Conclude(p, i, b, k, e, a, reset);
      && (t.ok ==> t.saved.started && t.saved.sessionID == if Named(b, e.run3) then t.ranIn else e.mint2)
      && (!t.ok && k.InPlace? && !t.crash ==> !t.saved.started && t.saved.sessionID == e.mint2)
      && (!t.ok && (k.Forking? || t.crash) ==> t.saved == p)
  {}

  /** A turn that went on in a continuation: if it succeeded the record is started and names
      the session that answered, where the run named it; if not, the next turn finds the
      continuation, its session still to be made - or, in another record or after a crash,
      the conversation as it was before. */
  lemma ContinuationLeft(c: Conv, k: Sink, x: Round)
    requires FreshIds(c, x.live, x.e) && Continued(c, x.live, x.b, k, x.e)
    ensures var t := TurnOn(c, k, x);
      && (t.ok ==> t.saved.started && t.saved.sessionID == if Named(x.b, x.e.run3) then t.ranIn else x.e.mint2)
      && (!t.ok && k.InPlace? && !t.crash ==> !t.saved.started && t.saved.sessionID == x.e.mint2)
      && (!t.ok && (k.Forking? || t.crash) ==>
            t.saved.sessionID in {c.sessionID, x.e.mint} && (t.saved.started ==> c.started && t.saved.sessionID == c.sessionID))
  {
    var p := Pending(Decide(c, x.b, x.e), x.e);
    var made := [x.e.mint, x.e.mint2, x.e.thread1, x.e.thread2, x.e.thread3];
    assert made[1] == x.e.mint2 && made[4] == x.e.thread3;
    assert TrimSpace("") == "";
    DecideFacts(c, x.live, x.b, x.e);
    AttemptText(p, x.live, x.b, x.e);
    ConcludeMoved(p, |c.history|, x.b, k, x.e, Attempt(p, x.live, x.b, x.e), Resets(c, x.b, x.e));
  }
}

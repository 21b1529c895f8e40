/** host/manager.go: what the CLI sessions of a conversation are told of it - the prompt
    each run of a worker turn carries, the turns each session has been told, and whether
    the session that answers knows the conversation, over any sequence of turns. */
module TurnContext {
  import opened GoText
  import opened History
  import opened Session
  import opened Summary

  /** What each session has been told, in order. */
  type Knowledge = map<string, seq<ConvTurn>>

  /** What a turn finds when it builds the prompt of its first run, and again for a
      recovery: the best summary, and whether the summarizer answers. */
  datatype Context = Context(best1: Option<Sum>, answers1: bool, best2: Option<Sum>, answers2: bool)

  /** No earlier turns: the prompt of a resume, and of the run in a continuation. */
  const NONE := Prompt(None, [])

  function FirstPrompt(p: Conv, h: seq<ConvTurn>, n: Context): Prompt {
    if p.started then NONE else Prompted(h, n.best1, n.answers1)
  }

  /** The retry starts a session where the first run resumed one, and the other way
      round. */
  function RetryPrompt(p: Conv, h: seq<ConvTurn>, n: Context): Prompt {
    if p.started then Prompted(h, n.best2, n.answers2) else NONE
  }

  /** The prompts of a turn's runs. */
  function Prompts(c: Conv, live: set<string>, b: Backend, k: Sink, e: Script, n: Context): (xs: seq<Prompt>)
    ensures xs != []
  {
    var p := Pending(Decide(c, b, e), e);
    [FirstPrompt(p, c.history, n)]
    + (if |Attempt(p, live, b, e).runs| == 2 then [RetryPrompt(p, c.history, n)] else [])
    + (if Continued(c, live, b, k, e) then [NONE] else [])
  }

  lemma AttemptRuns(p: Conv, live: set<string>, b: Backend, e: Script)
    ensures var rs := Attempt(p, live, b, e).runs;
      rs == [Req(p.sessionID, p.started)] || rs == [Req(p.sessionID, p.started), Req(p.sessionID, !p.started)]
  {}

  lemma ConcludeRuns(p: Conv, i: int, b: Backend, k: Sink, e: Script, a: Tried, reset: bool)
    ensures var r := a.reply;
      Conclude(p, i, b, k, e, a, reset).runs
      == a.runs + if r.Done? && r.overflow && !r.auth && k != Forking(false) then [Req(e.mint2, false)] else []
  {
    assert a.runs + [] == a.runs;
  }

  lemma TurnRuns(c: Conv, live: set<string>, b: Backend, k: Sink, e: Script)
    ensures WorkerTurn(c, live, b, k, e).runs
         == Attempt(Pending(Decide(c, b, e), e), live, b, e).runs
            + if Continued(c, live, b, k, e) then [Req(e.mint2, false)] else []
  {
    var p := Pending(Decide(c, b, e), e);
    AttemptText(p, live, b, e);
    ConcludeRuns(p, |c.history|, b, k, e, Attempt(p, live, b, e), Resets(c, b, e));
  }

  /** Each run has its prompt; a resume is told nothing, and a new session what the
      summary and the tail make of the history, unless it is a continuation's. */
  lemma PromptPerRun(c: Conv, live: set<string>, b: Backend, k: Sink, e: Script, n: Context)
    ensures var t, xs := WorkerTurn(c, live, b, k, e), Prompts(c, live, b, k, e, n);
      && |xs| == |t.runs|
      && (forall i | 0 <= i < |xs| :: xs[i] ==
            if t.runs[i].resume || (Continued(c, live, b, k, e) && i == |xs| - 1) then NONE
            else if i == 0 then Prompted(c.history, n.best1, n.answers1)
            else Prompted(c.history, n.best2, n.answers2))
  {
    var p := Pending(Decide(c, b, e), e);
    TurnRuns(c, live, b, k, e);
    AttemptRuns(p, live, b, e);
  }

  // ------------------------------------------------------------- what is told

  /** The run gets as far as its session, which then has its prompt. */
  predicate Took(live: set<string>, b: Backend, q: Req, o: Outcome) {
    Accepts(live, b, q)
    && match o
       case AuthBody(_) => false
       case ErrorBody(_, made, _, _) => q.resume || made
       case Broken(made) => made
       case Stopped(made, _) => made
       case _ => true
  }

  function Held(m: Knowledge, s: string): seq<ConvTurn> { if s in m then m[s] else [] }

  /** One run with prompt x, in a turn that is stored as turn. */
  function Tell(
      m: Knowledge, live: set<string>, b: Backend, q: Req, o: Outcome, thread: string, x: Prompt, turn: ConvTurn): Knowledge
  {
    if Took(live, b, q, o) then
      var s := SessionOf(b, q, thread);
      m[s := (if q.resume then Held(m, s) else []) + Given(x) + [turn]]
    else m
  }

  /** The first run and its retry. */
  function TellAttempt(
      m: Knowledge, p: Conv, h: seq<ConvTurn>, live: set<string>, b: Backend, e: Script, n: Context, turn: ConvTurn): Knowledge
  {
    var q := Req(p.sessionID, p.started);
    var m1 := Tell(m, live, b, q, e.run1, e.thread1, FirstPrompt(p, h, n), turn);
    if |Attempt(p, live, b, e).runs| == 1 then m1
    else
      var l1 := CliRun(live, b, q, e.run1, e.thread1).0;
      Tell(m1, l1 - e.drop2, b, Req(p.sessionID, !p.started), e.run2, e.thread2, RetryPrompt(p, h, n), turn)
  }

  /** The turn as it is stored in the end. */
  function Last(t: Turned, e: Script): ConvTurn { if t.ok then Replied(e, t.answer) else Lone(e) }

  /** A whole turn. */
  function TellTurn(
      m: Knowledge, c: Conv, live: set<string>, b: Backend, k: Sink, e: Script, n: Context): Knowledge
  {
    var t, p := WorkerTurn(c, live, b, k, e), Pending(Decide(c, b, e), e);
    if Continued(c, live, b, k, e) then
      Tell(TellAttempt(m, p, c.history, live, b, e, n, Lone(e)), Attempt(p, live, b, e).live - e.drop3, b,
           Req(e.mint2, false), e.run3, e.thread3, NONE, Last(t, e))
    else TellAttempt(m, p, c.history, live, b, e, n, Last(t, e))
  }

  /** What the session that answers has been told by the time it does. */
  function Seen(m: Knowledge, c: Conv, live: set<string>, b: Backend, k: Sink, e: Script, n: Context): seq<ConvTurn> {
    var xs := Prompts(c, live, b, k, e, n);
    (if LastResumes(c, live, b, k, e) then Held(m, WorkerTurn(c, live, b, k, e).ranIn) else []) + Given(xs[|xs| - 1])
  }

  /** The end of x is h. */
  predicate Covers(x: seq<ConvTurn>, h: seq<ConvTurn>) {
    |h| <= |x| && x[|x| - |h|..] == h
  }

  /** If there ever was a session of the record's id, it has been told what the record
      stores. */
  predicate Informed(c: Conv, m: Knowledge) {
    c.sessionID in m ==> Covers(m[c.sessionID], c.history)
  }

  ghost predicate Newer(h: seq<ConvTurn>, e: Script) {
    e.pendingAt <= e.doneAt && forall i | 0 <= i < |h| :: h[i].timestamp < e.pendingAt
  }

  /** Ids made up are new, time passes, a session the CLI has under the record's id is
      one of the conversation's, and summaries fold what they say. */
  ghost predicate Fair(m: Knowledge, c: Conv, live: set<string>, e: Script, n: Context) {
    && FreshIds(c, live + m.Keys, e)
    && (c.sessionID in live ==> c.sessionID in m)
    && Rising(c.history) && Exact(c.history, n.best1) && Exact(c.history, n.best2)
    && Newer(c.history, e) && forall s | s in m :: Newer(m[s], e)
  }

  // ----------------------------------------------------- what the answer knows

  /** A run of the CLI: what it has, what it is asked, and what comes of it. */
  datatype Try = Try(live: set<string>, q: Req, o: Outcome, thread: string)

  /** The first run, or its retry. */
  function LastTry(p: Conv, live: set<string>, b: Backend, e: Script): Try {
    var q := Req(p.sessionID, p.started);
    if |Attempt(p, live, b, e).runs| == 1 then Try(live, q, e.run1, e.thread1)
    else Try(CliRun(live, b, q, e.run1, e.thread1).0 - e.drop2, Req(p.sessionID, !p.started), e.run2, e.thread2)
  }

  function TellTry(m: Knowledge, b: Backend, y: Try, x: Prompt, turn: ConvTurn): Knowledge {
    Tell(m, y.live, b, y.q, y.o, y.thread, x, turn)
  }

  function FreshPrompt(p: Conv, h: seq<ConvTurn>, n: Context): Prompt {
    if p.started then Prompted(h, n.best2, n.answers2) else Prompted(h, n.best1, n.answers1)
  }

  /** A run that is followed by a retry has told nothing. */
  lemma AttemptTold(
      m: Knowledge, p: Conv, h: seq<ConvTurn>, live: set<string>, b: Backend, e: Script, n: Context, turn: ConvTurn)
    ensures var y := LastTry(p, live, b, e);
      && y.q.id == p.sessionID && (y.q.resume <==> RetryResumes(p, live, b, e))
      && TellAttempt(m, p, h, live, b, e, n, turn) == TellTry(m, b, y, if y.q.resume then NONE else FreshPrompt(p, h, n), turn)
  {}

  lemma AttemptRan(p: Conv, live: set<string>, b: Backend, e: Script)
    requires e.thread1 !in live && e.thread2 !in live
    ensures var a, y := Attempt(p, live, b, e), LastTry(p, live, b, e);
      a.reply.Done? && !a.reply.auth ==>
        && a.reply.ranIn == SessionOf(b, y.q, y.thread) && Accepts(y.live, b, y.q)
        && (Took(y.live, b, y.q, y.o) <==> a.reply.ranIn in a.live)
  {}

  /** A new session is told enough, if it is not a continuation's. */
  predicate FreshSees(c: Conv, b: Backend, e: Script, n: Context) {
    if Decide(c, b, e).started then NothingMissing(c.history, n.best2, n.answers2)
    else NothingMissing(c.history, n.best1, n.answers1)
  }

  lemma EndCovers(x: seq<ConvTurn>, h: seq<ConvTurn>, i: nat)
    requires i <= |h| && Covers(x, h)
    ensures Covers(x, h[i..])
  {
    assert x[|x| - |h[i..]|..] == x[|x| - |h|..][i..];
  }

  lemma FallbackShort(h: seq<ConvTurn>, t: seq<ConvTurn>, i: nat)
    requires t == Fallback(h) && t != h && i <= |h| && (i == 0 || |h| - i > MAX_HISTORY_ON_RECOVERY)
    ensures !Covers(t, h[i..])
  {
    TailIsLongest(h, MAX_HISTORY_ON_RECOVERY, MAX_HISTORY_CHARS_ON_RECOVERY);
    if i == 0 { assert h[0..] == h; }
  }

  lemma ShortTail(h: seq<ConvTurn>, f: seq<ConvTurn>, t: seq<ConvTurn>, i: nat)
    requires Rising(h) && |h| > TAIL_TURNS && f == h[..|h| - TAIL_TURNS] && |t| < TAIL_TURNS
    requires i <= |h| && (i == 0 || |h| - i > MAX_HISTORY_ON_RECOVERY)
    ensures !Covers(f + t, h[i..])
  {
    var n, x, z := |h| - TAIL_TURNS, f + t, h[i..];
    if |z| <= |x| {
      assert x[|x| - |z|..][n - i] == x[|x| - TAIL_TURNS] == h[|x| - TAIL_TURNS];
      assert z[n - i] == h[n];
    }
  }

  /** The prompt of a new session ends with the last turns of the history exactly if
      nothing is missing from it, even if the oldest do not count. */
  lemma PromptCovers(h: seq<ConvTurn>, best: Option<Sum>, answers: bool, i: nat)
    requires Rising(h) && Exact(h, best) && i <= |h| && (i == 0 || |h| - i > MAX_HISTORY_ON_RECOVERY)
    ensures Covers(Given(Prompted(h, best, answers)), h[i..]) <==> NothingMissing(h, best, answers)
  {
    FreshSessionSeesAll(h, best, answers);
    var x := Given(Prompted(h, best, answers));
    if NothingMissing(h, best, answers) {
      assert x == h && x[0..] == x;
      EndCovers(x, h, i);
    } else {
      MissingShows(h, best, answers, i);
    }
  }

  lemma MissingShows(h: seq<ConvTurn>, best: Option<Sum>, answers: bool, i: nat)
    requires Rising(h) && Exact(h, best) && i <= |h| && (i == 0 || |h| - i > MAX_HISTORY_ON_RECOVERY)
    requires !NothingMissing(h, best, answers)
    ensures !Covers(Given(Prompted(h, best, answers)), h[i..])
  {
    var x := Prompted(h, best, answers);
    if x.summary.None? {
      FallbackSeesAll(h);
      assert [] + x.turns == x.turns;
      FallbackShort(h, x.turns, i);
    } else {
      UpdatedReach(h, best);
      TailWhole(h);
      ShortTail(h, x.summary.value.covers, x.turns, i);
    }
  }

  /** What is resumed is the stored session. */
  lemma ResumedId(c: Conv, live: set<string>, b: Backend, e: Script)
    requires FreshIds(c, live, e)
    ensures var y := LastTry(Pending(Decide(c, b, e), e), live, b, e);
      y.q.resume && Accepts(y.live, b, y.q) ==> y.q.id == c.sessionID && c.sessionID in live
  {
    MintFresh(c, live, e);
    DecideFacts(c, live, b, e);
  }

  lemma FewerFresh(c: Conv, more: set<string>, live: set<string>, e: Script)
    requires FreshIds(c, more, e) && live <= more
    ensures FreshIds(c, live, e)
  {}

  /** Where the answer of a turn without a continuation comes from. */
  lemma AnsweredIn(c: Conv, live: set<string>, b: Backend, k: Sink, e: Script)
    requires FreshIds(c, live, e) && WorkerTurn(c, live, b, k, e).ok && !Continued(c, live, b, k, e)
    ensures var t, y := WorkerTurn(c, live, b, k, e), LastTry(Pending(Decide(c, b, e), e), live, b, e);
      && t.ranIn == SessionOf(b, y.q, y.thread) && Accepts(y.live, b, y.q)
      && (Took(y.live, b, y.q, y.o) <==> t.ranIn in t.live)
      && (y.q.resume ==> t.ranIn == c.sessionID && c.sessionID in live)
  {
    var p := Pending(Decide(c, b, e), e);
    MintFresh(c, live, e);
    AttemptRan(p, live, b, e);
    ResumedId(c, live, b, e);
  }

  /** The session that answers has been told all that is stored before the turn exactly
      if: it is a continuation's, and nothing is; or it is resumed, and was told before;
      or it is new, and its prompt leaves nothing out. */
  lemma SeenIff(m: Knowledge, c: Conv, live: set<string>, b: Backend, k: Sink, e: Script, n: Context)
    requires Fair(m, c, live, e, n) && WorkerTurn(c, live, b, k, e).ok
    ensures Covers(Seen(m, c, live, b, k, e, n), c.history) <==>
      if Continued(c, live, b, k, e) then c.history == []
      else if LastResumes(c, live, b, k, e) then Covers(Held(m, c.sessionID), c.history)
      else FreshSees(c, b, e, n)
  {
    FewerFresh(c, live + m.Keys, live, e);
    var p, xs := Pending(Decide(c, b, e), e), Prompts(c, live, b, k, e, n);
    LastPrompt(c, live, b, k, e, n);
    var x := Given(xs[|xs| - 1]);
    if !Continued(c, live, b, k, e) {
      if LastResumes(c, live, b, k, e) {
        AnsweredIn(c, live, b, k, e);
        AttemptTold(m, p, c.history, live, b, e, n, Lone(e));
        assert Held(m, c.sessionID) + [] == Held(m, c.sessionID);
      } else {
        assert c.history[0..] == c.history && [] + x == x;
        PromptCovers(c.history, n.best1, n.answers1, 0);
        PromptCovers(c.history, n.best2, n.answers2, 0);
      }
    }
  }

  lemma LastPrompt(c: Conv, live: set<string>, b: Backend, k: Sink, e: Script, n: Context)
    ensures var p, xs := Pending(Decide(c, b, e), e), Prompts(c, live, b, k, e, n);
      xs[|xs| - 1] == if Continued(c, live, b, k, e) || LastResumes(c, live, b, k, e) then NONE
                      else FreshPrompt(p, c.history, n)
  {
    AttemptRuns(Pending(Decide(c, b, e), e), live, b, e);
  }

  /** The run in a continuation. */
  function ThirdTry(c: Conv, live: set<string>, b: Backend, e: Script): Try {
    Try(Attempt(Pending(Decide(c, b, e), e), live, b, e).live - e.drop3, Req(e.mint2, false), e.run3, e.thread3)
  }

  /** It makes a session no run before it knew. */
  lemma ThirdRan(c: Conv, live: set<string>, b: Backend, k: Sink, e: Script)
    requires FreshIds(c, live, e) && Continued(c, live, b, k, e)
    ensures var t, y := WorkerTurn(c, live, b, k, e), ThirdTry(c, live, b, e);
      var s := SessionOf(b, y.q, y.thread);
      && s in {e.mint2, e.thread3} && (s == e.mint2 <==> b.Claude?)
      && (t.ok ==> t.ranIn == s && (Took(y.live, b, y.q, y.o) <==> s in t.live))
  {
    var p := Pending(Decide(c, b, e), e);
    ThirdIdsFresh(c, live, b, e);
    AttemptReply(p, live, b, e);
    MadeApart(c, live, e);
    ConcludeThird(p, |c.history|, b, k, e, Attempt(p, live, b, e), Resets(c, b, e));
  }

  lemma MadeApart(c: Conv, live: set<string>, e: Script)
    requires FreshIds(c, live, e)
    ensures e.mint2 != e.thread3 && e.mint !in {e.mint2, e.thread3} && e.thread3 !in live
    ensures c.sessionID !in {e.mint2, e.thread1, e.thread2, e.thread3}
  {
    var made := [e.mint, e.mint2, e.thread1, e.thread2, e.thread3];
    assert made[0] == e.mint && made[1] == e.mint2 && made[2] == e.thread1 && made[3] == e.thread2 && made[4] == e.thread3;
  }

  lemma ConcludeThird(p: Conv, i: int, b: Backend, k: Sink, e: Script, a: Tried, reset: bool)
    requires a.reply.Done? && a.reply.overflow && !a.reply.auth && k != Forking(false)
    requires e.mint2 !in a.live && e.thread3 !in a.live
    ensures var t, q := Conclude(p, i, b, k, e, a, reset), Req(e.mint2, false);
      t.ok ==>
        && t.ranIn == SessionOf(b, q, e.thread3)
        && (Took(a.live - e.drop3, b, q, e.run3) <==> t.ranIn in t.live)
  {}

  /** That is what the answering session then holds, and the turn itself. */
  lemma AnswerTold(m: Knowledge, c: Conv, live: set<string>, b: Backend, k: Sink, e: Script, n: Context)
    requires Fair(m, c, live, e, n) && WorkerTurn(c, live, b, k, e).ok
    ensures var t := WorkerTurn(c, live, b, k, e);
      t.ranIn in t.live ==>
        Held(TellTurn(m, c, live, b, k, e, n), t.ranIn) == Seen(m, c, live, b, k, e, n) + [Replied(e, t.answer)]
  {
    FewerFresh(c, live + m.Keys, live, e);
    var p, t := Pending(Decide(c, b, e), e), WorkerTurn(c, live, b, k, e);
    LastPrompt(c, live, b, k, e, n);
    if Continued(c, live, b, k, e) {
      ThirdRan(c, live, b, k, e);
    } else {
      AnsweredIn(c, live, b, k, e);
      AttemptTold(m, p, c.history, live, b, e, n, Last(t, e));
    }
  }

  // -------------------------------------------------- what the record can rely on

  /** The record the turn leaves is its continuation's. */
  predicate MovedOn(c: Conv, live: set<string>, b: Backend, k: Sink, e: Script) {
    var t := WorkerTurn(c, live, b, k, e);
    Continued(c, live, b, k, e) && (t.ok || (k.InPlace? && !t.crash))
  }

  /** The last run made on that record. */
  function MainTry(c: Conv, live: set<string>, b: Backend, k: Sink, e: Script): Try {
    if MovedOn(c, live, b, k, e) then ThirdTry(c, live, b, e) else LastTry(Pending(Decide(c, b, e), e), live, b, e)
  }

  /** That run got as far as its session, and the record names it. */
  predicate Names(c: Conv, live: set<string>, b: Backend, k: Sink, e: Script) {
    var y := MainTry(c, live, b, k, e);
    Took(y.live, b, y.q, y.o) && WorkerTurn(c, live, b, k, e).saved.sessionID == SessionOf(b, y.q, y.thread)
  }

  /** What of the history h is still stored beside the turn. */
  function Left(h: seq<ConvTurn>, t: Turned): seq<ConvTurn> {
    if t.parent.Some? then []
    else if t.ok && |h| >= MAX_HISTORY_TURNS then h[|h| - MAX_HISTORY_TURNS + 1..]
    else h
  }

  lemma StoredAs(c: Conv, live: set<string>, b: Backend, k: Sink, e: Script)
    ensures var t := WorkerTurn(c, live, b, k, e); t.saved.history == Left(c.history, t) + [Last(t, e)]
  {
    PromptStoredOnce(c, live, b, k, e);
  }

  lemma AttemptNames(p: Conv, live: set<string>, b: Backend, e: Script)
    ensures var t := Attempt(p, live, b, e);
      t.reply.Done? ==> t.reply.sessionID in {"", p.sessionID, e.thread1, e.thread2}
  {}

  lemma ConcludeNames(p: Conv, i: int, b: Backend, k: Sink, e: Script, a: Tried, reset: bool)
    ensures var t := Conclude(p, i, b, k, e, a, reset);
      if a.reply.Done? && !a.reply.auth && a.reply.overflow && k != Forking(false) && (t.ok || (k.InPlace? && !t.crash))
      then t.saved.sessionID in {e.mint2, e.thread3}
      else t.saved.sessionID == p.sessionID || (a.reply.Done? && t.saved.sessionID == a.reply.sessionID != "")
  {}

  lemma SavedId(c: Conv, live: set<string>, b: Backend, k: Sink, e: Script)
    requires FreshIds(c, live, e)
    ensures var s := WorkerTurn(c, live, b, k, e).saved.sessionID;
      if MovedOn(c, live, b, k, e) then s in {e.mint2, e.thread3}
      else s in {Decide(c, b, e).sessionID, e.thread1, e.thread2}
  {
    var p := Pending(Decide(c, b, e), e);
    AttemptText(p, live, b, e);
    AttemptNames(p, live, b, e);
    ConcludeNames(p, |c.history|, b, k, e, Attempt(p, live, b, e), Resets(c, b, e));
  }

  /** What that session had been told before that run. */
  function ToldBefore(m: Knowledge, c: Conv, live: set<string>, b: Backend, k: Sink, e: Script, n: Context): seq<ConvTurn> {
    var p := Pending(Decide(c, b, e), e);
    if MovedOn(c, live, b, k, e) then []
    else if LastTry(p, live, b, e).q.resume then Held(m, c.sessionID)
    else Given(FreshPrompt(p, c.history, n))
  }

  /** What is told where, as far as session s goes. */
  lemma ToldAt(m: Knowledge, b: Backend, y: Try, x: Prompt, turn: ConvTurn, s: string)
    ensures var z := TellTry(m, b, y, x, turn);
      if Took(y.live, b, y.q, y.o) && s == SessionOf(b, y.q, y.thread)
      then s in z && z[s] == (if y.q.resume then Held(m, s) else []) + Given(x) + [turn]
      else (s in z <==> s in m) && (s in m ==> z[s] == m[s])
  {}

  /** The first run and its retry, on the record decided on. */
  lemma AttemptAt(
      m: Knowledge, c: Conv, live: set<string>, b: Backend, e: Script, n: Context, turn: ConvTurn, s: string)
    requires FreshIds(c, live, e)
    ensures var p, z := Pending(Decide(c, b, e), e), TellAttempt(m, Pending(Decide(c, b, e), e), c.history, live, b, e, n, turn);
      var y := LastTry(p, live, b, e);
      if Took(y.live, b, y.q, y.o) && s == SessionOf(b, y.q, y.thread)
      then s in z && z[s] == (if y.q.resume then Held(m, c.sessionID) else Given(FreshPrompt(p, c.history, n))) + [turn]
      else (s in z <==> s in m) && (s in m ==> z[s] == m[s])
  {
    var p, y := Pending(Decide(c, b, e), e), LastTry(Pending(Decide(c, b, e), e), live, b, e);
    var x := if y.q.resume then NONE else FreshPrompt(p, c.history, n);
    AttemptTold(m, p, c.history, live, b, e, n, turn);
    ToldAt(m, b, y, x, turn, s);
    ResumedId(c, live, b, e);
    assert Held(m, c.sessionID) + [] == Held(m, c.sessionID) && [] + Given(x) == Given(x);
  }

  lemma AttemptIn(c: Conv, live: set<string>, b: Backend, e: Script)
    ensures var y := LastTry(Pending(Decide(c, b, e), e), live, b, e);
      SessionOf(b, y.q, y.thread) in {Decide(c, b, e).sessionID, e.thread1, e.thread2}
  {}

  /** Sessions of the attempt and the continuation's are apart. */
  lemma IdsApart(m: Knowledge, c: Conv, live: set<string>, b: Backend, k: Sink, e: Script)
    requires FreshIds(c, live + m.Keys, e)
    ensures var y := LastTry(Pending(Decide(c, b, e), e), live, b, e);
      SessionOf(b, y.q, y.thread) !in {e.mint2, e.thread3} && e.mint2 !in m && e.thread3 !in m
    ensures var s := WorkerTurn(c, live, b, k, e).saved.sessionID;
      MovedOn(c, live, b, k, e) <==> s in {e.mint2, e.thread3}
  {
    FewerFresh(c, live + m.Keys, live, e);
    AttemptIn(c, live, b, e);
    SavedId(c, live, b, k, e);
    ThirdIdsFresh(c, live + m.Keys, b, e);
  }

  lemma AtContinued(m: Knowledge, c: Conv, live: set<string>, b: Backend, k: Sink, e: Script, n: Context, turn: ConvTurn, s: string)
    requires FreshIds(c, live + m.Keys, e) && Continued(c, live, b, k, e)
    ensures var z := TellAttempt(m, Pending(Decide(c, b, e), e), c.history, live, b, e, n, Lone(e));
      var y := ThirdTry(c, live, b, e);
      var w := TellTry(z, b, y, NONE, turn);
      if s !in {e.mint2, e.thread3} then (s in w <==> s in z) && (s in z ==> w[s] == z[s])
      else if Took(y.live, b, y.q, y.o) && s == SessionOf(b, y.q, y.thread) then s in w && w[s] == [turn]
      else s !in w
  {
    FewerFresh(c, live + m.Keys, live, e);
    var z := TellAttempt(m, Pending(Decide(c, b, e), e), c.history, live, b, e, n, Lone(e));
    ThirdRan(c, live, b, k, e);
    AttemptAt(m, c, live, b, e, n, Lone(e), s);
    IdsApart(m, c, live, b, k, e);
    ToldAt(z, b, ThirdTry(c, live, b, e), NONE, turn, s);
  }

  /** What the turn leaves told to the session its record names. */
  lemma AtSaved(m: Knowledge, c: Conv, live: set<string>, b: Backend, k: Sink, e: Script, n: Context)
    requires FreshIds(c, live + m.Keys, e)
    ensures var t, z := WorkerTurn(c, live, b, k, e), TellTurn(m, c, live, b, k, e, n);
      var s := t.saved.sessionID;
      if Names(c, live, b, k, e) then s in z && z[s] == ToldBefore(m, c, live, b, k, e, n) + [Last(t, e)]
      else (s in z <==> s in m) && (s in m ==> z[s] == m[s])
  {
    FewerFresh(c, live + m.Keys, live, e);
    var t := WorkerTurn(c, live, b, k, e);
    var s := t.saved.sessionID;
    if Continued(c, live, b, k, e) {
      AttemptAt(m, c, live, b, e, n, Lone(e), s);
      AtContinued(m, c, live, b, k, e, n, Last(t, e), s);
      IdsApart(m, c, live, b, k, e);
    } else {
      AttemptAt(m, c, live, b, e, n, Last(t, e), s);
    }
  }

  lemma CoversSnoc(x: seq<ConvTurn>, h: seq<ConvTurn>, turn: ConvTurn)
    ensures Covers(x + [turn], h + [turn]) <==> Covers(x, h)
  {
    if |h| <= |x| {
      assert (x + [turn])[|x| - |h|..] == x[|x| - |h|..] + [turn];
      assert (x[|x| - |h|..] + [turn])[..|h|] == x[|x| - |h|..] && (h + [turn])[..|h|] == h;
    }
  }

  lemma NotYetTold(x: seq<ConvTurn>, h: seq<ConvTurn>, turn: ConvTurn)
    requires forall i | 0 <= i < |x| :: x[i].timestamp < turn.timestamp
    ensures !Covers(x, h + [turn])
  {
    if |h| < |x| {
      assert x[|x| - |h| - 1..][|h|] == x[|x| - 1];
    }
  }

  /** The record the turn leaves names the session that was told, and that one knows all
      there is; or it names no session at all. */
  predicate Kept(m: Knowledge, c: Conv, live: set<string>, b: Backend, k: Sink, e: Script, n: Context) {
    var t := WorkerTurn(c, live, b, k, e);
    if !Names(c, live, b, k, e) then t.saved.sessionID !in m
    else if MovedOn(c, live, b, k, e) then t.parent.Some? || c.history == []
    else RetryResumes(Pending(Decide(c, b, e), e), live, b, e) || FreshSees(c, b, e, n)
  }

  lemma MovedFrom(c: Conv, live: set<string>, b: Backend, k: Sink, e: Script)
    ensures var t := WorkerTurn(c, live, b, k, e); t.parent.Some? ==> t.ok && MovedOn(c, live, b, k, e)
  {
    TurnHistory(c, live, b, k, e);
    AttemptText(Pending(Decide(c, b, e), e), live, b, e);
  }

  /** left: what is still stored of h. */
  lemma FreshEnough(p: Conv, h: seq<ConvTurn>, n: Context, left: seq<ConvTurn>)
    requires Rising(h) && Exact(h, n.best1) && Exact(h, n.best2)
    requires left == h || (|h| >= MAX_HISTORY_TURNS && left == h[|h| - MAX_HISTORY_TURNS + 1..])
    ensures Covers(Given(FreshPrompt(p, h, n)), left) <==>
      if p.started then NothingMissing(h, n.best2, n.answers2) else NothingMissing(h, n.best1, n.answers1)
  {
    var i := |h| - |left|;
    assert left == h[i..];
    if p.started { PromptCovers(h, n.best2, n.answers2, i); } else { PromptCovers(h, n.best1, n.answers1, i); }
  }

  lemma ResumeEnough(m: Knowledge, c: Conv, live: set<string>, b: Backend, e: Script, left: seq<ConvTurn>)
    requires FreshIds(c, live, e) && Informed(c, m) && (c.sessionID in live ==> c.sessionID in m)
    requires |left| <= |c.history| && left == c.history[|c.history| - |left|..]
    requires var y := LastTry(Pending(Decide(c, b, e), e), live, b, e); y.q.resume && Accepts(y.live, b, y.q)
    ensures Covers(Held(m, c.sessionID), left)
  {
    ResumedId(c, live, b, e);
    EndCovers(m[c.sessionID], c.history, |c.history| - |left|);
  }

  lemma LeftIs(c: Conv, live: set<string>, b: Backend, k: Sink, e: Script)
    ensures var t, h := WorkerTurn(c, live, b, k, e), c.history;
      var left := Left(h, t);
      if MovedOn(c, live, b, k, e) then left == [] <==> t.parent.Some? || h == []
      else left == h || (|h| >= MAX_HISTORY_TURNS && left == h[|h| - MAX_HISTORY_TURNS + 1..])
  {
    MovedFrom(c, live, b, k, e);
  }

  lemma StayedEnough(m: Knowledge, c: Conv, live: set<string>, b: Backend, e: Script, n: Context, left: seq<ConvTurn>)
    requires FreshIds(c, live, e) && Informed(c, m) && (c.sessionID in live ==> c.sessionID in m)
    requires Rising(c.history) && Exact(c.history, n.best1) && Exact(c.history, n.best2)
    requires left == c.history || (|c.history| >= MAX_HISTORY_TURNS && left == c.history[|c.history| - MAX_HISTORY_TURNS + 1..])
    requires var y := LastTry(Pending(Decide(c, b, e), e), live, b, e); Accepts(y.live, b, y.q)
    ensures var p := Pending(Decide(c, b, e), e);
      Covers(if LastTry(p, live, b, e).q.resume then Held(m, c.sessionID) else Given(FreshPrompt(p, c.history, n)), left)
      <==> RetryResumes(p, live, b, e) || FreshSees(c, b, e, n)
  {
    var p := Pending(Decide(c, b, e), e);
    AttemptTold(m, p, c.history, live, b, e, n, Lone(e));
    assert left == c.history[|c.history| - |left|..];
    if LastTry(p, live, b, e).q.resume {
      ResumeEnough(m, c, live, b, e, left);
    } else {
      FreshEnough(p, c.history, n, left);
    }
  }

  /** ToldBefore is enough for what is left. */
  lemma ToldEnough(m: Knowledge, c: Conv, live: set<string>, b: Backend, k: Sink, e: Script, n: Context, left: seq<ConvTurn>)
    requires Fair(m, c, live, e, n) && Informed(c, m) && Names(c, live, b, k, e)
    requires left == Left(c.history, WorkerTurn(c, live, b, k, e))
    ensures Covers(ToldBefore(m, c, live, b, k, e, n), left) <==> Kept(m, c, live, b, k, e, n)
  {
    LeftIs(c, live, b, k, e);
    if !MovedOn(c, live, b, k, e) {
      FewerFresh(c, live + m.Keys, live, e);
      StayedEnough(m, c, live, b, e, n, left);
    }
  }

  /** A turn passes on to the next what it was given, exactly if it keeps to Kept. */
  lemma InformedIff(m: Knowledge, c: Conv, live: set<string>, b: Backend, k: Sink, e: Script, n: Context)
    requires Fair(m, c, live, e, n) && Informed(c, m)
    ensures Informed(WorkerTurn(c, live, b, k, e).saved, TellTurn(m, c, live, b, k, e, n))
       <==> Kept(m, c, live, b, k, e, n)
  {
    var t := WorkerTurn(c, live, b, k, e);
    var s := t.saved.sessionID;
    StoredAs(c, live, b, k, e);
    AtSaved(m, c, live, b, k, e, n);
    if Names(c, live, b, k, e) {
      ToldEnough(m, c, live, b, k, e, n, Left(c.history, t));
      CoversSnoc(ToldBefore(m, c, live, b, k, e, n), Left(c.history, t), Last(t, e));
    } else if s in m {
      assert Newer(m[s], e);
      NotYetTold(m[s], Left(c.history, t), Last(t, e));
    }
  }

  // ----------------------------------------------------------- over many turns

  datatype Exchange = Exchange(r: Round, n: Context)

  /** The record in use and all its sessions have been told. */
  datatype World = World(conv: Conv, told: Knowledge)

  function Next(w: World, k: Sink, x: Exchange): World {
    World(WorkerTurn(w.conv, x.r.live, x.r.b, k, x.r.e).saved,
          TellTurn(w.told, w.conv, x.r.live, x.r.b, k, x.r.e, x.n))
  }

  function Talk(w: World, k: Sink, xs: seq<Exchange>): World {
    if xs == [] then w else Next(Talk(w, k, xs[..|xs| - 1]), k, xs[|xs| - 1])
  }

  ghost predicate FairIn(w: World, x: Exchange) { Fair(w.told, w.conv, x.r.live, x.r.e, x.n) }

  ghost predicate FairTalk(w: World, k: Sink, xs: seq<Exchange>) {
    xs == [] || (FairTalk(w, k, xs[..|xs| - 1]) && FairIn(Talk(w, k, xs[..|xs| - 1]), xs[|xs| - 1]))
  }

  predicate KeptIn(w: World, k: Sink, x: Exchange) {
    Kept(w.told, w.conv, x.r.live, x.r.b, k, x.r.e, x.n)
  }

  predicate AllKept(w: World, k: Sink, xs: seq<Exchange>) {
    xs == [] || (AllKept(w, k, xs[..|xs| - 1]) && KeptIn(Talk(w, k, xs[..|xs| - 1]), k, xs[|xs| - 1]))
  }

  predicate InformedIn(w: World) { Informed(w.conv, w.told) }

  /** Before every turn, and after the last. */
  predicate AllInformed(w: World, k: Sink, xs: seq<Exchange>) {
    InformedIn(Talk(w, k, xs)) && (xs == [] || AllInformed(w, k, xs[..|xs| - 1]))
  }

  /** Over any turns, on whatever backends, with sessions lost and given up, failures
      and crashes: the session a record names knows all that the record stores, all the
      time, exactly if every turn keeps to Kept. */
  lemma {:induction false} InformedThroughout(w: World, k: Sink, xs: seq<Exchange>)
    requires FairTalk(w, k, xs) && InformedIn(w)
    ensures AllInformed(w, k, xs) <==> AllKept(w, k, xs)
  {
    if xs != [] {
      var f, x := xs[..|xs| - 1], xs[|xs| - 1];
      InformedThroughout(w, k, f);
      var v := Talk(w, k, f);
      if AllInformed(w, k, f) {
        InformedHere(w, k, f);
        InformedNext(v, k, x);
      }
    }
  }

  lemma InformedHere(w: World, k: Sink, xs: seq<Exchange>)
    requires AllInformed(w, k, xs)
    ensures InformedIn(Talk(w, k, xs))
  {}

  lemma InformedNext(v: World, k: Sink, x: Exchange)
    requires FairIn(v, x) && InformedIn(v)
    ensures InformedIn(Next(v, k, x)) <==> KeptIn(v, k, x)
  {
    InformedIff(v.told, v.conv, x.r.live, x.r.b, k, x.r.e, x.n);
  }

  /** After such turns the next answer comes from a session that knows all that is stored
      before it, exactly unless it is a continuation's and something is; or it is new, if
      not a continuation's, and its prompt leaves something out. */
  lemma AnswersInformed(w: World, k: Sink, xs: seq<Exchange>, x: Exchange)
    requires FairTalk(w, k, xs) && InformedIn(w) && AllKept(w, k, xs)
    requires FairIn(Talk(w, k, xs), x)
    requires var v := Talk(w, k, xs); WorkerTurn(v.conv, x.r.live, x.r.b, k, x.r.e).ok
    ensures var v := Talk(w, k, xs);
      Covers(Seen(v.told, v.conv, x.r.live, x.r.b, k, x.r.e, x.n), v.conv.history) <==>
        if Continued(v.conv, x.r.live, x.r.b, k, x.r.e) then v.conv.history == []
        else LastResumes(v.conv, x.r.live, x.r.b, k, x.r.e) || FreshSees(v.conv, x.r.b, x.r.e, x.n)
  {
    InformedThroughout(w, k, xs);
    InformedHere(w, k, xs);
    AnswerInformed(Talk(w, k, xs), k, x);
  }

  lemma AnswerInformed(v: World, k: Sink, x: Exchange)
    requires FairIn(v, x) && InformedIn(v) && WorkerTurn(v.conv, x.r.live, x.r.b, k, x.r.e).ok
    ensures Covers(Seen(v.told, v.conv, x.r.live, x.r.b, k, x.r.e, x.n), v.conv.history) <==>
      if Continued(v.conv, x.r.live, x.r.b, k, x.r.e) then v.conv.history == []
      else LastResumes(v.conv, x.r.live, x.r.b, k, x.r.e) || FreshSees(v.conv, x.r.b, x.r.e, x.n)
  {
    SeenIff(v.told, v.conv, x.r.live, x.r.b, k, x.r.e, x.n);
    if !Continued(v.conv, x.r.live, x.r.b, k, x.r.e) && LastResumes(v.conv, x.r.live, x.r.b, k, x.r.e) {
      FewerFresh(v.conv, x.r.live + v.told.Keys, x.r.live, x.r.e);
      AnsweredIn(v.conv, x.r.live, x.r.b, k, x.r.e);
      AttemptTold(v.told, Pending(Decide(v.conv, x.r.b, x.r.e), x.r.e), v.conv.history, x.r.live, x.r.b, x.r.e, x.n, Lone(x.r.e));
    }
  }

  // -------------------------------------------------------- what goes missing

  /** One turn on record, and the session knows it. */
  function Known(tokens: int): World {
    var h := [ConvTurn(-1, "p", "r", [])];
    World(Conv("c", "a", true, 0, tokens, h, None, 0, 0), map["a" := h])
  }

  lemma KnownFair(tokens: int, e: Script)
    requires e == Sample(e.run1, e.run2, e.run3)
    ensures var w, x := Known(tokens), Exchange(Round(Claude, {"a"}, e), Context(None, true, None, true));
      InformedIn(w) && FairIn(w, x) && w.conv == Heal(w.conv, e.mint)
  {
    var w := Known(tokens);
    assert w.told.Keys == {"a"} && {"a"} + {"a"} == {"a"};
    SampleFresh(w.conv, {"a"}, e);
    TrimSpaceHead(w.conv.sessionID);
  }

  function First(b: Backend, e: Script): Exchange {
    Exchange(Round(b, {"a"}, e), Context(None, true, None, true))
  }

  lemma Overflowing(c: Conv, e: Script)
    requires c == Known(0).conv && e == Sample(OverflowBody("full", true, 0), Answer("", true, 0), Answer("yes", true, 0))
    requires c == Heal(c, e.mint)
    ensures Continued(c, {"a"}, Claude, InPlace, e)
    ensures WorkerTurn(c, {"a"}, Claude, InPlace, e).ok && WorkerTurn(c, {"a"}, Claude, InPlace, e).parent.None?
    ensures Names(c, {"a"}, Claude, InPlace, e) && MovedOn(c, {"a"}, Claude, InPlace, e)
  {
    assert Decide(c, Claude, e) == c;
    assert "a"[0] == 'a' && "n"[0] == 'n';
  }

  /** A full context: the continuation answers without the turn on record, which another
      new session would have been told, and the record goes on with its session. */
  lemma ContinuationForgets() returns (w: World, x: Exchange)
    ensures InformedIn(w) && FairIn(w, x) && FreshSees(w.conv, Claude, x.r.e, x.n)
    ensures WorkerTurn(w.conv, x.r.live, Claude, InPlace, x.r.e).ok && x.r.b == Claude
    ensures !Covers(Seen(w.told, w.conv, x.r.live, Claude, InPlace, x.r.e, x.n), w.conv.history)
    ensures !InformedIn(Next(w, InPlace, x))
  {
    w, x := Known(0), First(Claude, Sample(OverflowBody("full", true, 0), Answer("", true, 0), Answer("yes", true, 0)));
    KnownFair(0, x.r.e);
    Overflowing(w.conv, x.r.e);
    assert FitsFallback(w.conv.history);
    AnswerInformed(w, InPlace, x);
    InformedNext(w, InPlace, x);
  }

  /** A codex session given up for its size, and a run that does not report the new one:
      the record names the old one again, which has not been told of the turn. */
  lemma ResetForgotten() returns (w: World, x: Exchange)
    ensures InformedIn(w) && FairIn(w, x) && x.r.b == Codex
    ensures var t := WorkerTurn(w.conv, x.r.live, Codex, InPlace, x.r.e);
      t.ok && t.reset && t.saved.started && t.saved.sessionID == w.conv.sessionID && t.saved.sessionID in t.live
    ensures !InformedIn(Next(w, InPlace, x))
  {
    w, x := Known(CODEX_CONTEXT_RESET_TOKENS), First(Codex, Sample(Answer("yes", false, 0), Answer("", true, 0), Answer("", true, 0)));
    KnownFair(CODEX_CONTEXT_RESET_TOKENS, x.r.e);
    assert Decide(w.conv, Codex, x.r.e) == MarkReset(w.conv);
    assert "a"[0] == 'a' && "t"[0] == 't';
    InformedNext(w, InPlace, x);
  }

  /** A resume that fails before the session has the prompt: the prompt is stored, and
      no later turn on the session is told of it. */
  lemma FailedPromptUntold() returns (w: World, x: Exchange)
    ensures InformedIn(w) && FairIn(w, x) && x.r.b == Claude
    ensures var t := WorkerTurn(w.conv, x.r.live, Claude, InPlace, x.r.e);
      !t.ok && t.saved.started && t.saved.sessionID in t.live
    ensures !InformedIn(Next(w, InPlace, x))
  {
    w, x := Known(0), First(Claude, Sample(Broken(false), Answer("", true, 0), Answer("", true, 0)));
    KnownFair(0, x.r.e);
    assert Decide(w.conv, Claude, x.r.e) == w.conv;
    InformedNext(w, InPlace, x);
  }
}

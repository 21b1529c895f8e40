/** host/manager.go: the CLI session behind a conversation, through one worker
    turn (runWorker) and through any sequence of turns, failed and broken off
    ones included. The CLI is a set of live session ids; what it and the world do
    during a turn is the turn's script. */
module Session {
  import opened GoText
  import opened History

  const CODEX_CONTEXT_RESET_TOKENS := 200000
  const CLAUDE_CONTEXT_RESET_TOKENS := 100000
  const CLAUDE_IDLE_RESET_AFTER := 3600_000_000_000 // 60 minutes in nanoseconds
  const CLAUDE_IDLE_RESET_MIN_TOKENS := 50000

  /** Claude creates a session under the id it is given; the others pick their own. */
  datatype Backend = Claude | Codex | OpenCode

  /** How a sink continues a conversation that outgrew its context: telegram and
      web reset the same record, a project makes a new one (or fails to). */
  datatype Sink = InPlace | Forking(works: bool)

  datatype Conv = Conv(
    id: string, sessionID: string, started: bool, claudeTokens: int, codexTokens: int,
    history: seq<ConvTurn>, lastAt: Option<int>, turnCount: int, resetCount: int)

  /** What becomes of one CLI run once the session id is accepted. A body is what the
      CLI prints as its result: an answer, or the text of an error. made: a run that
      failed or was broken off may or may not have created its session; crash: the bot
      itself died, so that the next turn starts from what is on disk. */
  datatype Outcome =
    | Answer(text: string, reports: bool, tokens: int)
    | AuthBody(text: string)
    | OverflowBody(text: string, reports: bool, tokens: int)
    | ErrorBody(text: string, made: bool, reports: bool, tokens: int)
    | Broken(made: bool)
    | Stopped(made: bool, crash: bool)

  /** mint, mint2, newID: ids made by the bot; threadN: the id the CLI picks in
      run N; dropN: ids the CLI loses before run N. */
  datatype Script = Script(
    text: string, images: seq<string>, startAt: int, pendingAt: int, doneAt: int,
    mint: string, mint2: string, newID: string,
    run1: Outcome, run2: Outcome, run3: Outcome,
    thread1: string, thread2: string, thread3: string,
    drop2: set<string>, drop3: set<string>)

  datatype Req = Req(id: string, resume: bool)

  datatype Reply =
    | Done(text: string, sessionID: string, tokens: int, ranIn: string, overflow: bool, auth: bool)
    | NotFound | InUse | Failed | Cancelled(crash: bool)

  /** The CLI can do as it is asked: resume a session it has, or make a new one. */
  predicate Accepts(live: set<string>, b: Backend, q: Req) {
    if q.resume then q.id in live else !b.Claude? || q.id !in live
  }

  /** The session a run works in. */
  function SessionOf(b: Backend, q: Req, thread: string): string {
    if q.resume || b.Claude? then q.id else thread
  }

  /** One run of the CLI. */
  function CliRun(live: set<string>, b: Backend, q: Req, o: Outcome, thread: string): (set<string>, Reply) {
    var s := SessionOf(b, q, thread);
    if o.Stopped? then (if o.made && Accepts(live, b, q) then live + {s} else live, Cancelled(o.crash))
    else if !Accepts(live, b, q) then (live, if q.resume then NotFound else InUse)
    else
      var reported := if b.Claude? then q.id else if q.resume then "" else thread;
      match o
      case Answer(text, reports, tokens) =>
        (live + {s}, Done(text, if reports then reported else "", tokens, s, false, false))
      case OverflowBody(text, reports, tokens) =>
        (live + {s}, Done(text, if reports then reported else "", tokens, s, true, false))
      case AuthBody(text) => (live, Done(text, "", 0, s, false, true))
      case ErrorBody(text, made, reports, tokens) =>
        (if made then live + {s} else live, Done(text, if reports then reported else "", tokens, s, false, false))
      case Broken(made) => (if made then live + {s} else live, Failed)
      case Stopped(_, crash) => (live, Cancelled(crash))
  }

  predicate IdleCacheCold(c: Conv, now: int) {
    c.claudeTokens >= CLAUDE_IDLE_RESET_MIN_TOKENS && c.lastAt.Some?
    && now - c.lastAt.value >= CLAUDE_IDLE_RESET_AFTER
  }

  function MarkReset(c: Conv): Conv {
    c.(started := false, claudeTokens := 0, codexTokens := 0)
  }

  /** A blank stored id never reaches the CLI. */
  function Heal(c: Conv, mint: string): Conv {
    if TrimSpace(c.sessionID) == "" then c.(sessionID := mint, started := false) else c
  }

  predicate ResetsCodex(c: Conv, b: Backend) {
    c.started && b.Codex? && c.codexTokens >= CODEX_CONTEXT_RESET_TOKENS
  }

  predicate ResetsClaude(c: Conv, b: Backend, now: int) {
    c.started && b.Claude? && (c.claudeTokens >= CLAUDE_CONTEXT_RESET_TOKENS || IdleCacheCold(c, now))
  }

  predicate Resets(c: Conv, b: Backend, e: Script) {
    var h := Heal(c, e.mint);
    ResetsCodex(h, b) || ResetsClaude(h, b, e.startAt)
  }

  /** The record the turn runs on; it resumes iff it is still marked started. */
  function Decide(c: Conv, b: Backend, e: Script): Conv {
    var h := Heal(c, e.mint);
    if ResetsCodex(h, b) then MarkReset(h)
    else if ResetsClaude(h, b, e.startAt) then MarkReset(h.(sessionID := e.mint))
    else h
  }

  /** The turn as it is stored before the run, and with its answer. */
  function Lone(e: Script): ConvTurn { ConvTurn(e.pendingAt, e.text, "", []) }
  function Replied(e: Script, answer: string): ConvTurn { ConvTurn(e.doneAt, e.text, answer, e.images) }

  /** What is saved before the first run. */
  function Pending(c: Conv, e: Script): Conv {
    c.(history := c.history + [Lone(e)])
  }

  /** The first run and its one retry. */
  datatype Tried = Tried(live: set<string>, reply: Reply, runs: seq<Req>, recovered: bool)

  function Attempt(c: Conv, live: set<string>, b: Backend, e: Script): Tried {
    var q := Req(c.sessionID, c.started);
    var (l1, r1) := CliRun(live, b, q, e.run1, e.thread1);
    if r1.NotFound? && c.started then
      var q2 := Req(c.sessionID, false);
      var (l2, r2) := CliRun(l1 - e.drop2, b, q2, e.run2, e.thread2);
      Tried(l2, r2, [q, q2], true)
    else if r1.InUse? && !c.started then
      var q2 := Req(c.sessionID, true);
      var (l2, r2) := CliRun(l1 - e.drop2, b, q2, e.run2, e.thread2);
      Tried(l2, r2, [q, q2], false)
    else Tried(l1, r1, [q], false)
  }

  /** The record a turn goes on with after a context overflow, if the sink has one. */
  function Continue(c: Conv, k: Sink, e: Script): Option<Conv> {
    match k
    case InPlace => Some(c.(sessionID := e.mint2, started := false))
    case Forking(works) =>
      if works then Some(Conv(e.newID, e.mint2, false, 0, 0, [], None, 0, 0)) else None
  }

  /** The record as a successful turn saves it. */
  function Complete(c: Conv, pendingIdx: int, b: Backend, e: Script, r: Reply, recovered: bool, reset: bool): Conv
    requires r.Done?
  {
    c.(started := true,
       history := Capped(RecordCompletedTurn(c.history, pendingIdx, Replied(e, r.text))),
       sessionID := if r.sessionID != "" && (!c.started || recovered || reset) then r.sessionID else c.sessionID,
       codexTokens := if b.Codex? then r.tokens else c.codexTokens,
       claudeTokens := if b.Claude? then r.tokens else c.claudeTokens,
       lastAt := Some(e.doneAt),
       turnCount := c.turnCount + 1,
       resetCount := c.resetCount + if reset then 1 else 0)
  }

  /** saved: what the next turn finds of the conversation the user is in; parent: the
      record left behind when the turn moved to a new one; ranIn: the session the
      answer came from. */
  datatype Turned = Turned(
    saved: Conv, parent: Option<Conv>, live: set<string>, runs: seq<Req>, ok: bool, crash: bool,
    reset: bool, ranIn: string, answer: string)

  function Crashed(r: Reply): bool { r.Cancelled? && r.crash }

  /** What follows the first run and its retry: overflow handling and the save. The
      store holds the turn's own record from the first save on, so a new session in
      place is there even if the run in it fails - unless the bot died. */
  function Conclude(p: Conv, pendingIdx: int, b: Backend, k: Sink, e: Script, t: Tried, reset: bool): Turned {
    var failed := Turned(p, None, t.live, t.runs, false, Crashed(t.reply), reset, "", "");
    if !t.reply.Done? || t.reply.auth then failed
    else if t.reply.overflow && Continue(p, k, e).Some? then
      var n := Continue(p, k, e).value;
      var q := Req(n.sessionID, false);
      var (l3, r3) := CliRun(t.live - e.drop3, b, q, e.run3, e.thread3);
      if !r3.Done? then
        failed.(saved := if k.InPlace? && !Crashed(r3) then n else p, live := l3, runs := t.runs + [q], crash := Crashed(r3))
      else Turned(Complete(n, pendingIdx, b, e, r3, t.recovered, reset), if k.InPlace? then None else Some(p),
                  l3, t.runs + [q], true, false, reset, r3.ranIn, r3.text)
    else
      Turned(Complete(p, pendingIdx, b, e, t.reply, t.recovered, reset), None,
             t.live, t.runs, true, false, reset, t.reply.ranIn, t.reply.text)
  }

  /** runWorker on the stored record c. */
  function WorkerTurn(c: Conv, live: set<string>, b: Backend, k: Sink, e: Script): Turned {
    var p := Pending(Decide(c, b, e), e);
    Conclude(p, |c.history|, b, k, e, Attempt(p, live, b, e), Resets(c, b, e))
  }

  // ------------------------------------------------------------ self-healing

  /** Ids the bot or the CLI makes up are new and not blank. */
  ghost predicate FreshIds(c: Conv, live: set<string>, e: Script) {
    var made := [e.mint, e.mint2, e.thread1, e.thread2, e.thread3];
    && (forall i, j | 0 <= i < j < |made| :: made[i] != made[j])
    && (forall i | 0 <= i < |made| :: made[i] !in live && made[i] != c.sessionID && TrimSpace(made[i]) != "")
  }

  lemma MintFresh(c: Conv, live: set<string>, e: Script)
    requires FreshIds(c, live, e)
    ensures e.mint !in live && e.mint2 !in live && e.mint != e.mint2
    ensures forall x | x in {e.mint, e.mint2, e.thread1, e.thread2, e.thread3} :: x != c.sessionID && TrimSpace(x) != ""
    ensures e.thread1 !in live && e.thread2 !in live && e.mint !in {e.thread1, e.thread2, e.thread3}
  {
    var made := [e.mint, e.mint2, e.thread1, e.thread2, e.thread3];
    assert made[0] == e.mint && made[1] == e.mint2 && made[2] == e.thread1 && made[3] == e.thread2 && made[4] == e.thread3;
  }

  /** No trouble of its own: every run the CLI accepts answers, and the CLI loses
      nothing between the runs of one turn. */
  ghost predicate Untroubled(e: Script) {
    e.run1.Answer? && e.run2.Answer? && e.drop2 == {}
  }

  predicate Reports(o: Outcome) { o.Answer? && o.reports }

  /** Whether the session that will answer d's turn will be known: the bot named it, or
      it is resumed, or the run that makes it reports it. */
  predicate IdKnown(d: Conv, live: set<string>, b: Backend, e: Script) {
    b.Claude? || (if d.started then d.sessionID in live || Reports(e.run2) else Reports(e.run1))
  }

  lemma DecideFacts(c: Conv, live: set<string>, b: Backend, e: Script)
    requires FreshIds(c, live, e)
    ensures var d := Decide(c, b, e);
      && TrimSpace(d.sessionID) != "" && d.history == c.history
      && (d.started ==> d.sessionID == c.sessionID)
      && d.sessionID in {c.sessionID, e.mint}
      && (Resets(c, b, e) ==> !d.started)
  {
    MintFresh(c, live, e);
  }

  lemma AttemptHeals(p: Conv, live: set<string>, b: Backend, e: Script)
    requires Untroubled(e) && e.thread1 !in live && e.thread2 !in live
    requires p.sessionID !in {e.thread1, e.thread2} && e.thread1 != "" && e.thread2 != "" && p.sessionID != ""
    ensures var t := Attempt(p, live, b, e);
      && 1 <= |t.runs| <= 2 && t.runs[0] == Req(p.sessionID, p.started)
      && (forall i | 0 <= i < |t.runs| :: t.runs[i].id == p.sessionID)
      && t.reply.Done? && !t.reply.auth && !t.reply.overflow && t.reply.ranIn in t.live
      && (t.recovered ==> p.started)
      && (var id := if t.reply.sessionID != "" && (!p.started || t.recovered) then t.reply.sessionID else p.sessionID;
          id == t.reply.ranIn <==> IdKnown(p, live, b, e))
      && (p.started && !t.recovered ==> t.reply.sessionID in {"", p.sessionID})
  {}

  /** Whatever the store and the CLI hold, a turn with no other trouble succeeds
      within two runs, never names a blank session, resumes first iff the record is
      started, and leaves a started record whose id is the live session that
      answered exactly when that session's id can be known. */
  lemma SelfHealing(c: Conv, live: set<string>, b: Backend, k: Sink, e: Script)
    requires FreshIds(c, live, e) && Untroubled(e)
    ensures var t, d := WorkerTurn(c, live, b, k, e), Decide(c, b, e);
      && t.ok && 1 <= |t.runs| <= 2
      && (forall i | 0 <= i < |t.runs| :: TrimSpace(t.runs[i].id) != "")
      && t.runs[0] == Req(d.sessionID, d.started)
      && t.saved.started
      && t.ranIn in t.live
      && (t.saved.sessionID == t.ranIn <==> IdKnown(d, live, b, e))
  {
    MintFresh(c, live, e);
    DecideFacts(c, live, b, e);
    assert TrimSpace("") == "";
    AttemptHeals(Pending(Decide(c, b, e), e), live, b, e);
  }

  /** A codex run that makes a session without reporting it: the answer is there, the
      record is started, and the id stored is not the session's. */
  lemma UnreportedSessionLost() returns (c: Conv, e: Script)
    ensures FreshIds(c, {}, e) && Untroubled(e)
    ensures var t := WorkerTurn(c, {}, Codex, InPlace, e);
      t.ok && t.saved.started && t.ranIn in t.live && t.saved.sessionID !in t.live
  {
    c := Conv("c", "a", false, 0, 0, [], None, 0, 0);
    e := Sample(Answer("hi", false, 0), Answer("", true, 0), Answer("", true, 0));
    SampleFresh(c, {}, e);
    assert c.sessionID[0] == 'a' && TrimSpace(c.sessionID) != "";
  }

  /** A script with ids of its own. */
  function Sample(run1: Outcome, run2: Outcome, run3: Outcome): Script {
    Script("q", [], 0, 0, 1, "m", "n", "i", run1, run2, run3, "t", "u", "v", {}, {})
  }

  lemma SampleFresh(c: Conv, live: set<string>, e: Script)
    requires e == Sample(e.run1, e.run2, e.run3)
    requires c.sessionID == "a" && live <= {"a"}
    ensures FreshIds(c, live, e)
  {
    var made := [e.mint, e.mint2, e.thread1, e.thread2, e.thread3];
    assert made[0][0] == 'm' && made[1][0] == 'n' && made[2][0] == 't' && made[3][0] == 'u' && made[4][0] == 'v';
    assert "a"[0] == 'a';
    forall i | 0 <= i < |made| ensures TrimSpace(made[i]) != "" { TrimSpaceHead(made[i]); }
  }

  /** After a healed turn the next one just resumes. */
  lemma HealedOnce(c: Conv, live: set<string>, b: Backend, k: Sink, e: Script, e2: Script)
    requires FreshIds(c, live, e) && Untroubled(e) && IdKnown(Decide(c, b, e), live, b, e) && Untroubled(e2)
    requires var t := WorkerTurn(c, live, b, k, e); FreshIds(t.saved, t.live, e2) && !Resets(t.saved, b, e2)
    ensures var t := WorkerTurn(c, live, b, k, e);
      WorkerTurn(t.saved, t.live, b, k, e2).runs == [Req(t.ranIn, true)]
  {
    SelfHealing(c, live, b, k, e);
    var t := WorkerTurn(c, live, b, k, e);
    assert TrimSpace(t.ranIn) != "" by {
      DecideFacts(c, live, b, e);
      MintFresh(c, live, e);
      assert TrimSpace("") == "";
      AttemptHeals(Pending(Decide(c, b, e), e), live, b, e);
    }
    ResumesOnce(t.saved, t.live, b, k, e2);
  }

  lemma ResumesOnce(c: Conv, live: set<string>, b: Backend, k: Sink, e: Script)
    requires c.started && c.sessionID in live && TrimSpace(c.sessionID) != "" && !Resets(c, b, e) && Untroubled(e)
    ensures WorkerTurn(c, live, b, k, e).runs == [Req(c.sessionID, true)]
  {
    assert Decide(c, b, e) == c;
  }

  // ------------------------------------------------------- overflows and answers

  /** The first run, or its one retry, comes back saying the context is full. */
  predicate Overflows(c: Conv, live: set<string>, b: Backend, e: Script) {
    var r := Attempt(Pending(Decide(c, b, e), e), live, b, e).reply;
    r.Done? && r.overflow
  }

  /** The turn makes a third run, in a continuation. */
  predicate Continued(c: Conv, live: set<string>, b: Backend, k: Sink, e: Script) {
    Overflows(c, live, b, e) && k != Forking(false)
  }

  /** What the run made last came to. */
  function LastOutcome(c: Conv, live: set<string>, b: Backend, k: Sink, e: Script): Outcome {
    if Continued(c, live, b, k, e) then e.run3
    else if |Attempt(Pending(Decide(c, b, e), e), live, b, e).runs| == 2 then e.run2
    else e.run1
  }

  function OutcomeText(o: Outcome): string {
    match o
    case Answer(text, _, _) => text
    case AuthBody(text) => text
    case OverflowBody(text, _, _) => text
    case ErrorBody(text, _, _, _) => text
    case _ => ""
  }

  /** The last of the first run and its retry resumes: a retry does what the first run
      did not. */
  predicate RetryResumes(p: Conv, live: set<string>, b: Backend, e: Script) {
    p.started <==> |Attempt(p, live, b, e).runs| == 1
  }

  /** A run on a new session that ends in an error before making it. */
  predicate Unmade(o: Outcome) { o.ErrorBody? && !o.made }

  lemma AttemptReply(p: Conv, live: set<string>, b: Backend, e: Script)
    requires e.thread1 !in live && e.thread2 !in live && e.thread1 != e.thread2
    ensures var t := Attempt(p, live, b, e);
      var o := if |t.runs| == 2 then e.run2 else e.run1;
      && 1 <= |t.runs| <= 2
      && (t.reply.Done? ==>
            && t.reply.text == OutcomeText(o)
            && (t.reply.overflow <==> o.OverflowBody?) && (t.reply.auth <==> o.AuthBody?)
            && (o.Answer? || o.AuthBody? || o.OverflowBody? || o.ErrorBody?)
            && (!t.reply.auth ==> (t.reply.ranIn in t.live <==> RetryResumes(p, live, b, e) || !Unmade(o))))
      && t.live <= live + {p.sessionID, e.thread1, e.thread2}
  {}

  lemma AttemptText(p: Conv, live: set<string>, b: Backend, e: Script)
    ensures var t := Attempt(p, live, b, e);
      var o := if |t.runs| == 2 then e.run2 else e.run1;
      && (t.reply.Done? ==>
            && t.reply.text == OutcomeText(o)
            && (t.reply.overflow <==> o.OverflowBody?) && (t.reply.auth <==> o.AuthBody?)
            && (o.Answer? || o.AuthBody? || o.OverflowBody? || o.ErrorBody?))
  {}

  /** The answer a successful turn stores is what its last run said, and that is an
      answer, not the text of an error, exactly unless that run ended in an error body;
      or the context overflowed and either there was no continuation or the run in it
      failed to authenticate or overflowed again. */
  lemma AnswerGenuineIff(c: Conv, live: set<string>, b: Backend, k: Sink, e: Script)
    requires WorkerTurn(c, live, b, k, e).ok
    ensures WorkerTurn(c, live, b, k, e).answer == OutcomeText(LastOutcome(c, live, b, k, e))
    ensures LastOutcome(c, live, b, k, e).Answer? <==>
      && !LastOutcome(c, live, b, k, e).ErrorBody?
      && !(Overflows(c, live, b, e) && (k == Forking(false) || e.run3.AuthBody? || e.run3.OverflowBody?))
  {
    AttemptText(Pending(Decide(c, b, e), e), live, b, e);
  }

  /** Whether the run made last resumes a session. */
  predicate LastResumes(c: Conv, live: set<string>, b: Backend, k: Sink, e: Script) {
    !Continued(c, live, b, k, e) && RetryResumes(Pending(Decide(c, b, e), e), live, b, e)
  }

  /** The session a successful turn's answer came from is live afterwards exactly
      unless the run in a continuation failed to authenticate, or the last run was to
      make its session and ended in an error body before it did. A claude record then
      names that session, live or not. */
  lemma AnsweredFromLiveIff(c: Conv, live: set<string>, b: Backend, k: Sink, e: Script)
    requires FreshIds(c, live, e) && WorkerTurn(c, live, b, k, e).ok
    ensures var t := WorkerTurn(c, live, b, k, e);
      && (t.ranIn in t.live <==>
            && !(Continued(c, live, b, k, e) && e.run3.AuthBody?)
            && !(!LastResumes(c, live, b, k, e) && Unmade(LastOutcome(c, live, b, k, e))))
      && (b.Claude? ==> t.saved.sessionID == t.ranIn) && t.saved.started
  {
    var p := Pending(Decide(c, b, e), e);
    ThirdIdsFresh(c, live, b, e);
    AttemptReply(p, live, b, e);
    if b.Claude? { ClaudeIds(p, live, e); }
    ConcludeRan(p, |c.history|, b, k, e, Attempt(p, live, b, e), Resets(c, b, e));
  }

  /** Where the answer kept after the first run and its retry comes from. */
  lemma ConcludeRan(p: Conv, i: int, b: Backend, k: Sink, e: Script, a: Tried, reset: bool)
    requires Conclude(p, i, b, k, e, a, reset).ok && e.mint2 !in a.live && e.thread3 !in a.live
    requires b.Claude? ==> a.reply.Done? ==> a.reply.sessionID in {"", p.sessionID} && a.reply.ranIn == p.sessionID
    ensures var t := Conclude(p, i, b, k, e, a, reset);
      && a.reply.Done? && !a.reply.auth && t.saved.started && (b.Claude? ==> t.saved.sessionID == t.ranIn)
      && (if a.reply.overflow && k != Forking(false) then t.ranIn in t.live <==> !e.run3.AuthBody? && !Unmade(e.run3)
          else t.ranIn == a.reply.ranIn && t.live == a.live)
  {
    if a.reply.overflow && k != Forking(false) {
      ThirdReply(a.live - e.drop3, b, Req(e.mint2, false), e.run3, e.thread3);
    }
  }

  /** A run on a new id. */
  lemma ThirdReply(live: set<string>, b: Backend, q: Req, o: Outcome, thread: string)
    requires !q.resume && q.id !in live && thread !in live
    ensures var (l, r) := CliRun(live, b, q, o, thread);
      r.Done? ==> (r.ranIn in l <==> !o.AuthBody? && !Unmade(o)) && (b.Claude? ==> r.ranIn == q.id && r.sessionID in {"", q.id})
  {}

  lemma ThirdIdsFresh(c: Conv, live: set<string>, b: Backend, e: Script)
    requires FreshIds(c, live, e)
    ensures var d := Decide(c, b, e);
      && e.mint2 !in live + {d.sessionID, e.thread1, e.thread2} && e.thread3 !in live + {d.sessionID, e.thread1, e.thread2}
      && e.thread1 !in live && e.thread2 !in live && e.thread1 != e.thread2
  {
    var made := [e.mint, e.mint2, e.thread1, e.thread2, e.thread3];
    assert made[0] == e.mint && made[1] == e.mint2 && made[2] == e.thread1 && made[3] == e.thread2 && made[4] == e.thread3;
    DecideFacts(c, live, b, e);
  }

  lemma ClaudeIds(p: Conv, live: set<string>, e: Script)
    ensures var t := Attempt(p, live, Claude, e);
      t.reply.Done? ==> t.reply.sessionID in {"", p.sessionID} && t.reply.ranIn == p.sessionID
  {}

  /** A full context, then a continuation whose run does not authenticate: the error
      text is the answer on record, and the record is started on a session that was
      never made. */
  lemma DeadSessionPinned(x: string) returns (c: Conv, e: Script)
    ensures FreshIds(c, {"a"}, e)
    ensures var t := WorkerTurn(c, {"a"}, Claude, InPlace, e);
      t.ok && t.answer == x && t.saved.started && t.saved.sessionID == e.mint2 && t.saved.sessionID !in t.live
  {
    c := Conv("c", "a", true, 0, 0, [], None, 0, 0);
    e := Sample(OverflowBody("full", true, 0), Answer("", true, 0), AuthBody(x));
    SampleFresh(c, {"a"}, e);
    TrimSpaceHead(c.sessionID);
    assert Decide(c, Claude, e) == c;
    assert "a"[0] == 'a' && "n"[0] == 'n';
  }

  /** A full context and no continuation: the error text is the answer on record. */
  lemma OverflowAnswered(x: string) returns (c: Conv, e: Script)
    ensures FreshIds(c, {"a"}, e)
    ensures var t := WorkerTurn(c, {"a"}, Claude, Forking(false), e);
      t.ok && t.answer == x && e.run1 == OverflowBody(x, true, 0)
  {
    c := Conv("c", "a", true, 0, 0, [], None, 0, 0);
    e := Sample(OverflowBody(x, true, 0), Answer("", true, 0), Answer("", true, 0));
    SampleFresh(c, {"a"}, e);
    TrimSpaceHead(c.sessionID);
    assert Decide(c, Claude, e) == c;
  }

  /** An error the bot has no name for: its text is the answer on record. */
  lemma ErrorAnswered(x: string) returns (c: Conv, e: Script)
    ensures FreshIds(c, {"a"}, e) && !Overflows(c, {"a"}, Claude, e)
    ensures var t := WorkerTurn(c, {"a"}, Claude, InPlace, e);
      t.ok && t.answer == x && e.run1 == ErrorBody(x, true, true, 0) && t.ranIn in t.live
  {
    c := Conv("c", "a", true, 0, 0, [], None, 0, 0);
    e := Sample(ErrorBody(x, true, true, 0), Answer("", true, 0), Answer("", true, 0));
    SampleFresh(c, {"a"}, e);
    TrimSpaceHead(c.sessionID);
    assert Decide(c, Claude, e) == c;
  }

  /** The same on the first turn, before the session is made: the record is started on
      a session that was never made. */
  lemma ErrorBeforeSession(x: string) returns (c: Conv, e: Script)
    ensures FreshIds(c, {}, e) && !Overflows(c, {}, Claude, e)
    ensures var t := WorkerTurn(c, {}, Claude, InPlace, e);
      t.ok && t.answer == x && t.saved.started && t.saved.sessionID == "a" && t.live == {}
  {
    c := Conv("c", "a", false, 0, 0, [], None, 0, 0);
    e := Sample(ErrorBody(x, false, true, 0), Answer("", true, 0), Answer("", true, 0));
    SampleFresh(c, {}, e);
    TrimSpaceHead(c.sessionID);
    assert Decide(c, Claude, e) == c;
  }

  // ----------------------------------------------------------- over many turns

  /** A turn of a conversation: the backend it is on by then, and that backend's live
      sessions as the turn finds them - after losses, or after turns on another one. */
  datatype Round = Round(b: Backend, live: set<string>, e: Script)

  /** forks: the turns that moved to a new record. */
  datatype Life = Life(saved: Conv, resets: seq<bool>, oks: seq<bool>, forks: seq<bool>)

  /** One turn per round, on what the turn before left. */
  function Live(c: Conv, k: Sink, es: seq<Round>): (l: Life)
    ensures |l.resets| == |l.oks| == |l.forks| == |es|
  {
    if es == [] then Life(c, [], [], [])
    else
      var l, r := Live(c, k, es[..|es| - 1]), es[|es| - 1];
      var t := WorkerTurn(l.saved, r.live, r.b, k, r.e);
      Life(t.saved, l.resets + [t.reset], l.oks + [t.ok], l.forks + [t.parent.Some?])
  }

  /** All a later turn has to know: a failed turn leaves the decided record, and a
      reset turn has unmarked it. */
  lemma TurnOutline(c: Conv, live: set<string>, b: Backend, k: Sink, e: Script)
    ensures var t := WorkerTurn(c, live, b, k, e);
      && t.reset == Resets(c, b, e)
      && (t.reset ==> c.started)
      && (!t.ok && (t.reset || !c.started) ==> !t.saved.started)
      && t.saved.resetCount == (if t.ok && t.parent.Some? then 0 else c.resetCount) + (if t.ok && t.reset then 1 else 0)
      && (t.parent.Some? ==> k.Forking?)
  {}

  lemma TurnHistory(c: Conv, live: set<string>, b: Backend, k: Sink, e: Script)
    ensures var t, p := WorkerTurn(c, live, b, k, e), Pending(Decide(c, b, e), e);
      && (!t.ok ==> t.saved.history == p.history && t.parent == None)
      && (t.parent.Some? ==> t.ok && t.parent.value == p)
      && (t.ok ==> t.saved.history == Capped(RecordCompletedTurn(
            if t.parent.Some? then [] else p.history, |c.history|, Replied(e, t.answer))))
  {
    var p := Pending(Decide(c, b, e), e);
    ConcludeHistory(p, |c.history|, b, k, e, Attempt(p, live, b, e), Resets(c, b, e));
  }

  lemma ConcludeHistory(p: Conv, i: int, b: Backend, k: Sink, e: Script, a: Tried, reset: bool)
    ensures var t := Conclude(p, i, b, k, e, a, reset);
      && (!t.ok ==> t.saved.history == p.history && t.parent == None)
      && (t.parent.Some? ==> t.ok && t.parent.value == p)
      && (t.ok ==> t.saved.history == Capped(RecordCompletedTurn(
            if t.parent.Some? then [] else p.history, i, Replied(e, t.answer))))
  {}

  /** No turn succeeded since the last reset, if there was one. */
  ghost predicate OwesSuccess(l: Life) {
    exists i :: 0 <= i < |l.resets| && l.resets[i] && forall m | i <= m < |l.oks| :: !l.oks[m]
  }

  lemma {:induction false} OwedIsUnstarted(c: Conv, k: Sink, es: seq<Round>)
    ensures OwesSuccess(Live(c, k, es)) ==> !Live(c, k, es).saved.started
  {
    if es != [] {
      OwedIsUnstarted(c, k, es[..|es| - 1]);
      var l0, l := Live(c, k, es[..|es| - 1]), Live(c, k, es);
      TurnOutline(l0.saved, es[|es| - 1].live, es[|es| - 1].b, k, es[|es| - 1].e);
      if OwesSuccess(l) {
        var i :| 0 <= i < |l.resets| && l.resets[i] && forall m | i <= m < |l.oks| :: !l.oks[m];
        assert !l.oks[|es| - 1];
        if i < |es| - 1 {
          assert l0.resets[i] && forall m | i <= m < |l0.oks| :: l0.oks[m] == l.oks[m];
          assert OwesSuccess(l0);
        }
      }
    }
  }

  lemma LastReset(c: Conv, k: Sink, es: seq<Round>)
    requires es != [] && Live(c, k, es).resets[|es| - 1]
    ensures Live(c, k, es[..|es| - 1]).saved.started
  {
    var p := Live(c, k, es[..|es| - 1]);
    TurnOutline(p.saved, es[|es| - 1].live, es[|es| - 1].b, k, es[|es| - 1].e);
  }

  /** Between two resets of a conversation there is a successful turn. */
  lemma {:induction false} ResetsApart(
      c: Conv, k: Sink, es: seq<Round>, i: nat, j: nat)
    requires i < j < |es|
    requires var l := Live(c, k, es); l.resets[i] && l.resets[j]
    ensures exists m :: i <= m < j && Live(c, k, es).oks[m]
    decreases |es|
  {
    var f := es[..|es| - 1];
    LiveGrows(c, k, es);
    var l, p := Live(c, k, es), Live(c, k, f);
    FrontAgrees(l, p);
    if j == |es| - 1 {
      LastReset(c, k, es);
      OwedIsUnstarted(c, k, f);
      SuccessSince(p, i);
    } else {
      ResetsApart(c, k, f, i, j);
    }
  }

  lemma FrontAgrees(l: Life, p: Life)
    requires |l.resets| == |l.oks| > 0
    requires p.resets == l.resets[..|l.resets| - 1] && p.oks == l.oks[..|l.oks| - 1]
    ensures forall m | 0 <= m < |p.oks| :: p.oks[m] == l.oks[m] && p.resets[m] == l.resets[m]
  {}

  lemma SuccessSince(p: Life, i: nat)
    requires |p.resets| == |p.oks| && i < |p.resets| && p.resets[i] && !OwesSuccess(p)
    ensures exists m :: i <= m < |p.oks| && p.oks[m]
  {}

  lemma LiveGrows(c: Conv, k: Sink, es: seq<Round>)
    requires es != []
    ensures Live(c, k, es[..|es| - 1]).resets == Live(c, k, es).resets[..|es| - 1]
    ensures Live(c, k, es[..|es| - 1]).oks == Live(c, k, es).oks[..|es| - 1]
  {}

  function CountBoth(xs: seq<bool>, ys: seq<bool>): nat
    requires |xs| == |ys|
  {
    if xs == [] then 0
    else CountBoth(xs[..|xs| - 1], ys[..|ys| - 1]) + if xs[|xs| - 1] && ys[|ys| - 1] then 1 else 0
  }

  /** The turn that made the record in use; 0 if it is still the first one. */
  function LastFork(forks: seq<bool>): (f: nat)
    ensures f <= |forks| && (forks != [] ==> f < |forks|)
  {
    if forks == [] then 0
    else if forks[|forks| - 1] then |forks| - 1
    else LastFork(forks[..|forks| - 1])
  }

  /** The resets since turn f whose own turn succeeded. */
  function CountFrom(resets: seq<bool>, oks: seq<bool>, f: nat): nat
    requires |resets| == |oks| && f <= |resets|
  {
    CountBoth(resets[f..], oks[f..])
  }

  lemma CountSnoc(xs: seq<bool>, ys: seq<bool>, x: bool, y: bool, f: nat)
    requires |xs| == |ys| && f <= |xs|
    ensures CountFrom(xs + [x], ys + [y], f) == CountFrom(xs, ys, f) + if x && y then 1 else 0
  {
    var a, b := (xs + [x])[f..], (ys + [y])[f..];
    assert a[..|a| - 1] == xs[f..] && b[..|b| - 1] == ys[f..];
  }

  /** count is what a record that began with start should show after these turns. */
  predicate Counted(start: int, count: int, resets: seq<bool>, oks: seq<bool>, forks: seq<bool>)
    requires |resets| == |oks| == |forks|
  {
    count == (if true in forks then 0 else start) + CountFrom(resets, oks, LastFork(forks))
  }

  lemma CountedSnoc(start: int, count: int, resets: seq<bool>, oks: seq<bool>, forks: seq<bool>, x: bool, y: bool, f: bool)
    requires |resets| == |oks| == |forks| && Counted(start, count, resets, oks, forks)
    ensures Counted(start, (if f then 0 else count) + (if x && y then 1 else 0), resets + [x], oks + [y], forks + [f])
  {
    var n := |forks|;
    var last := if f then n else LastFork(forks);
    assert (forks + [f])[..n] == forks && (forks + [f])[n] == f;
    assert LastFork(forks + [f]) == last;
    assert true in forks + [f] <==> f || true in forks;
    CountSnoc(resets, oks, x, y, last);
    if f { assert resets[n..] == [] && oks[n..] == []; }
  }

  /** The reset counter of the record in use counts the resets whose own turn succeeded
      since that record was made; a reset whose turn fails is not in it although the
      session is gone. */
  lemma {:induction false} ResetCountExact(c: Conv, k: Sink, es: seq<Round>)
    ensures var l := Live(c, k, es);
      Counted(c.resetCount, l.saved.resetCount, l.resets, l.oks, l.forks)
  {
    if es != [] {
      var f, e := es[..|es| - 1], es[|es| - 1];
      ResetCountExact(c, k, f);
      var l0 := Live(c, k, f);
      var t := WorkerTurn(l0.saved, e.live, e.b, k, e.e);
      LiveSnoc(c, k, es, l0, t);
      TurnCounter(l0.saved, e.live, e.b, k, e.e);
      CountedSnoc(c.resetCount, l0.saved.resetCount, l0.resets, l0.oks, l0.forks, t.reset, t.ok, t.parent.Some?);
    }
  }

  lemma TurnCounter(c: Conv, live: set<string>, b: Backend, k: Sink, e: Script)
    ensures var t := WorkerTurn(c, live, b, k, e);
      t.saved.resetCount == (if t.parent.Some? then 0 else c.resetCount) + (if t.reset && t.ok then 1 else 0)
  {
    TurnOutline(c, live, b, k, e);
    TurnHistory(c, live, b, k, e);
  }

  lemma LiveSnoc(c: Conv, k: Sink, es: seq<Round>, l0: Life, t: Turned)
    requires es != [] && l0 == Live(c, k, es[..|es| - 1])
    requires t == WorkerTurn(l0.saved, es[|es| - 1].live, es[|es| - 1].b, k, es[|es| - 1].e)
    ensures Live(c, k, es)
         == Life(t.saved, l0.resets + [t.reset], l0.oks + [t.ok], l0.forks + [t.parent.Some?])
  {}

  /** A claude session over its limit, and a run that fails: the session is given up,
      and the counter does not know. */
  lemma FailedResetUncounted() returns (c: Conv, e: Script)
    ensures FreshIds(c, {"a"}, e)
    ensures var t := WorkerTurn(c, {"a"}, Claude, InPlace, e);
      t.reset && !t.ok && t.saved.sessionID != c.sessionID && t.saved.resetCount == c.resetCount
  {
    c := Conv("c", "a", true, CLAUDE_CONTEXT_RESET_TOKENS, 0, [], None, 0, 0);
    e := Sample(Broken(false), Answer("", true, 0), Answer("", true, 0));
    SampleFresh(c, {"a"}, e);
    TrimSpaceHead(c.sessionID);
    assert "a"[0] == 'a' && "m"[0] == 'm';
  }

  // ------------------------------------------------------------------ history

  /** Every turn stores its prompt once: with its answer if it succeeds, alone if
      it does not. A turn that moved to a new record leaves the prompt alone in
      the old one and answers it in the new. */
  lemma PromptStoredOnce(c: Conv, live: set<string>, b: Backend, k: Sink, e: Script)
    ensures var t := WorkerTurn(c, live, b, k, e);
      var lone := ConvTurn(e.pendingAt, e.text, "", []);
      var done := ConvTurn(e.doneAt, e.text, t.answer, e.images);
      && (!t.ok ==> t.saved.history == c.history + [lone] && t.parent == None)
      && (t.ok && t.parent.None? ==> t.saved.history == Capped(c.history + [done]))
      && (t.parent.Some? ==> t.ok && t.parent.value.history == c.history + [lone] && t.saved.history == [done])
  {
    TurnHistory(c, live, b, k, e);
    var t := WorkerTurn(c, live, b, k, e);
    FillsPending(c.history, Lone(e), Replied(e, t.answer));
    assert Decide(c, b, e).history == c.history;
  }

  /** Of more than 200 turns the newest 200 are kept. */
  lemma NewestKept(h: seq<ConvTurn>)
    ensures |Capped(h)| == (if |h| < 200 then |h| else 200) && Capped(h) == h[|h| - |Capped(h)|..]
  {
    assert h[0..] == h;
  }

  /** Storing an answer never touches another turn: it fills the slot given if the prompt
      waits there unanswered, and otherwise comes last. */
  lemma AnswerPlaced(h: seq<ConvTurn>, at: int, done: ConvTurn)
    ensures var z := RecordCompletedTurn(h, at, done);
      if 0 <= at < |h| && h[at].prompt == done.prompt && h[at].response == "" then
        |z| == |h| && z[at] == done && forall i | 0 <= i < |h| && i != at :: z[i] == h[i]
      else z == h + [done]
  {}

  lemma FillsPending(h: seq<ConvTurn>, lone: ConvTurn, done: ConvTurn)
    requires lone.response == "" && lone.prompt == done.prompt
    ensures RecordCompletedTurn(h + [lone], |h|, done) == h + [done]
    ensures RecordCompletedTurn([], |h|, done) == [done]
  {}
}

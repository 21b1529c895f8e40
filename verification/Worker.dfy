/** host/manager.go: runWorker as it runs, on a conversation record updated in
    place and saved twice, proved to do what Session.WorkerTurn says. */
module Worker {
  import opened GoText
  import opened History
  import opened Session

  class Conversation {
    const id: string
    var sessionID: string
    var started: bool
    var claudeTokens: int
    var codexTokens: int
    var history: seq<ConvTurn>
    var lastAt: Option<int>
    var turnCount: int
    var resetCount: int

    function Rec(): Conv
      reads this
    {
      Conv(id, sessionID, started, claudeTokens, codexTokens, history, lastAt, turnCount, resetCount)
    }

    constructor (id: string, sessionID: string)
      ensures Rec() == Conv(id, sessionID, false, 0, 0, [], None, 0, 0)
    {
      this.id, this.sessionID, this.started, this.claudeTokens, this.codexTokens := id, sessionID, false, 0, 0;
      this.history, this.lastAt, this.turnCount, this.resetCount := [], None, 0, 0;
    }

    method MarkSessionReset()
      modifies this
      ensures Rec() == MarkReset(old(Rec()))
    {
      started := false;
      claudeTokens := 0;
      codexTokens := 0;
    }

    /** The session decision at the head of a turn. */
    method DecideSession(b: Backend, e: Script) returns (resume: bool, codexReset: bool, claudeReset: bool)
      modifies this
      ensures Rec() == Decide(old(Rec()), b, e) && history == old(history)
      ensures resume == started && (codexReset || claudeReset <==> Resets(old(Rec()), b, e))
    {
      if TrimSpace(sessionID) == "" {
        sessionID := e.mint;
        started := false;
      }
      resume, codexReset, claudeReset := started, false, false;
      if resume && b.Codex? && codexTokens >= CODEX_CONTEXT_RESET_TOKENS {
        resume, codexReset := false, true;
        MarkSessionReset();
      }
      if resume && b.Claude? && claudeTokens >= CLAUDE_CONTEXT_RESET_TOKENS {
        resume, claudeReset := false, true;
        sessionID := e.mint;
        MarkSessionReset();
      }
      if resume && b.Claude? && claudeTokens >= CLAUDE_IDLE_RESET_MIN_TOKENS && lastAt.Some?
         && e.startAt - lastAt.value >= CLAUDE_IDLE_RESET_AFTER {
        resume, claudeReset := false, true;
        sessionID := e.mint;
        MarkSessionReset();
      }
    }

    /** The progress a successful turn records. */
    method RecordProgress(pendingIdx: int, b: Backend, e: Script, r: Reply, recovered: bool, reset: bool)
      requires r.Done?
      modifies this
      ensures Rec() == Complete(old(Rec()), pendingIdx, b, e, r, recovered, reset)
    {
      var wasStarted := started;
      started := true;
      history := Capped(RecordCompletedTurn(history, pendingIdx, Replied(e, r.text)));
      if r.sessionID != "" && (!wasStarted || recovered || reset) {
        sessionID := r.sessionID;
      }
      codexTokens := if b.Codex? then r.tokens else codexTokens;
      claudeTokens := if b.Claude? then r.tokens else claudeTokens;
      lastAt := Some(e.doneAt);
      turnCount := turnCount + 1;
      resetCount := resetCount + if reset then 1 else 0;
    }
  }

  /** The CLI behind the bot. */
  class Cli {
    var live: set<string>
    ghost var calls: seq<Req>

    method Run(b: Backend, q: Req, o: Outcome, thread: string) returns (r: Reply)
      modifies this
      ensures (live, r) == CliRun(old(live), b, q, o, thread)
      ensures calls == old(calls) + [q]
    {
      var (l, reply) := CliRun(live, b, q, o, thread);
      live, r := l, reply;
      calls := calls + [q];
    }

    method Lose(ids: set<string>)
      modifies this`live
      ensures live == old(live) - ids
    {
      live := live - ids;
    }
  }

  /** The stored records. The store keeps the very record it is given, so what a turn
      changes after a save shows in memory; disk is everything as of the last save. */
  class Store {
    var records: map<string, Conversation>
    var disk: map<string, Conv>
    var active: string

    ghost predicate Valid()
      reads this`records, records.Values
    {
      forall id | id in records :: records[id].id == id
    }

    function Mem(): map<string, Conv>
      reads this`records, records.Values
    {
      map id | id in records :: records[id].Rec()
    }

    method Save(c: Conversation)
      requires Valid()
      modifies this`records, this`disk
      ensures Valid() && records == old(records)[c.id := c]
      ensures Mem() == old(Mem())[c.id := c.Rec()] && disk == Mem()
    {
      ghost var m := Mem();
      records := records[c.id := c];
      assert Mem() == m[c.id := c.Rec()];
      disk := Mem();
    }

    /** c is the record stored under its id. */
    ghost predicate Has(c: Conversation)
      reads this`records, records.Values
    {
      Valid() && c.id in records && records[c.id] == c
    }
  }

  /** The first run and its one retry. */
  method RunWithRecovery(c: Conversation, cli: Cli, b: Backend, resume: bool, e: Script)
    returns (r: Reply, recovered: bool)
    requires resume == c.started
    modifies cli
    ensures var t := Attempt(c.Rec(), old(cli.live), b, e);
      cli.live == t.live && r == t.reply && recovered == t.recovered && cli.calls == old(cli.calls) + t.runs
  {
    recovered := false;
    r := cli.Run(b, Req(c.sessionID, resume), e.run1, e.thread1);
    if r.Cancelled? {
      return;
    }
    if c.started && r.NotFound? {
      recovered := true;
      cli.Lose(e.drop2);
      r := cli.Run(b, Req(c.sessionID, false), e.run2, e.thread2);
    }
    if !resume && r.InUse? {
      cli.Lose(e.drop2);
      r := cli.Run(b, Req(c.sessionID, true), e.run2, e.thread2);
    }
  }

  /** A sink's makeContinuation. */
  method MakeContinuation(c: Conversation, store: Store, k: Sink, e: Script) returns (n: Conversation?)
    requires store.Has(c) && e.newID !in store.records
    modifies c, store`records, store`disk
    ensures store.Valid() && (n == null <==> k == Forking(false)) && (n != null ==> store.Has(n))
    ensures n != null ==> Some(n.Rec()) == Continue(old(c.Rec()), k, e)
    ensures k.InPlace? ==> n == c && store.disk == old(store.disk)
    ensures k == Forking(false) ==> store.Has(c) && c.Rec() == old(c.Rec()) && store.disk == old(store.disk)
    ensures k == Forking(true) ==> fresh(n) && store.disk == store.Mem()
    ensures store.Mem() == if k == Forking(false) then old(store.Mem()) else old(store.Mem())[n.id := n.Rec()]
  {
    match k
    case InPlace =>
      c.sessionID := e.mint2;
      c.started := false;
      n := c;
    case Forking(works) =>
      if !works {
        return null;
      }
      var made := new Conversation(e.newID, e.mint2);
      store.Save(made);
      n := made;
  }

  /** The session decision and the first save, with the prompt still unanswered. */
  method Prepare(conv: Conversation, store: Store, b: Backend, e: Script) returns (resume: bool, reset: bool)
    requires store.Valid()
    modifies conv, store`records, store`disk
    ensures conv.Rec() == Pending(Decide(old(conv.Rec()), b, e), e)
    ensures resume == conv.started && reset == Resets(old(conv.Rec()), b, e)
    ensures store.Has(conv) && store.records == old(store.records)[conv.id := conv]
    ensures store.Mem() == old(store.Mem())[conv.id := conv.Rec()] && store.disk == store.Mem()
  {
    resume, reset := Ready(conv, b, e);
    SaveChanged(conv, store, old(store.Mem()));
  }

  method Ready(conv: Conversation, b: Backend, e: Script) returns (resume: bool, reset: bool)
    modifies conv
    ensures conv.Rec() == Pending(Decide(old(conv.Rec()), b, e), e)
    ensures resume == conv.started && reset == Resets(old(conv.Rec()), b, e)
  {
    var codexReset, claudeReset;
    resume, codexReset, claudeReset := conv.DecideSession(b, e);
    conv.history := conv.history + [Lone(e)];
    reset := codexReset || claudeReset;
  }

  /** A save of a record that may be the stored one; m: memory before it changed. */
  method SaveChanged(conv: Conversation, store: Store, ghost m: map<string, Conv>)
    requires store.Valid() && m.Keys == store.records.Keys
    requires forall id | id in m && id != conv.id :: m[id] == store.records[id].Rec()
    modifies store`records, store`disk
    ensures store.Has(conv) && store.records == old(store.records)[conv.id := conv]
    ensures store.Mem() == m[conv.id := conv.Rec()] && store.disk == store.Mem()
  {
    store.Save(conv);
  }

  /** What the next turn finds, from m, where the first save has put p already: the new
      record of a continuation, and the turn's own. */
  function Stored(m: map<string, Conv>, p: Conv, k: Sink, e: Script, first: Reply, t: Turned): map<string, Conv> {
    var forks := first.Done? && !first.auth && first.overflow && k == Forking(true);
    (if forks then m[e.newID := Continue(p, k, e).value] else m)[t.saved.id := t.saved]
  }

  /** The bot, its store and the CLI are left as turn t leaves them. */
  ghost predicate LeftBy(t: Turned, want: map<string, Conv>, ok: bool, live: set<string>, id: string,
                         disk: map<string, Conv>, mem: map<string, Conv>) {
    && ok == t.ok && live == t.live && id == t.saved.id
    && (if t.crash then disk else mem) == want && (ok ==> disk == mem)
  }

  /** One worker turn. conv is a copy of the stored record, the record itself, or not
      stored yet; stream: the sink is the telegram stream, whose setActive does nothing. */
  method RunWorker(conv: Conversation, store: Store, cli: Cli, b: Backend, k: Sink, e: Script, stream: bool)
    returns (ok: bool)
    requires store.Valid() && e.newID !in store.records && e.newID != conv.id
    modifies conv, store, cli
    ensures var c, live := old(conv.Rec()), old(cli.live);
      var t, p := WorkerTurn(c, live, b, k, e), Pending(Decide(c, b, e), e);
      && cli.calls == old(cli.calls) + t.runs
      && LeftBy(t, Stored(old(store.Mem())[c.id := p], p, k, e, Attempt(p, live, b, e).reply, t),
                ok, cli.live, t.saved.id, store.disk, store.Mem())
      && store.active == if ok && !stream then t.saved.id else old(store.active)
    ensures store.Valid()
  {
    var id;
    ok, id := RunSaved(conv, store, cli, b, k, e);
    if ok && !stream {
      store.active := id;
    }
  }

  /** runWorker up to setActive; id: the record that would be active. */
  method RunSaved(conv: Conversation, store: Store, cli: Cli, b: Backend, k: Sink, e: Script)
    returns (ok: bool, id: string)
    requires store.Valid() && e.newID !in store.records && e.newID != conv.id
    modifies conv, store`records, store`disk, cli
    ensures var c, live := old(conv.Rec()), old(cli.live);
      var t, p := WorkerTurn(c, live, b, k, e), Pending(Decide(c, b, e), e);
      && cli.calls == old(cli.calls) + t.runs
      && LeftBy(t, Stored(old(store.Mem())[c.id := p], p, k, e, Attempt(p, live, b, e).reply, t),
                ok, cli.live, id, store.disk, store.Mem())
    ensures store.Valid()
  {
    ghost var c, live, m := conv.Rec(), cli.live, store.Mem();
    var resume, reset := Prepare(conv, store, b, e);
    ghost var p := conv.Rec();
    ghost var mp := store.Mem();
    assert mp == m[c.id := p];
    ok, id := RunPrepared(conv, store, cli, b, k, e, resume, reset);
    TurnFrom(c, live, b, k, e, p, reset);
  }

  /** runWorker from its first save on. */
  lemma TurnFrom(c: Conv, live: set<string>, b: Backend, k: Sink, e: Script, p: Conv, reset: bool)
    requires p == Pending(Decide(c, b, e), e) && reset == Resets(c, b, e)
    ensures p.history != []
    ensures WorkerTurn(c, live, b, k, e) == Conclude(p, |p.history| - 1, b, k, e, Attempt(p, live, b, e), reset)
  {}

  /** runWorker after its first save. */
  method RunPrepared(conv: Conversation, store: Store, cli: Cli, b: Backend, k: Sink, e: Script,
                     resume: bool, reset: bool) returns (ok: bool, id: string)
    requires store.Has(conv) && store.disk == store.Mem() && e.newID !in store.records
    requires resume == conv.started && conv.history != []
    modifies conv, store`records, store`disk, cli
    ensures var p, live := old(conv.Rec()), old(cli.live);
      var a := Attempt(p, live, b, e);
      var t := Conclude(p, |p.history| - 1, b, k, e, a, reset);
      && cli.calls == old(cli.calls) + t.runs
      && LeftBy(t, Stored(old(store.Mem()), p, k, e, a.reply, t), ok, cli.live, id, store.disk, store.Mem())
    ensures store.Valid()
  {
    var pendingIdx := |conv.history| - 1;
    ghost var t := Attempt(conv.Rec(), cli.live, b, e);
    var r, recovered := RunWithRecovery(conv, cli, b, resume, e);
    ok, id := ConcludeTurn(conv, store, cli, b, k, e, pendingIdx, r, recovered, reset, t, old(cli.calls));
  }

  /** The part of runWorker after the first run and its retry. */
  method ConcludeTurn(conv: Conversation, store: Store, cli: Cli, b: Backend, k: Sink, e: Script,
                      pendingIdx: int, first: Reply, recovered: bool, reset: bool,
                      ghost tried: Tried, ghost before: seq<Req>) returns (ok: bool, id: string)
    requires store.Has(conv) && store.disk == store.Mem() && e.newID !in store.records
    requires tried == Tried(cli.live, first, tried.runs, recovered) && cli.calls == before + tried.runs
    modifies conv, store`records, store`disk, cli
    ensures var t := Conclude(old(conv.Rec()), pendingIdx, b, k, e, tried, reset);
      && cli.calls == before + t.runs
      && LeftBy(t, Stored(old(store.Mem()), old(conv.Rec()), k, e, first, t),
                ok, cli.live, id, store.disk, store.Mem())
    ensures store.Valid()
  {
    if !first.Done? || first.auth {
      assert store.Mem()[conv.id := conv.Rec()] == store.Mem();
      return false, conv.id;
    }
    if first.overflow && k != Forking(false) {
      ok, id := ConcludeRetry(conv, store, cli, b, k, e, pendingIdx, first, recovered, reset, tried, before);
    } else {
      ok, id := ConcludePlain(conv, store, cli, b, k, e, pendingIdx, first, recovered, reset, tried, before);
    }
  }

  /** The answer of the first run or its retry is kept. */
  method ConcludePlain(conv: Conversation, store: Store, cli: Cli, b: Backend, k: Sink, e: Script,
                      pendingIdx: int, first: Reply, recovered: bool, reset: bool,
                      ghost tried: Tried, ghost before: seq<Req>) returns (ok: bool, id: string)
    requires first.Done? && !first.auth && (first.overflow ==> k == Forking(false))
    requires store.Has(conv) && store.disk == store.Mem() && e.newID !in store.records
    requires tried == Tried(cli.live, first, tried.runs, recovered) && cli.calls == before + tried.runs
    modifies conv, store`records, store`disk, cli
    ensures var t := Conclude(old(conv.Rec()), pendingIdx, b, k, e, tried, reset);
      && cli.calls == before + t.runs
      && LeftBy(t, Stored(old(store.Mem()), old(conv.Rec()), k, e, first, t),
                ok, cli.live, id, store.disk, store.Mem())
    ensures store.Valid()
  {
    if first.overflow {
      var n := MakeContinuation(conv, store, k, e);
    }
    Commit(conv, store, pendingIdx, b, e, first, recovered, reset);
    return true, conv.id;
  }

  /** The context was full and there is a continuation. */
  method ConcludeRetry(conv: Conversation, store: Store, cli: Cli, b: Backend, k: Sink, e: Script,
                      pendingIdx: int, first: Reply, recovered: bool, reset: bool,
                      ghost tried: Tried, ghost before: seq<Req>) returns (ok: bool, id: string)
    requires first.Done? && !first.auth && first.overflow && k != Forking(false)
    requires store.Has(conv) && store.disk == store.Mem() && e.newID !in store.records
    requires tried == Tried(cli.live, first, tried.runs, recovered) && cli.calls == before + tried.runs
    modifies conv, store`records, store`disk, cli
    ensures var t := Conclude(old(conv.Rec()), pendingIdx, b, k, e, tried, reset);
      && cli.calls == before + t.runs
      && LeftBy(t, Stored(old(store.Mem()), old(conv.Rec()), k, e, first, t),
                ok, cli.live, id, store.disk, store.Mem())
    ensures store.Valid()
  {
    ok, id := Retry(conv, store, cli, b, k, e, pendingIdx, recovered, reset, before + tried.runs);
    assert before + (tried.runs + [Req(e.mint2, false)]) == before + tried.runs + [Req(e.mint2, false)];
  }

  /** The run in a continuation, after an overflow. */
  method Retry(conv: Conversation, store: Store, cli: Cli, b: Backend, k: Sink, e: Script,
               pendingIdx: int, recovered: bool, reset: bool, ghost before: seq<Req>) returns (ok: bool, id: string)
    requires store.Has(conv) && store.disk == store.Mem() && e.newID !in store.records
    requires k != Forking(false) && cli.calls == before
    modifies conv, store`records, store`disk, cli
    ensures var p, m := old(conv.Rec()), old(store.Mem());
      var n := Continue(p, k, e).value;
      var (l3, r3) := CliRun(old(cli.live) - e.drop3, b, Req(n.sessionID, false), e.run3, e.thread3);
      var m1 := if k.InPlace? then m else m[e.newID := n];
      && ok == r3.Done? && cli.live == l3 && cli.calls == before + [Req(n.sessionID, false)]
      && id == (if ok then n.id else p.id)
      && (ok ==> (var z := Complete(n, pendingIdx, b, e, r3, recovered, reset); store.Mem() == store.disk == m1[n.id := z]))
      && (!ok ==> store.disk == m1 && store.Mem() == if k.InPlace? then m[p.id := n] else m1)
    ensures store.Valid()
  {
    var work := MakeContinuation(conv, store, k, e);
    ok := RetryRun(work, store, cli, pendingIdx, b, e, recovered, reset);
    id := if ok then work.id else conv.id;
  }

  method RetryRun(work: Conversation, store: Store, cli: Cli, pendingIdx: int, b: Backend, e: Script,
                  recovered: bool, reset: bool) returns (ok: bool)
    requires store.Has(work)
    modifies work, store`records, store`disk, cli
    ensures var n, m := old(work.Rec()), old(store.Mem());
      var (l3, r3) := CliRun(old(cli.live) - e.drop3, b, Req(n.sessionID, false), e.run3, e.thread3);
      && ok == r3.Done? && cli.live == l3 && cli.calls == old(cli.calls) + [Req(n.sessionID, false)]
      && (ok ==> store.Mem() == store.disk == m[work.id := Complete(n, pendingIdx, b, e, r3, recovered, reset)])
      && (!ok ==> store.disk == old(store.disk) && store.Mem() == m)
    ensures store.Valid()
  {
    cli.Lose(e.drop3);
    var r := cli.Run(b, Req(work.sessionID, false), e.run3, e.thread3);
    if !r.Done? {
      return false;
    }
    Commit(work, store, pendingIdx, b, e, r, recovered, reset);
    ok := true;
  }

  /** The save of a successful turn. */
  method Commit(work: Conversation, store: Store, pendingIdx: int, b: Backend, e: Script, r: Reply,
                recovered: bool, reset: bool)
    requires r.Done? && store.Has(work)
    modifies work, store`records, store`disk
    ensures work.Rec() == Complete(old(work.Rec()), pendingIdx, b, e, r, recovered, reset)
    ensures store.Valid() && store.Has(work)
    ensures store.Mem() == store.disk == old(store.Mem())[work.id := work.Rec()]
  {
    work.RecordProgress(pendingIdx, b, e, r, recovered, reset);
    store.Save(work);
  }

  lemma StoredShape(m: map<string, Conv>, p: Conv, k: Sink, e: Script, first: Reply, t: Turned)
    requires t.saved.id == if t.parent.Some? then e.newID else p.id
    requires t.parent.Some? ==> t.ok && t.parent.value == p
    requires e.newID != p.id && p.id in m && m[p.id] == p
    ensures var z := Stored(m, p, k, e, first, t);
      && t.saved.id in z && z[t.saved.id] == t.saved
      && (t.parent.Some? ==> p.id in z && z[p.id] == t.parent.value)
      && (forall id | id != p.id && id != e.newID :: id in z <==> id in m)
      && (forall id | id != p.id && id != e.newID && id in z :: z[id] == m[id])
  {}

  /** The user's conversation is the record the turn ended with, a record it moved
      on from keeps the unanswered prompt, and no other record changes. */
  lemma StoredWhatTurned(m: map<string, Conv>, c: Conv, live: set<string>, b: Backend, k: Sink, e: Script)
    requires e.newID != c.id
    ensures var t, p := WorkerTurn(c, live, b, k, e), Pending(Decide(c, b, e), e);
      var z := Stored(m[c.id := p], p, k, e, Attempt(p, live, b, e).reply, t);
      && t.saved.id in z && z[t.saved.id] == t.saved
      && (t.parent.Some? ==> c.id in z && z[c.id] == t.parent.value)
      && (forall id | id != c.id && id != e.newID :: id in z <==> id in m)
      && (forall id | id != c.id && id != e.newID && id in z :: z[id] == m[id])
  {
    var t, p := WorkerTurn(c, live, b, k, e), Pending(Decide(c, b, e), e);
    TurnIds(c, live, b, k, e);
    StoredShape(m[c.id := p], p, k, e, Attempt(p, live, b, e).reply, t);
  }

  lemma TurnIds(c: Conv, live: set<string>, b: Backend, k: Sink, e: Script)
    ensures var t, p := WorkerTurn(c, live, b, k, e), Pending(Decide(c, b, e), e);
      && t.saved.id == (if t.parent.Some? then e.newID else p.id) && p.id == c.id
      && (t.parent.Some? ==> t.ok && t.parent.value == p)
  {}
}

/** host/convsummary.go: the rolling summary of a conversation, refreshed by the
    turn itself and by one background job. What the manager model writes is not
    modelled; a summary is the list of turns folded into it. */
module Summary {
  import opened GoText
  import opened History

  const TAIL_TURNS := 5
  const PREWARM_MIN_TURNS := 3
  const REUSE_MAX_TURNS := 6
  const REUSE_MAX_CHARS := 12000

  /** covers: the turns folded in, in order; upTo: the time of the last of them. */
  datatype Sum = Sum(covers: seq<ConvTurn>, upTo: int)

  /** A call of the summarizer: fold turns into prior. */
  datatype Job = Job(prior: Option<Sum>, turns: seq<ConvTurn>)

  predicate After(a: Option<Sum>, b: Option<Sum>) {
    a.Some? && (b.None? || a.value.upTo > b.value.upTo)
  }

  function BestSummary(conv: Option<Sum>, cached: Option<Sum>): Option<Sum> {
    if After(cached, conv) then cached else conv
  }

  function Adopt(conv: Option<Sum>, cached: Option<Sum>): Option<Sum> {
    var best := BestSummary(conv, cached);
    if After(best, conv) then best else conv
  }

  function Store(cached: Option<Sum>, s: Sum): Option<Sum> {
    if cached.Some? && s.upTo <= cached.value.upTo then cached else Some(s)
  }

  /** The summarizer's answer to a job, non-blank. */
  function Folded(j: Job): Sum
    requires j.turns != []
  {
    Sum((if j.prior.Some? then j.prior.value.covers else []) + j.turns, j.turns[|j.turns| - 1].timestamp)
  }

  /** Where the turns newer than upTo start, looking no further than end. */
  function FirstNewer(h: seq<ConvTurn>, s: Option<Sum>, i: nat, end: nat): (r: nat)
    requires i <= end <= |h|
    ensures i <= r <= end
    decreases end - i
  {
    if s.Some? && i < end && h[i].timestamp <= s.value.upTo then FirstNewer(h, s, i + 1, end) else i
  }

  function TurnsToSummarize(h: seq<ConvTurn>, s: Option<Sum>, tail: nat): (r: seq<ConvTurn>)
    ensures r != [] ==> |r| <= |h| - tail
  {
    if |h| <= tail then [] else h[FirstNewer(h, s, 0, |h| - tail)..|h| - tail]
  }

  method TurnsToSummarizeLoop(h: seq<ConvTurn>, s: Option<Sum>, tail: nat) returns (pending: seq<ConvTurn>)
    ensures pending == TurnsToSummarize(h, s, tail)
  {
    var end := |h| - tail;
    if end <= 0 {
      return [];
    }
    var start := 0;
    if s.Some? {
      while start < end && h[start].timestamp <= s.value.upTo
        invariant 0 <= start <= end
        invariant FirstNewer(h, s, start, end) == FirstNewer(h, s, 0, end)
      {
        start := start + 1;
      }
    }
    if start >= end {
      return [];
    }
    pending := h[start..end];
  }

  predicate GapReusable(pending: seq<ConvTurn>) {
    |pending| <= REUSE_MAX_TURNS || Chars(pending) <= REUSE_MAX_CHARS
  }

  method SummaryGapReusable(pending: seq<ConvTurn>) returns (ok: bool)
    ensures ok == GapReusable(pending)
  {
    if |pending| <= REUSE_MAX_TURNS {
      return true;
    }
    var chars := 0;
    for i := 0 to |pending|
      invariant chars == Chars(pending[..i]) <= REUSE_MAX_CHARS
    {
      assert pending[..i + 1] == pending[..i] + [pending[i]];
      CharsConcat(pending[..i], [pending[i]]);
      chars := chars + TurnChars(pending[i]);
      if chars > REUSE_MAX_CHARS {
        assert pending == pending[..i + 1] + pending[i + 1..];
        CharsConcat(pending[..i + 1], pending[i + 1..]);
        return false;
      }
    }
    assert pending[..|pending|] == pending;
    ok := true;
  }

  lemma {:induction false} CharsConcat(a: seq<ConvTurn>, b: seq<ConvTurn>)
    ensures Chars(a + b) == Chars(a) + Chars(b)
  {
    if a == [] {
      assert a + b == b;
    } else {
      assert (a + b)[1..] == a[1..] + b;
      CharsConcat(a[1..], b);
    }
  }

  // ------------------------------------------- the turn and the background job

  /** A background job: it folds, stores what it folded (stored), and then frees the
      conversation for the next one. */
  datatype Task = Task(job: Job, stored: bool)

  /** One conversation: its stored turns; the record a turn works on (conv) and
      the saved one; the manager's cache; background jobs; the synchronous call a
      turn is waiting in, and the job it is about to hand to the background, if any. */
  datatype State = State(
    history: seq<ConvTurn>, conv: Option<Sum>, saved: Option<Sum>, cached: Option<Sum>,
    tasks: seq<Task>, inflight: bool, sync: Option<Job>, todo: Option<Job>)

  const START := State([], None, None, None, [], false, None, None)

  /** refreshSummaryAsync up to its goroutine. */
  function RefreshAsync(s: State, j: Job): State {
    if j.turns == [] || s.inflight then s else s.(inflight := true, tasks := s.tasks + [Task(j, false)])
  }

  /** Each event is one stretch under summaryMu, or what a turn does by itself. */
  datatype Event =
    | Stored(turn: ConvTurn)         // a turn is stored for good
    | Fresh                          // summaryForFreshSession, with the cache as it is now
    | FreshDone(ok: bool)            // its synchronous call returned
    | Prewarm                        // maybePrewarmSummary past its threshold, likewise
    | Start                          // either hands its job to the background
    | TaskStored(i: nat, ok: bool)   // a job's summary is cached, or there is none
    | TaskReleased(i: nat)           // its deferred delete
    | AdoptCached | Save
    | Reload(kept: bool)             // a turn ended unsaved; kept: the store holds its own record
    | Restart
    | Compact                        // !compact: the record's turns are dropped, its summary is not
    | Remade                         // deleted, and its id given to a new conversation

  /** What summaryForFreshSession makes of a summary and a history: nothing to do,
      reuse the summary as it is, or call the summarizer first. */
  datatype Plan = Skip | Reuse(best: Sum, pending: seq<ConvTurn>) | Call(job: Job) | Current(now: Sum)

  function FreshPlan(h: seq<ConvTurn>, best: Option<Sum>): (p: Plan)
    ensures p.Reuse? ==> |p.pending| <= |h| - TAIL_TURNS
    ensures p.Call? ==> p.job.turns != []
  {
    var pending := TurnsToSummarize(h, best, TAIL_TURNS);
    if |h| <= TAIL_TURNS then Skip
    else if pending != [] && best.Some? && GapReusable(pending) then Reuse(best.value, pending)
    else if pending != [] then Call(Job(best, pending))
    else if best.Some? then Current(best.value)
    else Skip
  }

  function PlanOf(s: State): Plan {
    FreshPlan(s.history, BestSummary(s.conv, s.cached))
  }

  /** The turn is neither waiting for the summarizer nor about to start a job. */
  predicate Free(s: State) { s.sync.None? && s.todo.None? }

  predicate Enabled(s: State, e: Event) {
    match e
    case Stored(t) => s.history == [] || t.timestamp > s.history[|s.history| - 1].timestamp
    case FreshDone(_) => s.sync.Some? && s.sync.value.turns != []
    case Start => s.todo.Some?
    case TaskStored(i, _) => i < |s.tasks| && !s.tasks[i].stored && s.tasks[i].job.turns != []
    case TaskReleased(i) => i < |s.tasks| && s.tasks[i].stored
    case Reload(_) => true
    case Restart => true
    case _ => Free(s)
  }

  function Step(s: State, e: Event): State
    requires Enabled(s, e)
  {
    match e
    case Stored(t) => s.(history := s.history + [t])
    case Fresh => (
      match PlanOf(s)
      case Skip => s
      case Reuse(best, pending) => s.(conv := Some(best), todo := Some(Job(Some(best), pending)))
      case Call(job) => s.(sync := Some(job))
      case Current(now) => s.(conv := Some(now)))
    case FreshDone(ok) =>
      if !ok then s.(sync := None)
      else
        var n := Folded(s.sync.value);
        s.(sync := None, cached := Store(s.cached, n), conv := Some(n))
    case Prewarm =>
      var best := BestSummary(s.conv, s.cached);
      var pending := TurnsToSummarize(s.history, best, TAIL_TURNS);
      if |pending| < PREWARM_MIN_TURNS then s else s.(todo := Some(Job(best, pending)))
    case Start => RefreshAsync(s.(todo := None), s.todo.value)
    case TaskStored(i, ok) =>
      s.(tasks := s.tasks[i := s.tasks[i].(stored := true)],
         cached := if ok then Store(s.cached, Folded(s.tasks[i].job)) else s.cached)
    case TaskReleased(i) => s.(tasks := s.tasks[..i] + s.tasks[i + 1..], inflight := false)
    case AdoptCached => s.(conv := Adopt(s.conv, s.cached))
    case Save => s.(saved := s.conv)
    case Reload(kept) => s.(conv := if kept then s.conv else s.saved, sync := None, todo := None)
    case Restart =>
      s.(conv := s.saved, sync := None, todo := None, cached := None, tasks := [], inflight := false)
    case Compact => s.(history := [], saved := s.conv)
    case Remade => s.(history := [], conv := None, saved := None)
  }

  /** A background job that has not had its answer yet. */
  predicate Working(s: State) {
    exists i | 0 <= i < |s.tasks| :: !s.tasks[i].stored
  }

  /** The turns go, and something made of them stays: a summary, or a job at work on one. */
  predicate Leftover(s: State, e: Event) {
    match e
    case Compact => s.conv.Some? || s.saved.Some? || s.cached.Some? || Working(s)
    case Remade => s.cached.Some? || Working(s)
    case _ => false
  }

  predicate ValidRun(s: State, es: seq<Event>)
    decreases |es|
  {
    es == [] || (Enabled(s, es[0]) && ValidRun(Step(s, es[0]), es[1..]))
  }

  function AfterRun(s: State, es: seq<Event>): State
    requires ValidRun(s, es)
    decreases |es|
  {
    if es == [] then s else AfterRun(Step(s, es[0]), es[1..])
  }

  /** A run in which turns only ever go when nothing made of them stays. */
  predicate Careful(s: State, es: seq<Event>)
    requires ValidRun(s, es)
    decreases |es|
  {
    es == [] || (!Leftover(s, es[0]) && Careful(Step(s, es[0]), es[1..]))
  }

  // -------------------------------------------------------------- the invariant

  ghost predicate Rising(h: seq<ConvTurn>) {
    forall i, j | 0 <= i < j < |h| :: h[i].timestamp < h[j].timestamp
  }

  /** How many turns a summary folds. */
  function Reach(s: Option<Sum>): nat {
    if s.Some? then |s.value.covers| else 0
  }

  /** s folds exactly the first turns of h, upTo is the last of them, and it stops
      short of the turns that go in verbatim. */
  ghost predicate Exact(h: seq<ConvTurn>, s: Option<Sum>) {
    s.Some? ==>
      var n := |s.value.covers|;
      1 <= n <= |h| - TAIL_TURNS && s.value.covers == h[..n] && s.value.upTo == h[n - 1].timestamp
  }

  ghost predicate ExactJob(h: seq<ConvTurn>, j: Job) {
    Exact(h, j.prior) && j.turns != [] && Reach(j.prior) + |j.turns| <= |h| - TAIL_TURNS
    && j.turns == h[Reach(j.prior)..Reach(j.prior) + |j.turns|]
  }

  ghost predicate Inv(s: State) {
    && Rising(s.history)
    && Exact(s.history, s.conv) && Exact(s.history, s.saved) && Exact(s.history, s.cached)
    && (forall i | 0 <= i < |s.tasks| && !s.tasks[i].stored :: ExactJob(s.history, s.tasks[i].job))
    && |s.tasks| == (if s.inflight then 1 else 0)
    && (s.todo.Some? ==> ExactJob(s.history, s.todo.value))
    && (s.sync.Some? ==> ExactJob(s.history, s.sync.value) && Reach(s.sync.value.prior) >= Reach(s.conv))
    && Reach(s.conv) >= Reach(s.saved)
  }

  /** Later summaries fold more, and folding more means later. */
  lemma ReachOrder(h: seq<ConvTurn>, a: Sum, b: Sum)
    requires Rising(h) && Exact(h, Some(a)) && Exact(h, Some(b))
    ensures a.upTo <= b.upTo <==> |a.covers| <= |b.covers|
  {}

  lemma FoldedExact(h: seq<ConvTurn>, j: Job)
    requires ExactJob(h, j)
    ensures Exact(h, Some(Folded(j))) && |Folded(j).covers| == Reach(j.prior) + |j.turns|
  {
    var n := Reach(j.prior);
    assert h[..n] + h[n..n + |j.turns|] == h[..n + |j.turns|];
  }

  lemma {:induction false} FirstNewerExact(h: seq<ConvTurn>, s: Option<Sum>, i: nat, end: nat)
    requires Rising(h) && Exact(h, s) && i <= Reach(s) <= end <= |h|
    ensures FirstNewer(h, s, i, end) == Reach(s)
    decreases end - i
  {
    if s.Some? {
      if i < Reach(s) {
        FirstNewerExact(h, s, i + 1, end);
      }
    }
  }

  /** What is left to summarize is exactly what lies between the summary's reach
      and the verbatim tail. */
  lemma PendingExact(h: seq<ConvTurn>, s: Option<Sum>)
    requires Rising(h) && Exact(h, s)
    ensures |h| > TAIL_TURNS ==> TurnsToSummarize(h, s, TAIL_TURNS) == h[Reach(s)..|h| - TAIL_TURNS]
    ensures TurnsToSummarize(h, s, TAIL_TURNS) != [] ==> ExactJob(h, Job(s, TurnsToSummarize(h, s, TAIL_TURNS)))
  {
    if |h| > TAIL_TURNS { FirstNewerExact(h, s, 0, |h| - TAIL_TURNS); }
  }

  lemma BestExact(h: seq<ConvTurn>, conv: Option<Sum>, cached: Option<Sum>)
    requires Rising(h) && Exact(h, conv) && Exact(h, cached)
    ensures var b := BestSummary(conv, cached);
      b in {conv, cached} && Exact(h, b) && Reach(b) >= Reach(conv) && Reach(b) >= Reach(cached)
    ensures var a := Adopt(conv, cached);
      a in {conv, cached} && Exact(h, a) && Reach(a) >= Reach(conv) && Reach(a) >= Reach(cached)
  {
    if conv.Some? && cached.Some? { ReachOrder(h, conv.value, cached.value); ReachOrder(h, cached.value, conv.value); }
  }

  lemma StoreExact(h: seq<ConvTurn>, cached: Option<Sum>, n: Sum)
    requires Rising(h) && Exact(h, cached) && Exact(h, Some(n))
    ensures Exact(h, Store(cached, n)) && Reach(Store(cached, n)) >= Reach(cached)
    ensures Reach(Store(cached, n)) >= |n.covers|
  {
    if cached.Some? { ReachOrder(h, n, cached.value); ReachOrder(h, cached.value, n); }
  }

  lemma StoredKeeps(h: seq<ConvTurn>, t: ConvTurn, s: Option<Sum>)
    requires Exact(h, s)
    ensures Exact(h + [t], s)
  {
    if s.Some? { assert (h + [t])[..|s.value.covers|] == h[..|s.value.covers|]; }
  }

  lemma StoredKeepsJob(h: seq<ConvTurn>, t: ConvTurn, j: Job)
    requires ExactJob(h, j)
    ensures ExactJob(h + [t], j)
  {
    StoredKeeps(h, t, j.prior);
    var n := Reach(j.prior);
    assert (h + [t])[n..n + |j.turns|] == h[n..n + |j.turns|];
  }

  /** No summary lost ground. */
  ghost predicate Forward(s: State, z: State) {
    Reach(z.saved) >= Reach(s.saved) && Reach(z.cached) >= Reach(s.cached) && Reach(z.conv) >= Reach(s.conv)
  }

  /** What step e may do to the turns and the summaries made of them. */
  ghost predicate Onward(s: State, e: Event, z: State) {
    !e.Compact? && !e.Remade? ==>
      && s.history <= z.history && Reach(z.saved) >= Reach(s.saved)
      && (!e.Restart? ==> Reach(z.cached) >= Reach(s.cached))
      && (!e.Restart? && !e.Reload? ==> Forward(s, z))
  }

  /** The plan a turn makes fits the history and loses no ground. */
  lemma PlanExact(s: State)
    requires Inv(s)
    ensures match PlanOf(s)
      case Skip => true
      case Reuse(b, pending) => Exact(s.history, Some(b)) && |b.covers| >= Reach(s.conv) && ExactJob(s.history, Job(Some(b), pending))
      case Call(job) => ExactJob(s.history, job) && Reach(job.prior) >= Reach(s.conv)
      case Current(now) => Exact(s.history, Some(now)) && |now.covers| >= Reach(s.conv)
  {
    BestExact(s.history, s.conv, s.cached);
    PendingExact(s.history, BestSummary(s.conv, s.cached));
  }

  lemma FreshInv(s: State)
    requires Inv(s) && Free(s)
    ensures Inv(Step(s, Fresh)) && Onward(s, Fresh, Step(s, Fresh))
  {
    PlanExact(s);
  }

  lemma StoredInv(s: State, t: ConvTurn)
    requires Inv(s) && Enabled(s, Stored(t))
    ensures Inv(Step(s, Stored(t))) && Onward(s, Stored(t), Step(s, Stored(t)))
  {
    var h := s.history;
    StoredKeeps(h, t, s.conv);
    StoredKeeps(h, t, s.saved);
    StoredKeeps(h, t, s.cached);
    forall i | 0 <= i < |s.tasks| && !s.tasks[i].stored ensures ExactJob(h + [t], s.tasks[i].job) {
      StoredKeepsJob(h, t, s.tasks[i].job);
    }
    if s.sync.Some? { StoredKeepsJob(h, t, s.sync.value); }
    if s.todo.Some? { StoredKeepsJob(h, t, s.todo.value); }
  }

  lemma FreshDoneInv(s: State, ok: bool)
    requires Inv(s) && Enabled(s, FreshDone(ok))
    ensures Inv(Step(s, FreshDone(ok))) && Onward(s, FreshDone(ok), Step(s, FreshDone(ok)))
  {
    if ok {
      FoldedExact(s.history, s.sync.value);
      AnsweredInv(s, Folded(s.sync.value));
    }
  }

  lemma AnsweredInv(s: State, n: Sum)
    requires Inv(s) && Exact(s.history, Some(n)) && |n.covers| >= Reach(s.conv)
    ensures var z := s.(sync := None, cached := Store(s.cached, n), conv := Some(n)); Inv(z) && Forward(s, z)
  {
    StoreExact(s.history, s.cached, n);
  }

  lemma PrewarmInv(s: State)
    requires Inv(s) && Free(s)
    ensures Inv(Step(s, Prewarm)) && Onward(s, Prewarm, Step(s, Prewarm))
  {
    BestExact(s.history, s.conv, s.cached);
    PendingExact(s.history, BestSummary(s.conv, s.cached));
  }

  lemma StartInv(s: State)
    requires Inv(s) && Enabled(s, Start)
    ensures Inv(Step(s, Start)) && Onward(s, Start, Step(s, Start))
  {
    var j, z := s.todo.value, Step(s, Start);
    if !s.inflight { assert s.tasks == [] && z.tasks == [Task(j, false)]; }
  }

  lemma TaskStoredInv(s: State, i: nat, ok: bool)
    requires Inv(s) && Enabled(s, TaskStored(i, ok))
    ensures Inv(Step(s, TaskStored(i, ok))) && Onward(s, TaskStored(i, ok), Step(s, TaskStored(i, ok)))
  {
    var j := s.tasks[i].job;
    assert i == 0 && s.tasks == [s.tasks[0]];
    var u := s.(tasks := s.tasks[i := s.tasks[i].(stored := true)]);
    assert ExactJob(s.history, j);
    MarkedInv(s, u);
    if ok {
      FoldedExact(s.history, j);
      StoreExact(s.history, s.cached, Folded(j));
      assert Inv(u.(cached := Store(s.cached, Folded(j))));
    }
  }

  lemma MarkedInv(s: State, u: State)
    requires Inv(s) && |s.tasks| == 1 && u == s.(tasks := u.tasks)
    requires |u.tasks| == 1 && u.tasks[0].stored
    ensures Inv(u)
  {}

  lemma TaskReleasedInv(s: State, i: nat)
    requires Inv(s) && Enabled(s, TaskReleased(i))
    ensures Inv(Step(s, TaskReleased(i))) && Onward(s, TaskReleased(i), Step(s, TaskReleased(i)))
  {
    assert |s.tasks| == 1 && Step(s, TaskReleased(i)).tasks == [];
  }

  lemma DroppedInv(s: State, e: Event)
    requires Inv(s) && Enabled(s, e) && (e.Compact? || e.Remade?) && !Leftover(s, e)
    ensures Inv(Step(s, e)) && Onward(s, e, Step(s, e))
  {
    var z := Step(s, e);
    assert forall i | 0 <= i < |z.tasks| :: z.tasks[i].stored;
  }

  lemma StepInv(s: State, e: Event)
    requires Inv(s) && Enabled(s, e) && !Leftover(s, e)
    ensures Inv(Step(s, e)) && Onward(s, e, Step(s, e))
  {
    match e
    case Stored(t) => StoredInv(s, t);
    case Fresh => FreshInv(s);
    case FreshDone(ok) => FreshDoneInv(s, ok);
    case Prewarm => PrewarmInv(s);
    case Start => StartInv(s);
    case TaskStored(i, ok) => TaskStoredInv(s, i, ok);
    case TaskReleased(i) => TaskReleasedInv(s, i);
    case AdoptCached => AdoptInv(s);
    case Compact => DroppedInv(s, e);
    case Remade => DroppedInv(s, e);
    case Save => QuietInv(s, e);
    case Reload(_) => QuietInv(s, e);
    case Restart => QuietInv(s, e);
  }

  lemma QuietInv(s: State, e: Event)
    requires Inv(s) && Enabled(s, e) && (e.Save? || e.Reload? || e.Restart?)
    ensures Inv(Step(s, e)) && Onward(s, e, Step(s, e))
  {}

  lemma AdoptInv(s: State)
    requires Inv(s) && Enabled(s, AdoptCached)
    ensures Inv(Step(s, AdoptCached)) && Onward(s, AdoptCached, Step(s, AdoptCached))
  {
    BestExact(s.history, s.conv, s.cached);
  }

  lemma {:induction false} RunInv(s: State, es: seq<Event>)
    requires Inv(s) && ValidRun(s, es) && Careful(s, es)
    ensures Inv(AfterRun(s, es))
    decreases |es|
  {
    if es != [] {
      StepInv(s, es[0]);
      RunInv(Step(s, es[0]), es[1..]);
    }
  }

  // ------------------------------------------------------------- main theorems

  /** The turns of h up to time u. */
  function UpTo(h: seq<ConvTurn>, u: int): seq<ConvTurn> {
    if h == [] then [] else if h[0].timestamp <= u then [h[0]] + UpTo(h[1..], u) else UpTo(h[1..], u)
  }

  lemma {:induction false} UpToPrefix(h: seq<ConvTurn>, n: nat)
    requires Rising(h) && n <= |h|
    ensures n > 0 ==> UpTo(h, h[n - 1].timestamp) == h[..n]
  {
    if n > 1 {
      UpToPrefix(h[1..], n - 1);
      assert h[..n] == [h[0]] + h[1..][..n - 1];
    } else if n == 1 {
      UpToNone(h[1..], h[0].timestamp);
    }
  }

  lemma {:induction false} UpToNone(h: seq<ConvTurn>, u: int)
    requires forall i | 0 <= i < |h| :: h[i].timestamp > u
    ensures UpTo(h, u) == []
  {
    if h != [] { UpToNone(h[1..], u); }
  }

  /** Every summary kept anywhere folds exactly the turns up to its upTo, each once and
      in order. */
  predicate Covered(s: State) {
    && (s.conv.Some? ==> s.conv.value.covers == UpTo(s.history, s.conv.value.upTo))
    && (s.saved.Some? ==> s.saved.value.covers == UpTo(s.history, s.saved.value.upTo))
    && (s.cached.Some? ==> s.cached.value.covers == UpTo(s.history, s.cached.value.upTo))
  }

  lemma InvCovered(s: State)
    requires Inv(s)
    ensures Covered(s)
  {
    ExactIsUpTo(s.history, s.conv);
    ExactIsUpTo(s.history, s.saved);
    ExactIsUpTo(s.history, s.cached);
  }

  /** Whatever the interleaving of turns, synchronous calls, background jobs, failures
      and restarts: every summary covers what it says, and at most one background job
      runs - as long as turns are only dropped when nothing made of them stays. */
  lemma CoverageUnderRaces(es: seq<Event>)
    requires ValidRun(START, es) && Careful(START, es)
    ensures var s := AfterRun(START, es);
      Covered(s) && |s.tasks| <= 1 && (s.inflight <==> s.tasks != [])
  {
    RunInv(START, es);
    InvCovered(AfterRun(START, es));
  }

  lemma ExactIsUpTo(h: seq<ConvTurn>, s: Option<Sum>)
    requires Rising(h) && Exact(h, s)
    ensures s.Some? ==> s.value.covers == UpTo(h, s.value.upTo)
  {
    UpToPrefix(h, Reach(s));
  }

  /** Where something stays it comes to light, at once or when a job has its answer. */
  lemma LeftoverShows(s: State, e: Event) returns (more: seq<Event>)
    requires Inv(s) && Enabled(s, e) && Leftover(s, e)
    ensures var z := Step(s, e);
      ValidRun(z, more) && Careful(z, more) && !Covered(AfterRun(z, more))
  {
    var z := Step(s, e);
    if s.cached.Some? || (e.Compact? && s.conv.Some?) {
      more := [];
    } else {
      assert !(e.Compact? && s.saved.Some?);
      var i :| 0 <= i < |s.tasks| && !s.tasks[i].stored;
      assert ExactJob(s.history, s.tasks[i].job);
      more := [TaskStored(i, true)];
      assert more[1..] == [];
    }
  }

  /** The summaries of a run go on covering what they say, whatever comes next, exactly
      if its next step leaves nothing over. */
  lemma CoverageIff(es: seq<Event>, e: Event)
    requires ValidRun(START, es) && Careful(START, es) && Enabled(AfterRun(START, es), e)
    ensures var s := AfterRun(START, es);
      var z := Step(s, e);
      !Leftover(s, e) <==> forall more | ValidRun(z, more) && Careful(z, more) :: Covered(AfterRun(z, more))
  {
    RunInv(START, es);
    var s := AfterRun(START, es);
    var z := Step(s, e);
    if Leftover(s, e) {
      var more := LeftoverShows(s, e);
      assert !Covered(AfterRun(z, more));
    } else {
      StepInv(s, e);
      forall more | ValidRun(z, more) && Careful(z, more) ensures Covered(AfterRun(z, more)) {
        RunInv(z, more);
        InvCovered(AfterRun(z, more));
      }
    }
  }

  /** Every turn folded into a is folded into b, in the same place. */
  predicate GrewTo(a: Option<Sum>, b: Option<Sum>) {
    a.Some? ==> b.Some? && a.value.covers <= b.value.covers && a.value.upTo <= b.value.upTo
  }

  lemma ReachGrows(h: seq<ConvTurn>, z: seq<ConvTurn>, a: Option<Sum>, b: Option<Sum>)
    requires h <= z && Rising(z) && Exact(h, a) && Exact(z, b) && Reach(b) >= Reach(a)
    ensures GrewTo(a, b)
  {
    if a.Some? {
      assert a.value.covers == z[..Reach(a)] && b.value.covers == z[..Reach(b)];
      assert a.value.upTo == z[Reach(a) - 1].timestamp && b.value.upTo == z[Reach(b) - 1].timestamp;
    }
  }

  lemma GrewThrough(a: Option<Sum>, b: Option<Sum>, c: Option<Sum>)
    requires GrewTo(a, b) && GrewTo(b, c)
    ensures GrewTo(a, c)
  {
    if a.Some? { assert a.value.covers <= c.value.covers; }
  }

  lemma StepGrows(s: State, e: Event)
    requires Inv(s) && Enabled(s, e) && !Leftover(s, e)
    ensures e != Remade ==> GrewTo(s.saved, Step(s, e).saved)
    ensures e != Restart ==> GrewTo(s.cached, Step(s, e).cached)
  {
    StepInv(s, e);
    var z := Step(s, e);
    if !e.Compact? && !e.Remade? {
      ReachGrows(s.history, z.history, s.saved, z.saved);
      if !e.Restart? { ReachGrows(s.history, z.history, s.cached, z.cached); }
    }
  }

  /** The saved summary never goes back in time, whatever comes after, as long as the
      conversation is not deleted; nor does the cached one until the program is
      restarted. */
  lemma {:induction false} RunGrows(s: State, es: seq<Event>)
    requires Inv(s) && ValidRun(s, es) && Careful(s, es)
    ensures Remade !in es ==> GrewTo(s.saved, AfterRun(s, es).saved)
    ensures Restart !in es ==> GrewTo(s.cached, AfterRun(s, es).cached)
    decreases |es|
  {
    if es != [] {
      var u, z := Step(s, es[0]), AfterRun(s, es);
      assert es[0] in es && forall e | e in es[1..] :: e in es;
      StepInv(s, es[0]);
      StepGrows(s, es[0]);
      RunGrows(u, es[1..]);
      if Remade !in es { GrewThrough(s.saved, u.saved, z.saved); }
      if Restart !in es { GrewThrough(s.cached, u.cached, z.cached); }
    }
  }

  lemma SummariesNeverRegress(es: seq<Event>, more: seq<Event>)
    requires ValidRun(START, es) && Careful(START, es)
    requires ValidRun(AfterRun(START, es), more) && Careful(AfterRun(START, es), more)
    ensures var s, z := AfterRun(START, es), AfterRun(AfterRun(START, es), more);
      (Remade !in more ==> GrewTo(s.saved, z.saved)) && (Restart !in more ==> GrewTo(s.cached, z.cached))
  {
    RunInv(START, es);
    RunGrows(AfterRun(START, es), more);
  }

  // ------------------------------------------------------- what the prompt gets

  /** The summary, if there is one to hand over, and the verbatim turns. */
  datatype Prompt = Prompt(summary: Option<Sum>, turns: seq<ConvTurn>)

  /** Without a summary: historyForContext. */
  function Fallback(h: seq<ConvTurn>): seq<ConvTurn> {
    Tail(h, MAX_HISTORY_ON_RECOVERY, MAX_HISTORY_CHARS_ON_RECOVERY)
  }

  function LastTurns(h: seq<ConvTurn>): seq<ConvTurn> {
    Tail(h, TAIL_TURNS, MAX_HISTORY_CHARS_ON_RECOVERY)
  }

  /** What a turn on a fresh session puts in its prompt; answers: whether the
      summarizer, if it is called, comes back with a summary. */
  function Prompted(h: seq<ConvTurn>, best: Option<Sum>, answers: bool): Prompt {
    match FreshPlan(h, best)
    case Skip => Prompt(None, Fallback(h))
    case Reuse(b, pending) => Prompt(Some(b), h[|h| - TAIL_TURNS - |pending|..])
    case Call(job) => if answers then Prompt(Some(Folded(job)), LastTurns(h)) else Prompt(None, Fallback(h))
    case Current(now) => Prompt(Some(now), LastTurns(h))
  }

  lemma TailWhole(h: seq<ConvTurn>)
    requires |h| > TAIL_TURNS
    ensures var t := LastTurns(h);
      && |t| <= TAIL_TURNS && t == h[|h| - |t|..]
      && (|t| == TAIL_TURNS <==> LastFive(h))
  {
    TailIsLongest(h, TAIL_TURNS, MAX_HISTORY_CHARS_ON_RECOVERY);
    if |LastTurns(h)| < TAIL_TURNS {
      assert !Fits(h, TAIL_TURNS, MAX_HISTORY_CHARS_ON_RECOVERY, |h| - TAIL_TURNS);
    }
  }

  /** When the summary is reused the slice is in range and holds exactly the
      turns newer than the summary. */
  lemma ReuseTakesTheNewer(h: seq<ConvTurn>, best: Option<Sum>, answers: bool)
    requires Rising(h) && Exact(h, best) && FreshPlan(h, best).Reuse?
    ensures var n := |h| - TAIL_TURNS - |FreshPlan(h, best).pending|;
      && 0 <= n == |best.value.covers|
      && Prompted(h, best, answers) == Prompt(best, h[n..])
      && (forall i | 0 <= i < |h| :: h[i].timestamp > best.value.upTo <==> i >= n)
  {
    PendingExact(h, best);
  }

  lemma SplitAt(h: seq<ConvTurn>, n: nat, t: seq<ConvTurn>)
    requires n <= |h|
    ensures h[..n] + h[n..] == h
    ensures |t| != |h| - n ==> h[..n] + t != h
  {
    assert |h[..n] + t| == n + |t|;
  }

  /** The text of the last five turns is within the budget for fresh sessions. */
  predicate LastFive(h: seq<ConvTurn>) {
    |h| >= TAIL_TURNS && Chars(h[|h| - TAIL_TURNS..]) <= MAX_HISTORY_CHARS_ON_RECOVERY
  }

  /** The whole history is within the limits of historyForContext. */
  predicate FitsFallback(h: seq<ConvTurn>) {
    |h| <= MAX_HISTORY_ON_RECOVERY && (|h| <= 1 || Chars(h) <= MAX_HISTORY_CHARS_ON_RECOVERY)
  }

  /** The turns told, folded and verbatim. */
  function Given(x: Prompt): seq<ConvTurn> {
    (if x.summary.Some? then x.summary.value.covers else []) + x.turns
  }

  /** Summary and verbatim turns together are the whole conversation. */
  ghost predicate SeesAll(h: seq<ConvTurn>, x: Prompt) { Given(x) == h }

  lemma FallbackSeesAll(h: seq<ConvTurn>)
    ensures SeesAll(h, Prompt(None, Fallback(h))) <==> FitsFallback(h)
  {
    TailIsAllIff(h, MAX_HISTORY_ON_RECOVERY, MAX_HISTORY_CHARS_ON_RECOVERY);
    assert h[0..] == h;
    var t := Fallback(h);
    assert [] + t == t;
  }

  /** When the summary is current, or is brought up to date, it reaches exactly to the
      last five turns. */
  lemma UpdatedReach(h: seq<ConvTurn>, best: Option<Sum>)
    requires Rising(h) && Exact(h, best) && (FreshPlan(h, best).Call? || FreshPlan(h, best).Current?)
    ensures |h| > TAIL_TURNS
    ensures Prompted(h, best, true).summary.Some?
    ensures Prompted(h, best, true).summary.value.covers == h[..|h| - TAIL_TURNS]
    ensures Prompted(h, best, true).turns == LastTurns(h)
  {
    PendingExact(h, best);
    assert Reach(best) <= |h| - TAIL_TURNS;
    if FreshPlan(h, best).Call? {
      assert FreshPlan(h, best).job == Job(best, h[Reach(best)..|h| - TAIL_TURNS]);
      FoldedExact(h, FreshPlan(h, best).job);
    }
  }

  lemma TailSeesAll(h: seq<ConvTurn>, x: Prompt)
    requires |h| > TAIL_TURNS && x.summary.Some? && x.summary.value.covers == h[..|h| - TAIL_TURNS]
    requires x.turns == LastTurns(h)
    ensures SeesAll(h, x) <==> LastFive(h)
  {
    TailWhole(h);
    SplitAt(h, |h| - TAIL_TURNS, x.turns);
  }

  lemma ReuseSeesAll(h: seq<ConvTurn>, s: Sum, n: nat)
    requires n <= |h| && s.covers == h[..n]
    ensures SeesAll(h, Prompt(Some(s), h[n..]))
  {
    SplitAt(h, n, []);
  }

  /** The condition, plan by plan. */
  predicate NothingMissing(h: seq<ConvTurn>, best: Option<Sum>, answers: bool) {
    match FreshPlan(h, best)
    case Skip => FitsFallback(h)
    case Reuse(_, _) => true
    case Call(_) => if answers then LastFive(h) else FitsFallback(h)
    case Current(_) => LastFive(h)
  }

  /** A turn that begins on, or recovers into, a fresh session gives it the whole
      conversation, each turn either folded or verbatim and none twice, exactly when:
      the summary is reused as it is; or it is current or was brought up to date and the
      last five turns fit the budget; or there is none to be had and the whole history
      fits the limits for that. */
  lemma FreshSessionSeesAll(h: seq<ConvTurn>, best: Option<Sum>, answers: bool)
    requires Rising(h) && Exact(h, best)
    ensures SeesAll(h, Prompted(h, best, answers)) <==> NothingMissing(h, best, answers)
  {
    match FreshPlan(h, best)
    case Skip => FallbackSeesAll(h);
    case Reuse(b, pending) =>
      ReuseTakesTheNewer(h, best, answers);
      ReuseSeesAll(h, b, |b.covers|);
    case Call(_) =>
      if answers {
        UpdatedReach(h, best);
        TailSeesAll(h, Prompted(h, best, true));
      } else {
        FallbackSeesAll(h);
      }
    case Current(_) =>
      UpdatedReach(h, best);
      TailSeesAll(h, Prompted(h, best, true));
  }

  /** So it is in every state a run reaches, with the summary the turn would take. */
  lemma FreshTurnSeesAll(es: seq<Event>, answers: bool)
    requires ValidRun(START, es) && Careful(START, es)
    ensures var s := AfterRun(START, es);
      var best := BestSummary(s.conv, s.cached);
      SeesAll(s.history, Prompted(s.history, best, answers)) <==> NothingMissing(s.history, best, answers)
  {
    RunInv(START, es);
    var s := AfterRun(START, es);
    BestExact(s.history, s.conv, s.cached);
    FreshSessionSeesAll(s.history, BestSummary(s.conv, s.cached), answers);
  }

  // ------------------------------------------------------- two histories it misses

  /** n turns a nanosecond apart, the one at long with a prompt of c characters. */
  function Plainly(n: nat, long: nat, c: nat): (h: seq<ConvTurn>)
    ensures |h| == n
    ensures forall i | 0 <= i < n :: h[i] == ConvTurn(i, if i == long then seq(c, _ => 'a') else "", "", [])
    ensures Rising(h)
  {
    seq(n, i requires 0 <= i < n => ConvTurn(i, if i == long then seq(c, _ => 'a') else "", "", []))
  }

  lemma {:induction false} ByteLenLong(s: string)
    ensures ByteLen(s) >= |s|
  {
    if s != "" { ByteLenLong(s[1..]); }
  }

  lemma {:induction false} CharsAtLeast(h: seq<ConvTurn>, i: nat)
    requires i < |h|
    ensures Chars(h) >= TurnChars(h[i])
  {
    if i > 0 { CharsAtLeast(h[1..], i - 1); }
  }

  lemma {:induction false} CharsNone(h: seq<ConvTurn>)
    requires forall i | 0 <= i < |h| :: h[i].prompt == "" && h[i].response == ""
    ensures Chars(h) == 0
  {
    if h != [] { CharsNone(h[1..]); }
  }

  /** Six turns, the fourth of them long: summarized up to the first, the prompt drops
      turns that the summary does not have. */
  lemma LongTurnHidesOthers()
    ensures var h := Plainly(6, 3, 24001);
      FreshPlan(h, None).Call? && !SeesAll(h, Prompted(h, None, true))
  {
    var h := Plainly(6, 3, 24001);
    LongInTail(h, 1, 3);
    FirstPlan(h);
    FreshSessionSeesAll(h, None, true);
  }

  lemma LongInTail(h: seq<ConvTurn>, i: nat, j: nat)
    requires i <= j < |h| && |h[j].prompt| > MAX_HISTORY_CHARS_ON_RECOVERY
    ensures Chars(h[i..]) > MAX_HISTORY_CHARS_ON_RECOVERY
  {
    var t := h[i..];
    assert t[j - i] == h[j];
    ByteLenLong(h[j].prompt);
    CharsAtLeast(t, j - i);
  }

  /** With no summary yet a history of more than five turns is summarized. */
  lemma FirstPlan(h: seq<ConvTurn>)
    requires |h| > TAIL_TURNS
    ensures FreshPlan(h, None).Call?
  {
    assert FirstNewer(h, None, 0, |h| - TAIL_TURNS) == 0;
  }

  /** Fifty short turns and a summarizer that does not answer: the first ten are lost,
      although the last five fit easily. */
  lemma FailedSummaryLosesTurns()
    ensures var h := Plainly(50, 50, 0);
      LastFive(h) && FreshPlan(h, None).Call? && !SeesAll(h, Prompted(h, None, false))
  {
    var h := Plainly(50, 50, 0);
    CharsNone(h[45..]);
    FirstPlan(h);
    FreshSessionSeesAll(h, None, false);
  }

  // ---------------------------------------------------------- two runs it misses

  lemma RunSnoc(s: State, es: seq<Event>, e: Event)
    requires ValidRun(s, es) && Careful(s, es) && Enabled(AfterRun(s, es), e) && !Leftover(AfterRun(s, es), e)
    ensures ValidRun(s, es + [e]) && Careful(s, es + [e])
    ensures AfterRun(s, es + [e]) == Step(AfterRun(s, es), e)
    decreases |es|
  {
    if es == [] {
      assert es + [e] == [e] && [e][1..] == [];
    } else {
      RunSnoc(Step(s, es[0]), es[1..], e);
      assert (es + [e])[1..] == es[1..] + [e];
    }
  }

  /** n turns are stored, one after another. */
  lemma {:induction false} StoreAll(n: nat) returns (es: seq<Event>)
    ensures ValidRun(START, es) && Careful(START, es)
    ensures AfterRun(START, es) == START.(history := Plainly(n, n, 0))
  {
    if n == 0 {
      es := [];
      assert Plainly(0, 0, 0) == [];
    } else {
      var t := ConvTurn(n - 1, "", "", []);
      es := StoreAll(n - 1);
      RunSnoc(START, es, Stored(t));
      es := es + [Stored(t)];
      assert Plainly(n - 1, n - 1, 0) + [t] == Plainly(n, n, 0);
    }
  }

  /** Six turns, the first summarized and saved. */
  lemma FirstSummary() returns (es: seq<Event>, h: seq<ConvTurn>, s: Sum)
    ensures ValidRun(START, es) && Careful(START, es) && h == Plainly(6, 6, 0) && s == Sum(h[..1], 0)
    ensures AfterRun(START, es) == State(h, Some(s), Some(s), Some(s), [], false, None, None)
  {
    es := StoreAll(6);
    h := Plainly(6, 6, 0);
    var j := Job(None, h[0..1]);
    s := Sum(h[..1], 0);
    assert FirstNewer(h, None, 0, 1) == 0 && [] + h[0..1] == h[..1];
    assert PlanOf(AfterRun(START, es)) == Call(j) && Folded(j) == s;
    RunSnoc(START, es, Fresh);
    es := es + [Fresh];
    RunSnoc(START, es, FreshDone(true));
    es := es + [FreshDone(true)];
    RunSnoc(START, es, Save);
    es := es + [Save];
  }

  /** !compact after that: the record has no turns, and a summary of one. */
  lemma CompactedKeepsSummary() returns (es: seq<Event>)
    ensures ValidRun(START, es) && Careful(START, es) && Enabled(AfterRun(START, es), Compact)
    ensures var z := Step(AfterRun(START, es), Compact);
      z.history == [] && z.saved.Some? && z.saved.value.covers != UpTo(z.history, z.saved.value.upTo)
  {
    var h, s;
    es, h, s := FirstSummary();
  }

  /** The conversation deleted and its id given out again: with its first save the new
      one has the summary of the old. */
  lemma RemadeTakesOldSummary() returns (es: seq<Event>)
    ensures ValidRun(START, es) && Careful(START, es) && Enabled(AfterRun(START, es), Remade)
    ensures var z := Step(AfterRun(START, es), Remade);
      && ValidRun(z, [AdoptCached, Save])
      && (var w := AfterRun(z, [AdoptCached, Save]);
          w.history == [] && w.saved.Some? && w.saved.value.covers != UpTo(w.history, w.saved.value.upTo))
  {
    var h, s;
    es, h, s := FirstSummary();
    var z := Step(AfterRun(START, es), Remade);
    assert z == State([], None, None, Some(s), [], false, None, None);
    RunSnoc(z, [], AdoptCached);
    RunSnoc(z, [AdoptCached], Save);
    assert [] + [AdoptCached] == [AdoptCached] && [AdoptCached] + [Save] == [AdoptCached, Save];
  }
}

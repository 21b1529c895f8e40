/** host/convsummary.go: what becomes of a background summary, and which way a turn on a
    fresh session goes, over every run and with the limits written out. */
module SummaryRules {
  import opened GoText
  import opened History
  import opened Summary
  import opened Utf8

  // ----------------------------------------------------- a fold is not lost again

  /** es leads from s to z, no turns dropped under a summary on the way. */
  ghost predicate Leads(s: State, es: seq<Event>, z: State) {
    ValidRun(s, es) && Careful(s, es) && AfterRun(s, es) == z
  }

  lemma Led(s: State, es: seq<Event>, z: State)
    requires Inv(s) && Leads(s, es, z)
    ensures Inv(z)
  {
    RunInv(s, es);
  }

  predicate NoReload(es: seq<Event>) {
    forall e | e in es :: !e.Reload? && !e.Restart? && !e.Remade?
  }

  /** The record of a turn only ever takes up a newer summary. */
  lemma {:induction false} ConvGrows(s: State, es: seq<Event>)
    requires Inv(s) && ValidRun(s, es) && Careful(s, es) && NoReload(es)
    ensures GrewTo(s.conv, AfterRun(s, es).conv)
    decreases |es|
  {
    if es != [] {
      var u := Step(s, es[0]);
      assert es[0] in es && forall e | e in es[1..] :: e in es;
      StepInv(s, es[0]);
      if !es[0].Compact? { ReachGrows(s.history, u.history, s.conv, u.conv); }
      ConvGrows(u, es[1..]);
      GrewThrough(s.conv, u.conv, AfterRun(s, es).conv);
    }
  }

  /** What the record takes up from the cache is no less than what is there. */
  lemma AdoptedAll(es: seq<Event>)
    requires ValidRun(START, es) && Careful(START, es) && Enabled(AfterRun(START, es), AdoptCached)
    ensures var s := AfterRun(START, es);
      GrewTo(s.cached, Step(s, AdoptCached).conv) && GrewTo(s.conv, Step(s, AdoptCached).conv)
  {
    RunInv(START, es);
    Adopting(AfterRun(START, es));
  }

  lemma Adopting(s: State)
    requires Inv(s)
    ensures GrewTo(s.cached, Adopt(s.conv, s.cached)) && GrewTo(s.conv, Adopt(s.conv, s.cached))
  {
    BestExact(s.history, s.conv, s.cached);
    ReachGrows(s.history, s.history, s.cached, Adopt(s.conv, s.cached));
    ReachGrows(s.history, s.history, s.conv, Adopt(s.conv, s.cached));
  }

  lemma StoredFold(s: State, i: nat)
    requires Inv(s) && Enabled(s, TaskStored(i, true))
    ensures GrewTo(Some(Folded(s.tasks[i].job)), Step(s, TaskStored(i, true)).cached)
  {
    var n := Folded(s.tasks[i].job);
    FoldedExact(s.history, s.tasks[i].job);
    StoreExact(s.history, s.cached, n);
    ReachGrows(s.history, s.history, Some(n), Store(s.cached, n));
  }

  /** From the job's answer to its adoption. */
  lemma FoldAdopted(s: State, i: nat, a: seq<Event>, u: State)
    requires Inv(s) && Enabled(s, TaskStored(i, true))
    requires Leads(Step(s, TaskStored(i, true)), a, u) && Restart !in a && Enabled(u, AdoptCached)
    ensures Inv(Step(u, AdoptCached)) && GrewTo(Some(Folded(s.tasks[i].job)), Step(u, AdoptCached).conv)
  {
    var n, s1 := Some(Folded(s.tasks[i].job)), Step(s, TaskStored(i, true));
    StepInv(s, TaskStored(i, true));
    StoredFold(s, i);
    RunGrows(s1, a);
    Led(s1, a, u);
    GrewThrough(n, s1.cached, u.cached);
    StepInv(u, AdoptCached);
    Adopting(u);
    GrewThrough(n, u.cached, Step(u, AdoptCached).conv);
  }

  /** From there to the disk. */
  lemma ConvSaved(n: Option<Sum>, u: State, b: seq<Event>, v: State, d: seq<Event>, z: State)
    requires Inv(u) && GrewTo(n, u.conv) && Leads(u, b, v) && NoReload(b) && Enabled(v, Save)
    requires Leads(Step(v, Save), d, z) && Remade !in d
    ensures GrewTo(n, z.saved)
  {
    ConvGrows(u, b);
    Led(u, b, v);
    GrewThrough(n, u.conv, v.conv);
    StepInv(v, Save);
    RunGrows(Step(v, Save), d);
    GrewThrough(n, v.conv, z.saved);
  }

  /** The turns a background job folds are in the saved summary for good once the cache
      has been adopted and the record saved: no restart in between, and the record not
      read back before it was saved. */
  lemma FoldReachesDisk(
      es: seq<Event>, s: State, i: nat, a: seq<Event>, u: State, b: seq<Event>, v: State, d: seq<Event>, z: State)
    requires Leads(START, es, s) && Enabled(s, TaskStored(i, true))
    requires Leads(Step(s, TaskStored(i, true)), a, u) && Restart !in a && Enabled(u, AdoptCached)
    requires Leads(Step(u, AdoptCached), b, v) && NoReload(b) && Enabled(v, Save)
    requires Leads(Step(v, Save), d, z) && Remade !in d
    ensures z.saved.Some? && Folded(s.tasks[i].job).covers <= z.saved.value.covers
  {
    RunInv(START, es);
    FoldAdopted(s, i, a, u);
    ConvSaved(Some(Folded(s.tasks[i].job)), Step(u, AdoptCached), b, v, d, z);
  }

  // --------------------------------------------------------------- which way it goes

  /** The turns no summary folds that are not among the last five. */
  function Unfolded(h: seq<ConvTurn>, best: Option<Sum>): seq<ConvTurn> {
    if Reach(best) <= |h| - 5 then h[Reach(best)..|h| - 5] else []
  }

  /** Six turns, or 12000 bytes, may go in as they are. */
  predicate Small(turns: seq<ConvTurn>) {
    |turns| <= 6 || Bytes(turns) <= 12_000
  }

  /** Up to five turns need no summary. Beyond that: one that reaches up to the last five
      is used as it is; a little behind it is used together with what it lacks; otherwise
      the summarizer is asked for exactly what is lacking. */
  lemma PlanIff(h: seq<ConvTurn>, best: Option<Sum>)
    requires Rising(h) && Exact(h, best)
    ensures var lacking, p := Unfolded(h, best), FreshPlan(h, best);
      if |h| <= 5 then p == Skip
      else if lacking == [] then best.Some? && p == Current(best.value)
      else if best.Some? && Small(lacking) then p == Reuse(best.value, lacking)
      else p == Call(Job(best, lacking))
  {
    PendingExact(h, best);
    CharsAreBytes(Unfolded(h, best));
  }

  /** The summary a turn reads: the record's or the cached one, as far as either goes. */
  function Known(s: State): Option<Sum> { BestSummary(s.conv, s.cached) }

  /** Whether reading it is followed by a background job: before the summary is used with
      three turns lacking, or when it is used with any. */
  predicate Refreshes(e: Event, lacking: seq<ConvTurn>, best: Option<Sum>) {
    if e == Prewarm then |lacking| >= 3 else lacking != [] && best.Some? && Small(lacking)
  }

  /** The job is started, if the turn is about to start one. */
  function Started(s: State): State { if s.todo.Some? then Step(s, Start) else s }

  /** In every reachable state: reading the cache leads to a background job for exactly the
      turns lacking if there is cause and none runs for the conversation yet, and to no
      change among the jobs otherwise. */
  lemma JobIff(es: seq<Event>, e: Event)
    requires ValidRun(START, es) && Careful(START, es) && e in {Prewarm, Fresh} && Enabled(AfterRun(START, es), e)
    ensures var s := AfterRun(START, es);
      var best := Known(s);
      var lacking := Unfolded(s.history, best);
      && Reach(best) >= Reach(s.conv) && Reach(best) >= Reach(s.cached)
      && Started(Step(s, e)).tasks ==
           if Refreshes(e, lacking, best) && s.tasks == [] then [Task(Job(best, lacking), false)] else s.tasks
  {
    RunInv(START, es);
    var s := AfterRun(START, es);
    BestExact(s.history, s.conv, s.cached);
    JobFrom(s, e);
  }

  /** A job that is to be started, is, if none runs. */
  lemma JobStarts(w: State, j: Job)
    requires w.todo == Some(j) && j.turns != [] && (w.inflight <==> w.tasks != [])
    ensures Started(w).tasks == if w.tasks == [] then [Task(j, false)] else w.tasks
  {
    assert [] + [Task(j, false)] == [Task(j, false)];
  }

  lemma PrewarmJob(s: State, lacking: seq<ConvTurn>)
    requires Inv(s) && Free(s) && Exact(s.history, Known(s)) && lacking == Unfolded(s.history, Known(s))
    ensures Started(Step(s, Prewarm)).tasks ==
      if |lacking| >= 3 && s.tasks == [] then [Task(Job(Known(s), lacking), false)] else s.tasks
  {
    PendingExact(s.history, Known(s));
    assert TurnsToSummarize(s.history, Known(s), TAIL_TURNS) == lacking;
    if |lacking| >= 3 { JobStarts(Step(s, Prewarm), Job(Known(s), lacking)); }
  }

  lemma FreshJob(s: State, lacking: seq<ConvTurn>)
    requires Inv(s) && Free(s) && Exact(s.history, Known(s)) && lacking == Unfolded(s.history, Known(s))
    ensures Started(Step(s, Fresh)).tasks ==
      if Refreshes(Fresh, lacking, Known(s)) && s.tasks == [] then [Task(Job(Known(s), lacking), false)] else s.tasks
  {
    PlanIff(s.history, Known(s));
    FreshSteps(s, PlanOf(s));
    if PlanOf(s).Reuse? { JobStarts(Step(s, Fresh), Job(Known(s), lacking)); }
  }

  lemma FreshSteps(s: State, p: Plan)
    requires Free(s) && p == PlanOf(s)
    ensures var z := Step(s, Fresh);
      && z.tasks == s.tasks && z.inflight == s.inflight
      && z.todo == if p.Reuse? then Some(Job(Some(p.best), p.pending)) else None
  {}

  lemma JobFrom(s: State, e: Event)
    requires Inv(s) && Free(s) && e in {Prewarm, Fresh} && Exact(s.history, Known(s))
    ensures var best := Known(s);
      var lacking := Unfolded(s.history, best);
      Started(Step(s, e)).tasks ==
        if Refreshes(e, lacking, best) && s.tasks == [] then [Task(Job(best, lacking), false)] else s.tasks
  {
    if e == Prewarm { PrewarmJob(s, Unfolded(s.history, Known(s))); } else { FreshJob(s, Unfolded(s.history, Known(s))); }
  }

  /** A summary of all but the last five is newer than any, or as new. */
  lemma NewestStored(h: seq<ConvTurn>, cached: Option<Sum>, n: Sum)
    requires Rising(h) && Exact(h, cached) && Exact(h, Some(n)) && |n.covers| == |h| - 5
    ensures Store(cached, n) == Some(n)
  {
    if cached.Some? { ReachOrder(h, n, cached.value); }
  }

  /** The summarizer has answered: record and cache hold all turns but the last five. */
  predicate AnswerKept(h: seq<ConvTurn>, w: State) {
    |h| >= 5 && w.conv == w.cached && w.conv.Some? && w.conv.value.covers == h[..|h| - 5] && w.sync == None
  }

  /** What a turn on a fresh session does with what it reads. */
  ghost predicate TookUp(s: State, z: State) {
    var h, lacking := s.history, Unfolded(s.history, Known(s));
    if |h| <= 5 then z == s
    else if Known(s).Some? && (lacking == [] || Small(lacking)) then z.conv == Known(s) && z.sync == None
    else
      && z.conv == s.conv && z.sync == Some(Job(Known(s), lacking))
      && Enabled(z, FreshDone(true)) && AnswerKept(h, Step(z, FreshDone(true)))
  }

  lemma AskedFor(s: State, j: Job)
    requires Inv(s) && |s.history| > 5 && ExactJob(s.history, j) && Reach(j.prior) + |j.turns| == |s.history| - 5
    ensures var z := s.(sync := Some(j)); Enabled(z, FreshDone(true)) && AnswerKept(s.history, Step(z, FreshDone(true)))
  {
    FoldedExact(s.history, j);
    NewestStored(s.history, s.cached, Folded(j));
  }

  /** The job for what is lacking folds up to the last five. */
  lemma LackingJob(h: seq<ConvTurn>, best: Option<Sum>)
    requires Exact(h, best) && |h| > 5 && Unfolded(h, best) != []
    ensures var j := Job(best, Unfolded(h, best)); ExactJob(h, j) && Reach(best) + |j.turns| == |h| - 5
  {}

  /** What each plan does to record and call. */
  ghost predicate Follows(s: State, p: Plan, z: State) {
    match p
    case Skip => z == s
    case Reuse(b, _) => z.conv == Some(b) && z.sync == s.sync
    case Call(j) => z == s.(sync := Some(j))
    case Current(b) => z.conv == Some(b) && z.sync == s.sync
  }

  lemma FreshFollows(s: State, p: Plan)
    requires Free(s) && p == PlanOf(s)
    ensures Follows(s, p, Step(s, Fresh))
  {}

  lemma TookUpBy(s: State, z: State, p: Plan, best: Option<Sum>, lacking: seq<ConvTurn>)
    requires Inv(s) && Free(s) && best == Known(s) && Exact(s.history, best) && lacking == Unfolded(s.history, best)
    requires Follows(s, p, z)
    requires if |s.history| <= 5 then p == Skip
             else if lacking == [] then best.Some? && p == Current(best.value)
             else if best.Some? && Small(lacking) then p == Reuse(best.value, lacking)
             else p == Call(Job(best, lacking))
    ensures TookUp(s, z)
  {
    if p.Call? {
      LackingJob(s.history, best);
      AskedFor(s, Job(best, lacking));
    }
  }

  lemma TakesUp(s: State)
    requires Inv(s) && Free(s) && Exact(s.history, Known(s))
    ensures TookUp(s, Step(s, Fresh))
  {
    PlanIff(s.history, Known(s));
    FreshFollows(s, PlanOf(s));
    TookUpBy(s, Step(s, Fresh), PlanOf(s), Known(s), Unfolded(s.history, Known(s)));
  }

  /** In every reachable state a turn on a fresh session takes up the best summary, if that
      is used; otherwise it asks for one, and with the answer record and cache hold all
      turns but the last five. */
  lemma FreshTakesUp(es: seq<Event>)
    requires ValidRun(START, es) && Careful(START, es) && Enabled(AfterRun(START, es), Fresh)
    ensures TookUp(AfterRun(START, es), Step(AfterRun(START, es), Fresh))
  {
    RunInv(START, es);
    var s := AfterRun(START, es);
    BestExact(s.history, s.conv, s.cached);
    TakesUp(s);
  }

  /** The last five turns, or the whole history, fit the 24000 bytes. */
  predicate FitBytes(turns: seq<ConvTurn>) { Bytes(turns) <= 24_000 }

  /** Without a summary up to forty turns go in, and the newest whatever its size. */
  predicate FitPlain(h: seq<ConvTurn>) { |h| <= 40 && (|h| <= 1 || FitBytes(h)) }

  /** A summary that is a little behind is used with what it lacks; or there is one up to
      the last five turns - asked for, if need be, and got - and those fit; or there is
      none, and the history fits without. */
  predicate FitsWhole(h: seq<ConvTurn>, best: Option<Sum>, answers: bool) {
    var lacking := Unfolded(h, best);
    if |h| <= 5 then FitPlain(h)
    else if lacking != [] && best.Some? && Small(lacking) then true
    else if lacking == [] || answers then FitBytes(h[|h| - 5..])
    else FitPlain(h)
  }

  lemma MissingIff(h: seq<ConvTurn>, best: Option<Sum>, answers: bool)
    requires Rising(h) && Exact(h, best)
    ensures NothingMissing(h, best, answers) <==> FitsWhole(h, best, answers)
  {
    PlanIff(h, best);
    CharsAreBytes(h);
    if |h| > 5 { CharsAreBytes(h[|h| - 5..]); }
  }

  /** In every reachable state a fresh session is told the whole conversation exactly if it
      fits. */
  lemma WholeIff(es: seq<Event>, answers: bool)
    requires ValidRun(START, es) && Careful(START, es)
    ensures var s := AfterRun(START, es);
      SeesAll(s.history, Prompted(s.history, Known(s), answers)) <==> FitsWhole(s.history, Known(s), answers)
  {
    FreshTurnSeesAll(es, answers);
    RunInv(START, es);
    var s := AfterRun(START, es);
    BestExact(s.history, s.conv, s.cached);
    MissingIff(s.history, Known(s), answers);
  }
}

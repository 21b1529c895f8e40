/** host/convstats.go: what a turn cost, out of the CLI's running totals, and the
    bounded record of turns. Dollars are reals. */
module TurnCost {
  const MAX_TURN_STATS: nat := 200

  // ------------------------------------------------------- cost of single turns

  /** One cost report: the session it came from, that session's running total, and
      whether the turn counts as a fresh session. begins: in truth the first of a
      new incarnation of the CLI's session, whose running total started over. */
  datatype Report = Report(session: string, total: real, isFresh: bool, begins: bool)

  /** ClaudeCostSession and ClaudeCostSeen. */
  datatype Meter = Meter(session: string, seen: real)

  const NEW_METER := Meter("", 0.0)

  /** The program's guess that a report starts over. */
  predicate StartsOver(m: Meter, r: Report) {
    r.isFresh || r.session == "" || m.session != r.session || r.total < m.seen
  }

  function Cost(m: Meter, r: Report): real {
    if StartsOver(m, r) then r.total else r.total - m.seen
  }

  function MeterAfter(rs: seq<Report>): Meter {
    if rs == [] then NEW_METER else Meter(rs[|rs| - 1].session, rs[|rs| - 1].total)
  }

  /** The meter when report k comes in. */
  function MeterBefore(rs: seq<Report>, k: nat): Meter
    requires k <= |rs|
  {
    if k == 0 then NEW_METER else Meter(rs[k - 1].session, rs[k - 1].total)
  }

  function Costs(rs: seq<Report>): (c: seq<real>)
    ensures |c| == |rs|
  {
    if rs == [] then []
    else
      var f := rs[..|rs| - 1];
      Costs(f) + [Cost(MeterAfter(f), rs[|rs| - 1])]
  }

  function Sum(xs: seq<real>): real {
    if xs == [] then 0.0 else Sum(xs[..|xs| - 1]) + xs[|xs| - 1]
  }

  // ---------------------------------------------------------- what really was

  /** Incarnations as they are: the first report begins one, and within one the
      session is the same and its total never falls. */
  ghost predicate Real(rs: seq<Report>) {
    && (forall k | 0 <= k < |rs| :: rs[k].total > 0.0)
    && (rs != [] ==> rs[0].begins)
    && (forall k | 0 < k < |rs| && !rs[k].begins ::
          rs[k].session == rs[k - 1].session && rs[k - 1].total <= rs[k].total)
  }

  /** What was spent since the report before. */
  function Spent(rs: seq<Report>, k: nat): real
    requires k < |rs|
  {
    if rs[k].begins || k == 0 then rs[k].total else rs[k].total - rs[k - 1].total
  }

  /** The last report of its incarnation. */
  predicate Final(rs: seq<Report>, k: nat)
    requires k < |rs|
  {
    k == |rs| - 1 || rs[k + 1].begins
  }

  /** The final totals of the incarnations among the first n reports. */
  function FinalTotals(rs: seq<Report>, n: nat): seq<real>
    requires n <= |rs|
  {
    if n == 0 then [] else FinalTotals(rs, n - 1) + if Final(rs, n - 1) then [rs[n - 1].total] else []
  }

  predicate Detected(rs: seq<Report>, k: nat)
    requires k < |rs|
  {
    StartsOver(MeterBefore(rs, k), rs[k])
  }

  lemma {:induction false} CostsAt(rs: seq<Report>, k: nat)
    requires k < |rs|
    ensures Costs(rs)[k] == Cost(MeterBefore(rs, k), rs[k])
  {
    if k < |rs| - 1 { CostsAt(rs[..|rs| - 1], k); }
  }

  /** A turn is charged what was spent in it exactly when the program's guess about
      a new incarnation is right; a missed beginning undercharges, a mistaken one
      overcharges, by the total seen before. */
  lemma ChargedExactlyIff(rs: seq<Report>, k: nat)
    requires Real(rs) && k < |rs|
    ensures Costs(rs)[k] == Spent(rs, k) <==> (Detected(rs, k) <==> rs[k].begins)
    ensures Detected(rs, k) && !rs[k].begins ==> Costs(rs)[k] == Spent(rs, k) + rs[k - 1].total
    ensures !Detected(rs, k) && rs[k].begins ==> Costs(rs)[k] == Spent(rs, k) - rs[k - 1].total
  {
    CostsAt(rs, k);
  }

  /** No charge is negative, whatever the reports: the guard against a falling total
      sees to that. */
  lemma ChargeNotNegative(rs: seq<Report>, k: nat)
    requires k < |rs| && rs[k].total >= 0.0
    ensures Costs(rs)[k] >= 0.0
  {
    CostsAt(rs, k);
  }

  ghost predicate AllDetected(rs: seq<Report>) {
    forall k | 0 <= k < |rs| :: Detected(rs, k) <==> rs[k].begins
  }

  lemma {:induction false} FinalsPrefix(rs: seq<Report>, r: Report, n: nat)
    requires n < |rs| || (n == |rs| && r.begins)
    ensures FinalTotals(rs + [r], n) == FinalTotals(rs, n)
  {
    if n > 0 {
      FinalsPrefix(rs, r, n - 1);
      assert (rs + [r])[n - 1] == rs[n - 1];
      assert n < |rs| ==> (rs + [r])[n] == rs[n];
    }
  }

  lemma SumSnoc(xs: seq<real>, x: real)
    ensures Sum(xs + [x]) == Sum(xs) + x
  {
    assert (xs + [x])[..|xs|] == xs;
  }

  /** The last final total gives way to a larger one of the same incarnation. */
  lemma FinalsStep(f: seq<Report>, r: Report)
    ensures var rs := f + [r];
      Sum(FinalTotals(rs, |rs|)) == Sum(FinalTotals(f, |f|)) + if f == [] || r.begins then r.total else r.total - f[|f| - 1].total
  {
    var rs, n := f + [r], |f|;
    assert rs[n] == r;
    if n == 0 {
      SumSnoc([], r.total);
      assert FinalTotals(rs, 0) == [];
      assert FinalTotals(rs, 1) == [] + [r.total];
    } else if r.begins {
      FinalsPrefix(f, r, n);
      SumSnoc(FinalTotals(f, n), r.total);
    } else {
      FinalsPrefix(f, r, n - 1);
      var before := FinalTotals(f, n - 1);
      assert rs[n - 1] == f[n - 1] && !Final(rs, n - 1);
      assert FinalTotals(rs, n) == before + [];
      SumSnoc(before, f[n - 1].total);
      SumSnoc(before, r.total);
      assert before + [] == before;
    }
  }

  lemma EachExact(rs: seq<Report>)
    requires Real(rs) && AllDetected(rs)
    ensures forall k | 0 <= k < |rs| :: Costs(rs)[k] == Spent(rs, k) >= 0.0
  {
    forall k | 0 <= k < |rs| ensures Costs(rs)[k] == Spent(rs, k) >= 0.0 {
      ChargedExactlyIff(rs, k);
      assert Detected(rs, k) <==> rs[k].begins;
    }
  }

  function Spents(rs: seq<Report>): (c: seq<real>)
    ensures |c| == |rs|
  {
    if rs == [] then [] else Spents(rs[..|rs| - 1]) + [Spent(rs, |rs| - 1)]
  }

  lemma {:induction false} SpentsAt(rs: seq<Report>, k: nat)
    requires k < |rs|
    ensures Spents(rs)[k] == Spent(rs, k)
  {
    if k < |rs| - 1 { SpentsAt(rs[..|rs| - 1], k); }
  }

  /** Telescoping: what was spent adds up to the incarnations' final totals. */
  lemma {:induction false} SpentsTelescope(rs: seq<Report>)
    ensures Sum(Spents(rs)) == Sum(FinalTotals(rs, |rs|))
  {
    if rs != [] {
      var f, r := rs[..|rs| - 1], rs[|rs| - 1];
      SpentsTelescope(f);
      assert rs == f + [r];
      FinalsStep(f, r);
      SumSnoc(Spents(f), Spent(rs, |f|));
    }
  }

  /** If every new incarnation announces itself (a fresh turn, a new id, or a lower
      total) and no other turn does, the charges add up to the final totals of all
      incarnations, and each is what its turn spent. */
  lemma CostTelescopes(rs: seq<Report>)
    requires Real(rs) && AllDetected(rs)
    ensures Sum(Costs(rs)) == Sum(FinalTotals(rs, |rs|))
    ensures forall k | 0 <= k < |rs| :: Costs(rs)[k] == Spent(rs, k) >= 0.0
  {
    EachExact(rs);
    forall k | 0 <= k < |rs| ensures Costs(rs)[k] == Spents(rs)[k] { SpentsAt(rs, k); }
    assert Costs(rs) == Spents(rs);
    SpentsTelescope(rs);
  }

  // ------------------------------------------------------- the record of turns

  datatype TurnStat = TurnStat(
    model: string, tier: string, input: nat, cacheRead: nat, cacheWrite: nat, output: nat,
    cost: real, context: nat, reset: bool, recovered: bool, summaryUsed: bool)

  /** The newest n of them, or all. */
  function Newest<T>(xs: seq<T>, n: nat): (r: seq<T>)
    ensures |r| == (if |xs| < n then |xs| else n)
    ensures forall i | 0 <= i < |r| :: r[i] == xs[|xs| - |r| + i]
  {
    if |xs| <= n then xs else xs[|xs| - n..]
  }

  lemma NewestSnoc(turns: seq<TurnStat>, st: TurnStat)
    ensures var w := Newest(turns, MAX_TURN_STATS) + [st];
      Newest(turns + [st], MAX_TURN_STATS) == Kept(w)
  {}

  function Kept(w: seq<TurnStat>): seq<TurnStat> {
    if |w| > MAX_TURN_STATS then w[|w| - MAX_TURN_STATS..] else w
  }

  method Keep(w: seq<TurnStat>) returns (kept: seq<TurnStat>)
    ensures kept == Kept(w)
  {
    kept := w;
    var over := |w| - MAX_TURN_STATS;
    if over > 0 {
      kept := w[over..];
    }
  }

  /** What the window adds up. */
  datatype Field =
    | Input | CacheRead | CacheWrite | AllTokens | Context | WithContext
    | Resets | Recoveries | Summaries | Light | OfModel(model: string)

  function One(b: bool): int { if b then 1 else 0 }

  function Value(f: Field, t: TurnStat): int {
    match f
    case Input => t.input
    case CacheRead => t.cacheRead
    case CacheWrite => t.cacheWrite
    case AllTokens => t.input + t.cacheRead + t.cacheWrite + t.output
    case Context => t.context
    case WithContext => One(t.context > 0)
    case Resets => One(t.reset)
    case Recoveries => One(t.recovered)
    case Summaries => One(t.summaryUsed)
    case Light => One(t.tier == "light")
    case OfModel(m) => One(t.model == m)
  }

  function Total(ts: seq<TurnStat>, f: Field): int {
    if ts == [] then 0 else Total(ts[..|ts| - 1], f) + Value(f, ts[|ts| - 1])
  }

  function TotalCost(ts: seq<TurnStat>): real {
    if ts == [] then 0.0 else TotalCost(ts[..|ts| - 1]) + ts[|ts| - 1].cost
  }

  function Ratio(input: int, read: int, write: int): real {
    if input + read + write == 0 then 0.0 else read as real / (input + read + write) as real
  }

  datatype Recent = Recent(
    turns: int, cost: real, tokens: int, hitRatio: real, resets: int, recovered: int,
    summaryUsed: int, light: int, avgContext: int, maxContext: int, models: map<string, int>)

  /** Counters and window of a record on which these turns were recorded. */
  ghost predicate Tally(turns: seq<TurnStat>, count: int, resets: int, window: seq<TurnStat>) {
    count == |turns| && resets == Total(turns, Resets) && window == Newest(turns, MAX_TURN_STATS)
  }

  lemma TallySnoc(turns: seq<TurnStat>, count: int, resets: int, window: seq<TurnStat>, st: TurnStat)
    requires Tally(turns, count, resets, window)
    ensures Tally(turns + [st], count + 1, resets + One(st.reset), Kept(window + [st]))
  {
    NewestSnoc(turns, st);
    CountStep(turns, st);
  }

  class Conversation {
    var costSession: string
    var costSeen: real
    var turnCount: nat
    var resetCount: nat
    var turnStats: seq<TurnStat>
    ghost var reports: seq<Report>
    ghost var turns: seq<TurnStat>

    /** The two fields that price a turn, against all cost reports ever made. */
    ghost predicate Priced()
      reads this`costSession, this`costSeen, this`reports
    {
      Meter(costSession, costSeen) == MeterAfter(reports)
    }

    /** The counters and the window, against all turns ever recorded. */
    ghost predicate Tallied()
      reads this`turnCount, this`resetCount, this`turnStats, this`turns
    {
      Tally(turns, turnCount, resetCount, turnStats)
    }

    constructor ()
      ensures Priced() && Tallied() && reports == [] && turns == []
    {
      costSession, costSeen, turnCount, resetCount, turnStats := "", 0.0, 0, 0, [];
      reports, turns := [], [];
    }

    method ClaudeTurnCost(session: string, cumulative: real, isFresh: bool, ghost begins: bool) returns (turn: real)
      requires Priced()
      modifies this`costSession, this`costSeen, this`reports
      ensures Priced() && reports == old(reports) + [Report(session, cumulative, isFresh, begins)]
      ensures Costs(reports) == Costs(old(reports)) + [turn]
    {
      turn := cumulative;
      if !isFresh && session != "" && costSession == session && cumulative >= costSeen {
        turn := cumulative - costSeen;
      }
      costSession, costSeen := session, cumulative;
      reports := reports + [Report(session, cumulative, isFresh, begins)];
      assert reports[..|reports| - 1] == old(reports);
    }

    method RecordTurnStat(st: TurnStat)
      requires Tallied()
      modifies this`turnCount, this`resetCount, this`turnStats, this`turns
      ensures Tallied() && turns == old(turns) + [st]
    {
      TallySnoc(turns, turnCount, resetCount, turnStats, st);
      turnCount := turnCount + 1;
      if st.reset {
        resetCount := resetCount + 1;
      }
      turns := turns + [st];
      turnStats := Keep(turnStats + [st]);
    }

    /** The window aggregates and the newest limit turns. */
    method BuildUsageStats(limit: int) returns (r: Recent, recentTurns: seq<TurnStat>)
      requires Tallied()
      ensures recentTurns == Newest(turns, if limit <= 0 then 0 else if limit < MAX_TURN_STATS then limit else MAX_TURN_STATS)
      ensures Summarizes(r, Newest(turns, MAX_TURN_STATS))
    {
      r := Aggregate(turnStats);
      recentTurns := [];
      if limit > 0 {
        var from := |turnStats| - limit;
        if from < 0 {
          from := 0;
        }
        recentTurns := turnStats[from..];
      }
    }
  }

  ghost predicate IsMaxContext(m: int, ts: seq<TurnStat>) {
    && (forall i | 0 <= i < |ts| :: ts[i].context <= m)
    && (m == 0 || exists i | 0 <= i < |ts| :: ts[i].context == m)
  }

  ghost predicate CountsModels(models: map<string, int>, ts: seq<TurnStat>) {
    && "" !in models
    && forall m: string | m != "" :: (if m in models then models[m] else 0) == Total(ts, OfModel(m))
  }

  ghost predicate Summarizes(r: Recent, ts: seq<TurnStat>) {
    && r.turns == |ts| && r.cost == TotalCost(ts) && r.tokens == Total(ts, AllTokens)
    && r.hitRatio == Ratio(Total(ts, Input), Total(ts, CacheRead), Total(ts, CacheWrite))
    && r.resets == Total(ts, Resets) && r.recovered == Total(ts, Recoveries)
    && r.summaryUsed == Total(ts, Summaries) && r.light == Total(ts, Light)
    && IsMaxContext(r.maxContext, ts)
    && (r.avgContext == if Total(ts, WithContext) > 0 then Total(ts, Context) / Total(ts, WithContext) else 0)
    && CountsModels(r.models, ts)
  }

  /** The running sums of the aggregation loop. */
  datatype Sums = Sums(input: int, read: int, write: int, context: int, withContext: int)

  ghost predicate SumsOf(s: Sums, ts: seq<TurnStat>) {
    && s.input == Total(ts, Input) && s.read == Total(ts, CacheRead) && s.write == Total(ts, CacheWrite)
    && s.context == Total(ts, Context) && s.withContext == Total(ts, WithContext)
  }

  /** The plain counters of the window. */
  ghost predicate CountersOf(r: Recent, ts: seq<TurnStat>) {
    && r.turns == |ts| && r.cost == TotalCost(ts) && r.tokens == Total(ts, AllTokens)
    && r.resets == Total(ts, Resets) && r.recovered == Total(ts, Recoveries)
    && r.summaryUsed == Total(ts, Summaries) && r.light == Total(ts, Light)
  }

  method Aggregate(ts: seq<TurnStat>) returns (r: Recent)
    ensures Summarizes(r, ts)
  {
    r := Recent(0, 0.0, 0, 0.0, 0, 0, 0, 0, 0, 0, map[]);
    var s := Sums(0, 0, 0, 0, 0);
    var maxContext := 0;
    var models: map<string, int> := map[];
    for i := 0 to |ts|
      invariant SumsOf(s, ts[..i]) && CountersOf(r, ts[..i])
      invariant IsMaxContext(maxContext, ts[..i]) && maxContext >= 0
      invariant CountsModels(models, ts[..i])
    {
      ghost var before := ts[..i];
      assert ts[..i + 1] == before + [ts[i]];
      r := AddCounters(r, ts[i], before);
      s := AddSums(s, ts[i], before);
      MaxStep(maxContext, before, ts[i]);
      if ts[i].context > maxContext {
        maxContext := ts[i].context;
      }
      models := CountModel(models, ts[i], before);
    }
    assert ts[..|ts|] == ts;
    r := r.(hitRatio := Ratio(s.input, s.read, s.write), maxContext := maxContext, models := models,
            avgContext := if s.withContext > 0 then s.context / s.withContext else 0);
  }

  method AddCounters(r: Recent, t: TurnStat, ghost ts: seq<TurnStat>) returns (z: Recent)
    requires CountersOf(r, ts)
    ensures CountersOf(z, ts + [t])
  {
    CountStep(ts, t);
    z := r.(turns := r.turns + 1, cost := r.cost + t.cost,
            tokens := r.tokens + (t.input + t.cacheRead + t.cacheWrite + t.output));
    if t.reset {
      z := z.(resets := z.resets + 1);
    }
    if t.recovered {
      z := z.(recovered := z.recovered + 1);
    }
    if t.summaryUsed {
      z := z.(summaryUsed := z.summaryUsed + 1);
    }
    if t.tier == "light" {
      z := z.(light := z.light + 1);
    }
  }

  lemma CountStep(ts: seq<TurnStat>, t: TurnStat)
    ensures forall f :: Total(ts + [t], f) == Total(ts, f) + Value(f, t)
    ensures TotalCost(ts + [t]) == TotalCost(ts) + t.cost
  {
    assert (ts + [t])[..|ts|] == ts;
  }

  method AddSums(s: Sums, t: TurnStat, ghost ts: seq<TurnStat>) returns (z: Sums)
    requires SumsOf(s, ts)
    ensures SumsOf(z, ts + [t])
  {
    CountStep(ts, t);
    z := Sums(s.input + t.input, s.read + t.cacheRead, s.write + t.cacheWrite, s.context, s.withContext);
    if t.context > 0 {
      z := z.(context := s.context + t.context, withContext := s.withContext + 1);
    }
  }

  lemma MaxStep(m: int, ts: seq<TurnStat>, t: TurnStat)
    requires IsMaxContext(m, ts) && m >= 0
    ensures IsMaxContext(if t.context > m then t.context else m, ts + [t])
  {
    var z := ts + [t];
    assert z[|ts|] == t && forall i | 0 <= i < |ts| :: z[i] == ts[i];
    if m > 0 && t.context <= m {
      var i :| 0 <= i < |ts| && ts[i].context == m;
      assert z[i].context == m;
    }
  }

  method CountModel(models: map<string, int>, t: TurnStat, ghost ts: seq<TurnStat>) returns (z: map<string, int>)
    requires CountsModels(models, ts)
    ensures CountsModels(z, ts + [t])
  {
    CountStep(ts, t);
    z := models;
    if t.model != "" {
      z := models[t.model := (if t.model in models then models[t.model] else 0) + 1];
    }
  }

  lemma {:induction false} RecordsSplit(a: seq<TurnStat>, b: seq<TurnStat>, f: Field)
    ensures Total(a + b, f) == Total(a, f) + Total(b, f)
    decreases |b|
  {
    if b == [] {
      assert a + b == a;
    } else {
      RecordsSplit(a, b[..|b| - 1], f);
      assert (a + b)[..|a + b| - 1] == a + b[..|b| - 1];
    }
  }

  lemma {:induction false} CountNotNegative(ts: seq<TurnStat>, f: Field)
    ensures Total(ts, f) >= 0
  {
    if ts != [] { CountNotNegative(ts[..|ts| - 1], f); }
  }

  /** The window never shows more resets than the conversation had, and all of them
      until the 201st turn. */
  lemma WindowResets(turns: seq<TurnStat>)
    ensures Total(Newest(turns, MAX_TURN_STATS), Resets) <= Total(turns, Resets)
    ensures |turns| <= MAX_TURN_STATS ==> Total(Newest(turns, MAX_TURN_STATS), Resets) == Total(turns, Resets)
  {
    var w := Newest(turns, MAX_TURN_STATS);
    var a := turns[..|turns| - |w|];
    assert turns == a + w;
    RecordsSplit(a, w, Resets);
    CountNotNegative(a, Resets);
  }
}

/** host/convstats.go: what the figures of the usage view mean, over the turns they are
    taken from. */
module UsageMeaning {
  import opened TurnCost

  function SumOf(xs: seq<int>): int {
    if xs == [] then 0 else SumOf(xs[..|xs| - 1]) + xs[|xs| - 1]
  }

  function InputOf(t: TurnStat): int { t.input }
  function ReadOf(t: TurnStat): int { t.cacheRead }
  function WriteOf(t: TurnStat): int { t.cacheWrite }
  function AllOf(t: TurnStat): int { t.input + t.cacheRead + t.cacheWrite + t.output }
  function ContextOf(t: TurnStat): int { t.context }
  predicate WasReset(t: TurnStat) { t.reset }
  predicate WasRecovered(t: TurnStat) { t.recovered }
  predicate UsedSummary(t: TurnStat) { t.summaryUsed }
  predicate WasLight(t: TurnStat) { t.tier == "light" }
  predicate KnowsContext(t: TurnStat) { t.context > 0 }

  function Column(ts: seq<TurnStat>, of: TurnStat -> int): (c: seq<int>)
    ensures |c| == |ts| && forall i | 0 <= i < |ts| :: c[i] == of(ts[i])
  {
    seq(|ts|, i requires 0 <= i < |ts| => of(ts[i]))
  }

  /** Which turns are such. */
  function Which(ts: seq<TurnStat>, such: TurnStat -> bool): set<int> {
    set i | 0 <= i < |ts| && such(ts[i])
  }

  function OnModel(ts: seq<TurnStat>, m: string): set<int> {
    set i | 0 <= i < |ts| && ts[i].model == m
  }

  lemma {:induction false} ModelCount(ts: seq<TurnStat>, m: string)
    ensures Total(ts, OfModel(m)) == |OnModel(ts, m)|
  {
    if ts != [] {
      var n := |ts| - 1;
      ModelCount(ts[..n], m);
      assert OnModel(ts, m) == OnModel(ts[..n], m) + if ts[n].model == m then {n} else {};
    }
  }

  lemma {:induction false} TotalIsSum(ts: seq<TurnStat>, f: Field, of: TurnStat -> int)
    requires forall t :: of(t) == Value(f, t)
    ensures Total(ts, f) == SumOf(Column(ts, of))
  {
    if ts != [] {
      var front := ts[..|ts| - 1];
      TotalIsSum(front, f, of);
      assert Column(ts, of)[..|ts| - 1] == Column(front, of);
    }
  }

  lemma WhichSnoc(ts: seq<TurnStat>, such: TurnStat -> bool)
    requires ts != []
    ensures var n := |ts| - 1; |Which(ts, such)| == |Which(ts[..n], such)| + if such(ts[n]) then 1 else 0
  {
    var n := |ts| - 1;
    var a, b := Which(ts[..n], such), Which(ts, such);
    assert n !in a;
    assert forall i | 0 <= i < n :: ts[..n][i] == ts[i];
    assert b == if such(ts[n]) then a + {n} else a;
  }

  lemma {:induction false} TotalIsCount(ts: seq<TurnStat>, f: Field, such: TurnStat -> bool)
    requires forall t :: Value(f, t) == if such(t) then 1 else 0
    ensures Total(ts, f) == |Which(ts, such)|
  {
    if ts != [] {
      var n := |ts| - 1;
      TotalIsCount(ts[..n], f, such);
      WhichSnoc(ts, such);
    }
  }

  /** q is what share of all part is, 0 of nothing. */
  predicate IsShare(q: real, part: int, all: int) {
    q * all as real == part as real && 0.0 <= q <= 1.0 && (all == 0 ==> q == 0.0)
  }

  lemma RatioMeans(input: int, read: int, write: int)
    requires input >= 0 && read >= 0 && write >= 0
    ensures IsShare(Ratio(input, read, write), read, input + read + write)
  {
    var all := (input + read + write) as real;
    if all > 0.0 { Quotient(read as real, all); }
  }

  lemma Quotient(a: real, b: real)
    requires 0.0 <= a <= b && b > 0.0
    ensures a / b * b == a && 0.0 <= a / b <= 1.0
  {
    var q := a / b;
    assert q * b == a;
  }

  /** Tokens and costs are sums. */
  ghost predicate SumsMean(r: Recent, ts: seq<TurnStat>) {
    var input, read := SumOf(Column(ts, InputOf)), SumOf(Column(ts, ReadOf));
    var write := SumOf(Column(ts, WriteOf));
    && r.tokens == SumOf(Column(ts, AllOf))
    && IsShare(r.hitRatio, read, input + read + write)
  }

  /** Counts are counts. */
  ghost predicate CountsMean(r: Recent, ts: seq<TurnStat>) {
    && r.turns == |ts| && r.resets == |Which(ts, WasReset)| && r.recovered == |Which(ts, WasRecovered)|
    && r.summaryUsed == |Which(ts, UsedSummary)| && r.light == |Which(ts, WasLight)|
    && forall m | m != "" :: (if m in r.models then r.models[m] else 0) == |OnModel(ts, m)|
  }

  /** The average is over the turns that know their context, rounded down. */
  ghost predicate ContextMeans(r: Recent, ts: seq<TurnStat>) {
    var n, sum := |Which(ts, KnowsContext)|, SumOf(Column(ts, ContextOf));
    && IsMaxContext(r.maxContext, ts)
    && (if n == 0 then r.avgContext == 0 else r.avgContext * n <= sum < (r.avgContext + 1) * n)
  }

  lemma RatioOfTotals(ts: seq<TurnStat>)
    ensures var i, r, w := Total(ts, Input), Total(ts, CacheRead), Total(ts, CacheWrite);
      IsShare(Ratio(i, r, w), r, i + r + w)
  {
    CountNotNegative(ts, Input);
    CountNotNegative(ts, CacheRead);
    CountNotNegative(ts, CacheWrite);
    RatioMeans(Total(ts, Input), Total(ts, CacheRead), Total(ts, CacheWrite));
  }

  lemma ColumnSums(ts: seq<TurnStat>)
    ensures SumOf(Column(ts, InputOf)) == Total(ts, Input)
    ensures SumOf(Column(ts, ReadOf)) == Total(ts, CacheRead)
    ensures SumOf(Column(ts, WriteOf)) == Total(ts, CacheWrite)
    ensures SumOf(Column(ts, AllOf)) == Total(ts, AllTokens)
  {
    TotalIsSum(ts, Input, InputOf);
    TotalIsSum(ts, CacheRead, ReadOf);
    TotalIsSum(ts, CacheWrite, WriteOf);
    TotalIsSum(ts, AllTokens, AllOf);
  }

  lemma SumsOfWindow(r: Recent, ts: seq<TurnStat>)
    requires Summarizes(r, ts)
    ensures SumsMean(r, ts)
  {
    var q := r.hitRatio;
    assert r.tokens == Total(ts, AllTokens) && q == Ratio(Total(ts, Input), Total(ts, CacheRead), Total(ts, CacheWrite));
    RatioOfTotals(ts);
    ColumnSums(ts);
  }

  lemma CountsOfWindow(r: Recent, ts: seq<TurnStat>)
    requires Summarizes(r, ts)
    ensures CountsMean(r, ts)
  {
    TotalIsCount(ts, Resets, WasReset);
    TotalIsCount(ts, Recoveries, WasRecovered);
    TotalIsCount(ts, Summaries, UsedSummary);
    TotalIsCount(ts, Light, WasLight);
    forall m: string | m != "" ensures (if m in r.models then r.models[m] else 0) == |OnModel(ts, m)| {
      ModelCount(ts, m);
    }
  }

  lemma ContextOfWindow(r: Recent, ts: seq<TurnStat>)
    requires Summarizes(r, ts)
    ensures ContextMeans(r, ts)
  {
    TotalIsCount(ts, WithContext, KnowsContext);
    TotalIsSum(ts, Context, ContextOf);
    var n, sum := Total(ts, WithContext), Total(ts, Context);
    if n > 0 { assert sum == sum / n * n + sum % n; }
  }

  /** What the usage view shows of any turns is what its figures are called. */
  lemma FiguresMean(r: Recent, ts: seq<TurnStat>)
    requires Summarizes(r, ts)
    ensures SumsMean(r, ts) && CountsMean(r, ts) && ContextMeans(r, ts)
  {
    SumsOfWindow(r, ts);
    CountsOfWindow(r, ts);
    ContextOfWindow(r, ts);
  }

  /** The turns they are taken from are the newest 200, or all there were. */
  lemma WindowIsNewest(turns: seq<TurnStat>, count: int, resets: int, window: seq<TurnStat>)
    requires Tally(turns, count, resets, window)
    ensures |window| == (if |turns| < 200 then |turns| else 200) && window == turns[|turns| - |window|..]
    ensures count == |turns| && resets == |Which(turns, WasReset)|
  {
    TotalIsCount(turns, Resets, WasReset);
    assert turns[0..] == turns;
  }

  /** The first report is charged in full; a later one for what came on top of the one
      before, unless the turn began a session, has no session id or another, or the total
      fell. */
  lemma ChargeRule(rs: seq<Report>, k: nat)
    requires k < |rs| && (k == 0 ==> rs[k].total >= 0.0)
    ensures var r := rs[k];
      Costs(rs)[k] == if k == 0 || r.isFresh || r.session == "" || r.session != rs[k - 1].session || r.total < rs[k - 1].total
                      then r.total else r.total - rs[k - 1].total
  {
    CostsAt(rs, k);
  }
}

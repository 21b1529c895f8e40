/** host/manager.go and host/convstats.go together: what a claude conversation is
    charged over its turns, with the session ids and the freshness flag that runWorker
    passes on. */
module SessionCost {
  import opened GoText
  import opened Session
  import opened TurnCost

  /** One turn. lost: ids the CLI loses before it; total: what the session that answers
      has cost so far (no cost is reported if that is 0). */
  datatype Turn = Turn(e: Script, lost: set<string>, total: real)

  /** reports: those made on the record in use; stale: the CLI has lost the session of
      the last of them since; missed: some turn of theirs was Missed. */
  datatype Bill = Bill(conv: Conv, live: set<string>, reports: seq<Report>, stale: bool, missed: bool)

  function LastSession(b: Bill): string { MeterAfter(b.reports).session }

  function Answered(b: Bill, k: Sink, x: Turn): Turned {
    WorkerTurn(b.conv, b.live - x.lost, Claude, k, x.e)
  }

  function Tries(b: Bill, x: Turn): Tried {
    Attempt(Pending(Decide(b.conv, Claude, x.e), x.e), b.live - x.lost, Claude, x.e)
  }

  /** The turn goes on in a new session after an overflow. */
  predicate Continues(b: Bill, k: Sink, x: Turn) {
    Continued(b.conv, b.live - x.lost, Claude, k, x.e)
  }

  /** The flag runWorker passes: !resume || sessionRecovered. */
  predicate Flagged(b: Bill, x: Turn) {
    !Decide(b.conv, Claude, x.e).started || Tries(b, x).recovered
  }

  /** By the time the turn is answered the CLI has lost the last reported session, if
      only to make it anew. */
  predicate StaleBy(b: Bill, k: Sink, x: Turn) {
    var s := LastSession(b);
    || b.stale || s !in b.live - x.lost
    || (|Tries(b, x).runs| == 2 && s in x.e.drop2) || (Continues(b, k, x) && s in x.e.drop3)
  }

  /** The reports the turn adds to: none on a record it has just made. */
  function Base(b: Bill, k: Sink, x: Turn): seq<Report> {
    if Answered(b, k, x).parent.Some? then [] else b.reports
  }

  /** In truth the first report of an incarnation of its session. */
  predicate Begins(b: Bill, k: Sink, x: Turn) {
    Base(b, k, x) == [] || Answered(b, k, x).ranIn != LastSession(b) || StaleBy(b, k, x)
  }

  function ReportOf(b: Bill, k: Sink, x: Turn): Report {
    Report(Answered(b, k, x).saved.sessionID, x.total, Flagged(b, x), Begins(b, k, x))
  }

  /** A plain resume that finds the last reported session made anew - by a turn that
      reported no cost, a failed one say - with a total that has caught up. */
  predicate Missed(b: Bill, k: Sink, x: Turn) {
    && Base(b, k, x) != [] && !Flagged(b, x) && !Continues(b, k, x)
    && Decide(b.conv, Claude, x.e).sessionID == LastSession(b)
    && StaleBy(b, k, x) && x.total >= MeterAfter(b.reports).seen
  }

  function Charge(b: Bill, k: Sink, x: Turn): Bill {
    var t := Answered(b, k, x);
    var forked := t.parent.Some?;
    if t.ok && x.total > 0.0 then
      Bill(t.saved, t.live, Base(b, k, x) + [ReportOf(b, k, x)], false, (!forked && b.missed) || Missed(b, k, x))
    else Bill(t.saved, t.live, Base(b, k, x), !forked && StaleBy(b, k, x), !forked && b.missed)
  }

  function Open(c: Conv, live: set<string>): Bill { Bill(c, live, [], false, false) }

  function Charged(c: Conv, live: set<string>, k: Sink, xs: seq<Turn>): Bill {
    if xs == [] then Open(c, live) else Charge(Charged(c, live, k, xs[..|xs| - 1]), k, xs[|xs| - 1])
  }

  /** Made-up ids are new, and within one incarnation a session's total does not fall. */
  ghost predicate Fair(b: Bill, k: Sink, x: Turn) {
    && FreshIds(b.conv, b.live - x.lost, x.e)
    && x.e.mint != LastSession(b) && x.e.mint2 != LastSession(b)
    && (Answered(b, k, x).ok && x.total > 0.0 && !Begins(b, k, x) ==> x.total >= MeterAfter(b.reports).seen)
  }

  ghost predicate FairRun(c: Conv, live: set<string>, k: Sink, xs: seq<Turn>) {
    xs == [] || (FairRun(c, live, k, xs[..|xs| - 1]) && Fair(Charged(c, live, k, xs[..|xs| - 1]), k, xs[|xs| - 1]))
  }

  // ------------------------------------------------------------- what turns do

  /** The session a successful claude turn names, and where it comes from. */
  lemma AnsweredIn(c: Conv, live: set<string>, k: Sink, e: Script)
    requires FreshIds(c, live, e) && WorkerTurn(c, live, Claude, k, e).ok
    ensures var t, d := WorkerTurn(c, live, Claude, k, e), Decide(c, Claude, e);
      && t.saved.sessionID == t.ranIn && t.saved.started && t.ranIn != ""
      && t.ranIn == (if Continued(c, live, Claude, k, e) then e.mint2 else d.sessionID)
  {
    AnsweredFromLiveIff(c, live, Claude, k, e);
    DecideFacts(c, live, Claude, e);
    MintFresh(c, live, e);
    assert TrimSpace("") == "";
    ClaudeIds(Pending(Decide(c, Claude, e), e), live, e);
  }

  lemma RecoveredWasLost(p: Conv, live: set<string>, e: Script)
    ensures Attempt(p, live, Claude, e).recovered ==> p.started && p.sessionID !in live
  {}

  lemma DecidedSession(c: Conv, live: set<string>, e: Script)
    requires FreshIds(c, live, e)
    ensures var d := Decide(c, Claude, e);
      if d.started then c.started && d.sessionID == c.sessionID
      else d.sessionID == e.mint || (!c.started && d.sessionID == c.sessionID)
  {
    DecideFacts(c, live, Claude, e);
  }

  lemma LeftUnstarted(c: Conv, live: set<string>, k: Sink, e: Script)
    requires !WorkerTurn(c, live, Claude, k, e).ok && !WorkerTurn(c, live, Claude, k, e).saved.started
    ensures WorkerTurn(c, live, Claude, k, e).saved.sessionID in {Decide(c, Claude, e).sessionID, e.mint2}
    ensures WorkerTurn(c, live, Claude, k, e).saved.sessionID != e.mint2 ==> !Decide(c, Claude, e).started
    ensures WorkerTurn(c, live, Claude, k, e).parent.None?
  {}

  lemma FailedHasNoParent(c: Conv, live: set<string>, k: Sink, e: Script)
    ensures !WorkerTurn(c, live, Claude, k, e).ok ==> WorkerTurn(c, live, Claude, k, e).parent.None?
  {
    TurnHistory(c, live, Claude, k, e);
  }

  // -------------------------------------------------------------- the invariant

  /** A record that is not started does not name the last reported session; missed says
      whether the program's guess was wrong somewhere. */
  ghost predicate Honest(b: Bill) {
    && Real(b.reports)
    && (AllDetected(b.reports) <==> !b.missed)
    && (forall i | 0 <= i < |b.reports| :: Detected(b.reports, i) ==> b.reports[i].begins)
    && (b.reports != [] && !b.conv.started ==> b.conv.sessionID != LastSession(b))
  }

  /** The guess about one turn: never a beginning where there is none, and a beginning
      overlooked exactly on a Missed turn. */
  lemma GuessedIff(b: Bill, k: Sink, x: Turn)
    requires Honest(b) && Fair(b, k, x) && Answered(b, k, x).ok && x.total > 0.0
    ensures var m, r := MeterAfter(Base(b, k, x)), ReportOf(b, k, x);
      && (StartsOver(m, r) ==> r.begins)
      && (r.begins && !StartsOver(m, r) <==> Missed(b, k, x))
  {
    var c, l := b.conv, b.live - x.lost;
    AnsweredIn(c, l, k, x.e);
    DecidedSession(c, l, x.e);
    RecoveredWasLost(Pending(Decide(c, Claude, x.e), x.e), l, x.e);
    GuessFrom(Base(b, k, x), LastSession(b), ReportOf(b, k, x), StaleBy(b, k, x));
  }

  /** The case analysis, on the report alone. */
  lemma GuessFrom(base: seq<Report>, last: string, r: Report, stale: bool)
    requires r.session != "" && (base != [] ==> last == MeterAfter(base).session)
    requires r.begins <==> base == [] || r.session != last || stale
    requires r.isFresh && base != [] && r.session == last ==> stale
    requires !r.begins ==> r.total >= MeterAfter(base).seen
    ensures var m := MeterAfter(base);
      && (StartsOver(m, r) ==> r.begins)
      && (r.begins && !StartsOver(m, r) <==>
            base != [] && !r.isFresh && r.session == last && stale && r.total >= m.seen)
  {}

  /** What one report more changes. */
  lemma OneMore(rs: seq<Report>, r: Report)
    ensures var z := rs + [r];
      && (forall i | 0 <= i < |rs| :: z[i] == rs[i] && Detected(z, i) == Detected(rs, i))
      && z[|rs|] == r && (Detected(z, |rs|) <==> StartsOver(MeterAfter(rs), r))
  {}

  lemma RealMore(rs: seq<Report>, r: Report)
    requires Real(rs) && r.total > 0.0 && (rs == [] ==> r.begins)
    requires !r.begins ==> r.session == rs[|rs| - 1].session && rs[|rs| - 1].total <= r.total
    ensures Real(rs + [r])
  {
    var z := rs + [r];
    forall k | 0 < k < |z| && !z[k].begins ensures z[k].session == z[k - 1].session && z[k - 1].total <= z[k].total {
      if k < |rs| { assert z[k] == rs[k] && z[k - 1] == rs[k - 1]; }
    }
  }

  lemma ReportKeeps(rs: seq<Report>, r: Report, missed: bool)
    requires Real(rs) && r.total > 0.0 && (rs == [] ==> r.begins)
    requires !r.begins ==> r.session == rs[|rs| - 1].session && rs[|rs| - 1].total <= r.total
    requires forall i | 0 <= i < |rs| :: Detected(rs, i) ==> rs[i].begins
    requires StartsOver(MeterAfter(rs), r) ==> r.begins
    ensures Real(rs + [r])
    ensures AllDetected(rs + [r]) <==> AllDetected(rs) && (StartsOver(MeterAfter(rs), r) <==> r.begins)
    ensures var z := rs + [r]; forall i | 0 <= i < |z| :: Detected(z, i) ==> z[i].begins
  {
    RealMore(rs, r);
    OneMore(rs, r);
    var z := rs + [r];
    assert AllDetected(z) ==> AllDetected(rs) by {
      if AllDetected(z) {
        forall i | 0 <= i < |rs| ensures Detected(rs, i) <==> rs[i].begins { assert Detected(z, i) <==> z[i].begins; }
      }
    }
    assert AllDetected(z) ==> (Detected(z, |rs|) <==> z[|rs|].begins);
  }

  lemma NoReports()
    ensures Real([]) && AllDetected([])
  {}

  lemma ChargeHonest(b: Bill, k: Sink, x: Turn)
    requires Honest(b) && Fair(b, k, x)
    ensures Honest(Charge(b, k, x))
  {
    var t, base := Answered(b, k, x), Base(b, k, x);
    NoReports();
    if t.ok {
      AnsweredIn(b.conv, b.live - x.lost, k, x.e);
      if x.total > 0.0 {
        GuessedIff(b, k, x);
        ReportKeeps(base, ReportOf(b, k, x), b.missed);
        assert !Charge(b, k, x).conv.started ==> false;
      }
    } else {
      FailedHasNoParent(b.conv, b.live - x.lost, k, x.e);
      if !t.saved.started {
        LeftUnstarted(b.conv, b.live - x.lost, k, x.e);
        DecidedSession(b.conv, b.live - x.lost, x.e);
      }
    }
  }

  lemma {:induction false} AlwaysHonest(c: Conv, live: set<string>, k: Sink, xs: seq<Turn>)
    requires FairRun(c, live, k, xs)
    ensures Honest(Charged(c, live, k, xs))
  {
    if xs == [] {
      NoReports();
    } else {
      AlwaysHonest(c, live, k, xs[..|xs| - 1]);
      ChargeHonest(Charged(c, live, k, xs[..|xs| - 1]), k, xs[|xs| - 1]);
    }
  }

  // -------------------------------------------------------------- main theorems

  /** Over any run of claude turns, failed ones and lost sessions included: every new
      incarnation of a session is noticed exactly if no turn was Missed. */
  lemma NoticedIff(c: Conv, live: set<string>, k: Sink, xs: seq<Turn>)
    requires FairRun(c, live, k, xs)
    ensures var b := Charged(c, live, k, xs); Real(b.reports) && (AllDetected(b.reports) <==> !b.missed)
  {
    AlwaysHonest(c, live, k, xs);
  }

  /** Then the charges are what was spent, turn by turn and in sum. */
  lemma ChargesExact(c: Conv, live: set<string>, k: Sink, xs: seq<Turn>)
    requires FairRun(c, live, k, xs) && !Charged(c, live, k, xs).missed
    ensures var rs := Charged(c, live, k, xs).reports;
      && Sum(Costs(rs)) == Sum(FinalTotals(rs, |rs|))
      && (forall i | 0 <= i < |rs| :: Costs(rs)[i] == Spent(rs, i))
  {
    NoticedIff(c, live, k, xs);
    CostTelescopes(Charged(c, live, k, xs).reports);
  }

  /** And no turn is ever charged more than was spent. */
  lemma NeverOvercharged(c: Conv, live: set<string>, k: Sink, xs: seq<Turn>, i: nat)
    requires FairRun(c, live, k, xs) && i < |Charged(c, live, k, xs).reports|
    ensures var rs := Charged(c, live, k, xs).reports; 0.0 <= Costs(rs)[i] <= Spent(rs, i)
  {
    AlwaysHonest(c, live, k, xs);
    var rs := Charged(c, live, k, xs).reports;
    ChargedExactlyIff(rs, i);
    ChargeNotNegative(rs, i);
    assert Detected(rs, i) ==> rs[i].begins;
    if !Detected(rs, i) && rs[i].begins { assert i > 0 && rs[i - 1].total > 0.0; }
  }

  /** Three turns: an answer for 1; the session is lost and made anew by a turn that then
      breaks off; an answer that brings the new session to 2. The third turn is charged
      1, though its session has cost 2. */
  lemma RemadeSessionUndercharged() returns (c: Conv, xs: seq<Turn>)
    ensures FairRun(c, {}, InPlace, xs) && Charged(c, {}, InPlace, xs).missed
    ensures Costs(Charged(c, {}, InPlace, xs).reports) == [1.0, 1.0]
    ensures Spent(Charged(c, {}, InPlace, xs).reports, 1) == 2.0
  {
    c := Conv("c", "a", false, 0, 0, [], None, 0, 0);
    var ok := Session.Answer("hi", false, 0);
    var x1 := Turn(Sample(ok, ok, ok), {}, 1.0);
    var x2 := Turn(Sample(ok, Broken(true), ok), {"a"}, 0.0);
    var x3 := Turn(Sample(ok, ok, ok), {}, 2.0);
    xs := [x1, x2, x3];
    var b0 := Open(c, {});
    var b1 := FirstAnswer(b0, x1);
    var b2 := SessionRemade(b1, x2);
    var b3 := CaughtUp(b2, x3);
    RunMore(c, {}, InPlace, [], x1, b0, b1);
    assert [] + [x1] == [x1] && [x1] + [x2] == [x1, x2] && [x1, x2] + [x3] == xs;
    RunMore(c, {}, InPlace, [x1], x2, b1, b2);
    RunMore(c, {}, InPlace, [x1, x2], x3, b2, b3);
    TwoCosts(b3.reports[0], b3.reports[1]);
  }

  lemma RunMore(c: Conv, live: set<string>, k: Sink, xs: seq<Turn>, x: Turn, b: Bill, z: Bill)
    requires FairRun(c, live, k, xs) && Charged(c, live, k, xs) == b && Fair(b, k, x) && z == Charge(b, k, x)
    ensures FairRun(c, live, k, xs + [x]) && Charged(c, live, k, xs + [x]) == z
  {
    assert (xs + [x])[..|xs|] == xs && (xs + [x])[|xs|] == x;
  }

  lemma TwoCosts(r: Report, q: Report)
    ensures Costs([r, q]) == [Cost(NEW_METER, r), Cost(Meter(r.session, r.total), q)]
  {
    assert [r, q][..1] == [r] && [r][..0] == [];
    assert Costs([r]) == [] + [Cost(NEW_METER, r)];
  }

  lemma FirstAnswer(b: Bill, x: Turn) returns (z: Bill)
    requires var ok := Session.Answer("hi", false, 0); x == Turn(Sample(ok, ok, ok), {}, 1.0)
    requires b == Open(Conv("c", "a", false, 0, 0, [], None, 0, 0), {})
    ensures z == Charge(b, InPlace, x) && Fair(b, InPlace, x)
    ensures z.conv.started && z.conv.sessionID == "a" && z.conv.claudeTokens == 0 && z.live == {"a"}
    ensures z.reports == [Report("a", 1.0, true, true)] && !z.stale && !z.missed
  {
    z := Charge(b, InPlace, x);
    SampleFresh(b.conv, {}, x.e);
    TrimSpaceHead("a");
    assert b.live - x.lost == {};
    assert Decide(b.conv, Claude, x.e) == b.conv;
  }

  lemma SessionRemade(b: Bill, x: Turn) returns (z: Bill)
    requires var ok := Session.Answer("hi", false, 0); x == Turn(Sample(ok, Broken(true), ok), {"a"}, 0.0)
    requires b.conv.started && b.conv.sessionID == "a" && b.conv.claudeTokens == 0 && b.live == {"a"}
    requires b.reports == [Report("a", 1.0, true, true)] && !b.missed
    ensures z == Charge(b, InPlace, x) && Fair(b, InPlace, x)
    ensures z.conv.started && z.conv.sessionID == "a" && z.conv.claudeTokens == 0 && z.live == {"a"}
    ensures z.reports == b.reports && z.stale && !z.missed
  {
    z := Charge(b, InPlace, x);
    assert b.live - x.lost == {};
    SampleFresh(b.conv, {}, x.e);
    TrimSpaceHead("a");
    assert Decide(b.conv, Claude, x.e) == b.conv;
    assert "m"[0] == 'm' && "n"[0] == 'n' && "a"[0] == 'a';
  }

  lemma CaughtUp(b: Bill, x: Turn) returns (z: Bill)
    requires var ok := Session.Answer("hi", false, 0); x == Turn(Sample(ok, ok, ok), {}, 2.0)
    requires b.conv.started && b.conv.sessionID == "a" && b.conv.claudeTokens == 0 && b.live == {"a"}
    requires b.reports == [Report("a", 1.0, true, true)] && b.stale
    ensures z == Charge(b, InPlace, x) && Fair(b, InPlace, x)
    ensures z.reports == [Report("a", 1.0, true, true), Report("a", 2.0, false, true)] && z.missed
  {
    z := Charge(b, InPlace, x);
    assert b.live - x.lost == {"a"};
    SampleFresh(b.conv, {"a"}, x.e);
    TrimSpaceHead("a");
    assert Decide(b.conv, Claude, x.e) == b.conv;
    assert "m"[0] == 'm' && "n"[0] == 'n' && "a"[0] == 'a';
  }

  /** A turn answered by a session made in it - the first, one after a reset or a loss, a
      continuation's - is charged all that session has cost; one that resumes the last
      reported session, only what came on top, unless the total fell. */
  lemma ChargeByRun(b: Bill, k: Sink, x: Turn)
    requires Fair(b, k, x) && Answered(b, k, x).ok && x.total > 0.0
    ensures var m, c := MeterAfter(Base(b, k, x)), Cost(MeterAfter(Base(b, k, x)), ReportOf(b, k, x));
      var made := !LastResumes(b.conv, b.live - x.lost, Claude, k, x.e);
      && (made ==> c == x.total)
      && (!made && Decide(b.conv, Claude, x.e).started && Answered(b, k, x).ranIn == m.session ==>
            c == if x.total < m.seen then x.total else x.total - m.seen)
  {
    var p := Pending(Decide(b.conv, Claude, x.e), x.e);
    AnsweredIn(b.conv, b.live - x.lost, k, x.e);
    RunsOf(p, b.live - x.lost, x.e);
  }

  lemma RunsOf(p: Conv, live: set<string>, e: Script)
    ensures var t := Attempt(p, live, Claude, e);
      && (p.started && !RetryResumes(p, live, Claude, e) ==> t.recovered)
      && (p.started && RetryResumes(p, live, Claude, e) ==> !t.recovered)
  {}
}

/** host/approval.go: a tool call waits for the user's !ok or !no. Asking, the
    user's answers, the timeout and the clean-up interleave freely; each event
    below is one critical section (or one channel operation) of the program. */
module Approval {
  import opened GoText

  datatype Verdict = Answered(ok: bool) | NoChannel | TimedOut

  /** Where askApproval is: sending the question, in its select, past it, returned
      (its deferred delete done). */
  datatype Phase = Asking | Waiting | Decided(verdict: Verdict) | Returned(verdict: Verdict)

  /** done is the one-slot channel. */
  datatype Request = Request(id: string, done: Option<bool>, phase: Phase)

  /** pending: id to request number; reqs: every request ever made. */
  datatype State = State(pending: map<string, nat>, reqs: seq<Request>)

  datatype Event =
    | Ask(id: string)
    | Sent(req: nat, channels: nat)
    | Answer(text: string, ok: bool)
    | Select(req: nat, timeUp: bool, pickTimeout: bool) // leaves its select; both ready: either
    | Remove(req: nat)

  /** The alphabet of ids leaves out what is easily misread. */
  predicate Letter(c: char) {
    ('a' <= c <= 'z' && c != 'i' && c != 'l' && c != 'o') || '2' <= c <= '9'
  }

  predicate Minted(id: string) {
    |id| == 3 && forall i | 0 <= i < 3 :: Letter(id[i])
  }

  function Lower(c: char): char {
    if 'A' <= c <= 'Z' then (c as int + 32) as char else c
  }

  function ToLower(s: string): (r: string)
    ensures |r| == |s| && forall i | 0 <= i < |s| :: r[i] == Lower(s[i])
  {
    seq(|s|, i requires 0 <= i < |s| => Lower(s[i]))
  }

  /** What the user typed, as a key of pending. */
  function Normal(s: string): string {
    var l := ToLower(s);
    if HasPrefix(l, "#") then l[1..] else l
  }

  /** The letters ids are drawn from, as the program lists them. */
  lemma Alphabet(c: char)
    ensures Letter(c) <==> c in "abcdefghjkmnpqrstuvwxyz23456789"
  {}

  lemma NormalMinted(id: string)
    requires Minted(id)
    ensures Normal(id) == id
  {
    assert ToLower(id) == id;
    assert Letter(id[0]);
  }

  /** a is b but for letters typed in upper case. */
  predicate SameLetters(a: string, b: string) {
    |a| == |b| && forall i | 0 <= i < |b| :: a[i] == b[i] || ('a' <= b[i] <= 'z' && a[i] as int + 32 == b[i] as int)
  }

  /** text is how the user may type id: in any case, with one '#' in front or none. */
  predicate Types(text: string, id: string) {
    SameLetters(text, id) || (text != "" && text[0] == '#' && SameLetters(text[1..], id))
  }

  lemma TypedIff(text: string, id: string)
    requires Minted(id)
    ensures Normal(text) == id <==> Types(text, id)
  {
    var l := ToLower(text);
    assert forall i | 0 <= i < 3 :: Letter(id[i]);
    if text != "" && text[0] == '#' {
      assert l[0] == '#' && HasPrefix(l, "#");
      LowerLetters(text[1..], id);
      assert l[1..] == ToLower(text[1..]);
    } else {
      assert l != "" ==> l[0] != '#';
      LowerLetters(text, id);
    }
  }

  lemma LowerLetters(a: string, id: string)
    requires Minted(id)
    ensures ToLower(a) == id <==> SameLetters(a, id)
  {
    var l := ToLower(a);
    if |a| == 3 {
      forall i | 0 <= i < 3 ensures l[i] == id[i] <==> a[i] == id[i] || ('a' <= id[i] <= 'z' && a[i] as int + 32 == id[i] as int) {
        assert Letter(id[i]);
        LowerIs(a[i], id[i]);
      }
    }
  }

  lemma LowerIs(c: char, d: char)
    requires Letter(d)
    ensures Lower(c) == d <==> c == d || ('a' <= d <= 'z' && c as int + 32 == d as int)
  {}

  lemma OnlyKey<V>(m: map<string, V>, a: string, b: string)
    requires |m| == 1 && a in m && b in m
    ensures a == b
  {
    var others := m.Keys - {a};
    assert |others| == |m.Keys| - 1;
    assert b !in others;
  }

  lemma OtherKey<V>(m: map<string, V>, a: string) returns (b: string)
    requires |m| != 1 && a in m
    ensures b in m && b != a
  {
    var others := m.Keys - {a};
    assert |others| == |m.Keys| - 1;
    assert others != {};
    b :| b in others;
  }

  ghost function SomeKey(m: map<string, nat>): (k: string)
    requires |m| > 0
    ensures k in m
  {
    assert m.Keys != {};
    var k :| k in m;
    k
  }

  /** The request an answer is accepted by. */
  ghost function Resolve(s: State, text: string): Option<nat> {
    if text == "" && |s.pending| != 1 then None
    else
      var key := Normal(if text == "" then SomeKey(s.pending) else text);
      if key in s.pending then Some(s.pending[key]) else None
  }

  predicate Enabled(s: State, e: Event) {
    match e
    case Ask(id) => Minted(id) && id !in s.pending
    case Sent(r, _) => r < |s.reqs| && s.reqs[r].phase == Asking
    case Answer(_, _) => true
    case Select(r, timeUp, _) => r < |s.reqs| && s.reqs[r].phase == Waiting && (timeUp || s.reqs[r].done.Some?)
    case Remove(r) => r < |s.reqs| && s.reqs[r].phase.Decided?
  }

  function Advance(s: State, r: nat, q: Request): State
    requires r < |s.reqs|
  {
    s.(reqs := s.reqs[r := q])
  }

  /** A send to a full channel is dropped. */
  function Offer(q: Request, ok: bool): Request {
    if q.done.Some? then q else q.(done := Some(ok))
  }

  /** The select's timer case runs: the time is up, and there is no answer or the
      choice falls on the timer. */
  predicate TimesOut(q: Request, timeUp: bool, pickTimeout: bool) {
    timeUp && (pickTimeout || q.done.None?)
  }

  function Chosen(q: Request, timeUp: bool, pickTimeout: bool): Request
    requires timeUp || q.done.Some?
  {
    if TimesOut(q, timeUp, pickTimeout) then q.(phase := Decided(TimedOut))
    else q.(done := None, phase := Decided(Answered(q.done.value)))
  }

  ghost function Step(s: State, e: Event): State {
    if !Enabled(s, e) then s else
    match e
    case Ask(id) => State(s.pending[id := |s.reqs|], s.reqs + [Request(id, None, Asking)])
    case Sent(r, n) => Advance(s, r, s.reqs[r].(phase := if n == 0 then Decided(NoChannel) else Waiting))
    case Answer(text, ok) =>
      var r := Resolve(s, text);
      if r.Some? && r.value < |s.reqs| then Advance(s, r.value, Offer(s.reqs[r.value], ok)) else s
    case Select(r, timeUp, pick) => Advance(s, r, Chosen(s.reqs[r], timeUp, pick))
    case Remove(r) =>
      State(s.pending - {s.reqs[r].id}, s.reqs[r := s.reqs[r].(phase := Returned(s.reqs[r].phase.verdict))])
  }

  ghost function After(evs: seq<Event>): State {
    if evs == [] then State(map[], []) else Step(After(evs[..|evs| - 1]), evs[|evs| - 1])
  }

  /** The answers request r accepted, in order. */
  ghost function Accepted(evs: seq<Event>, r: nat): seq<bool> {
    if evs == [] then []
    else
      var front, e := evs[..|evs| - 1], evs[|evs| - 1];
      Accepted(front, r) + if e.Answer? && Resolve(After(front), e.text) == Some(r) then [e.ok] else []
  }

  predicate Live(q: Request) { !q.phase.Returned? }

  /** pending holds exactly the requests not yet returned, each under its own id. */
  predicate Listed(s: State) {
    && (forall k | k in s.pending ::
          s.pending[k] < |s.reqs| && s.reqs[s.pending[k]].id == k && Live(s.reqs[s.pending[k]]))
    && (forall r | 0 <= r < |s.reqs| ::
          Minted(s.reqs[r].id) && (Live(s.reqs[r]) ==> s.reqs[r].id in s.pending && s.pending[s.reqs[r].id] == r))
  }

  /** What request q owes to the answers it accepted. */
  predicate Owes(q: Request, answers: seq<bool>) {
    if q.phase.Decided? || q.phase.Returned?
    then q.phase.verdict.Answered? ==> answers != [] && q.phase.verdict.ok == answers[0]
    else q.done == if answers == [] then None else Some(answers[0])
  }

  lemma StepListed(s: State, e: Event)
    requires Listed(s)
    ensures Listed(Step(s, e))
  {
    if Enabled(s, e) {
      var z := Step(s, e);
      match e
      case Ask(id) => assert forall r | 0 <= r < |s.reqs| :: z.reqs[r] == s.reqs[r];
      case Answer(text, ok) =>
      case Sent(_, _) =>
      case Select(_, _, _) =>
      case Remove(r) => assert forall k | k in z.pending :: k in s.pending && s.pending[k] != r;
    }
  }

  lemma {:induction false} AlwaysListed(evs: seq<Event>)
    ensures Listed(After(evs))
  {
    if evs != [] {
      AlwaysListed(evs[..|evs| - 1]);
      StepListed(After(evs[..|evs| - 1]), evs[|evs| - 1]);
    }
  }

  /** Who an answer reaches, in every reachable state: with an id, the unreturned
      request of that id (in any case, with or without '#'); without one, the only
      unreturned request there is. */
  lemma AnswerReaches(evs: seq<Event>, text: string, r: nat)
    ensures var s := After(evs);
      Resolve(s, text) == Some(r) <==>
        && r < |s.reqs| && Live(s.reqs[r])
        && if text == "" then forall x | 0 <= x < |s.reqs| && Live(s.reqs[x]) :: x == r
           else Types(text, s.reqs[r].id)
  {
    AlwaysListed(evs);
    if r < |After(evs).reqs| { TypedIff(text, After(evs).reqs[r].id); }
    if text == "" { IdlessReaches(After(evs), r); }
  }

  lemma IdlessReaches(s: State, r: nat)
    requires Listed(s)
    ensures Resolve(s, "") == Some(r) <==>
      r < |s.reqs| && Live(s.reqs[r]) && forall x | 0 <= x < |s.reqs| && Live(s.reqs[x]) :: x == r
  {
    if |s.pending| == 1 {
      var k := SomeKey(s.pending);
      forall j | j in s.pending ensures j == k { OnlyKey(s.pending, j, k); }
      NormalMinted(s.reqs[s.pending[k]].id);
    } else if r < |s.reqs| && Live(s.reqs[r]) {
      var id := s.reqs[r].id;
      var j := OtherKey(s.pending, id);
    }
  }

  lemma StepOwes(s: State, e: Event, r: nat, answers: seq<bool>)
    requires Listed(s) && r < |s.reqs| && Owes(s.reqs[r], answers)
    ensures r < |Step(s, e).reqs|
    ensures Owes(Step(s, e).reqs[r], answers + if e.Answer? && Resolve(s, e.text) == Some(r) then [e.ok] else [])
  {
    assert answers + [] == answers;
  }

  lemma {:induction false} AlwaysOwes(evs: seq<Event>, r: nat)
    requires r < |After(evs).reqs|
    ensures Owes(After(evs).reqs[r], Accepted(evs, r))
  {
    var front, e := evs[..|evs| - 1], evs[|evs| - 1];
    var s := After(front);
    AlwaysListed(front);
    if r < |s.reqs| {
      AlwaysOwes(front, r);
      StepOwes(s, e, r, Accepted(front, r));
    } else {
      NoneYet(evs[..|evs| - 1], r);
      NewRequest(s, e, r);
    }
  }

  lemma NewRequest(s: State, e: Event, r: nat)
    requires Listed(s) && |s.reqs| <= r < |Step(s, e).reqs|
    ensures e.Ask? && Step(s, e).reqs[r] == Request(e.id, None, Asking)
  {
    assert e.Answer? && Enabled(s, e) ==> |Step(s, e).reqs| == |s.reqs|;
  }

  /** A request not yet made has accepted nothing. */
  lemma {:induction false} NoneYet(evs: seq<Event>, r: nat)
    requires r >= |After(evs).reqs|
    ensures Accepted(evs, r) == []
  {
    if evs != [] {
      NoneYet(evs[..|evs| - 1], r);
      AlwaysListed(evs[..|evs| - 1]);
    }
  }

  /** Fails closed: whatever the interleaving, a request is approved only if the
      first answer it accepted was ok; a verdict taken from the user is that first
      answer. */
  lemma ApprovedByFirstAnswer(evs: seq<Event>, r: nat)
    requires r < |After(evs).reqs|
    requires After(evs).reqs[r].phase.Decided? || After(evs).reqs[r].phase.Returned?
    ensures var v := After(evs).reqs[r].phase.verdict;
      v.Answered? ==> Accepted(evs, r) != [] && v.ok == Accepted(evs, r)[0]
    ensures Accepted(evs, r) == [] || !Accepted(evs, r)[0] ==> After(evs).reqs[r].phase.verdict != Answered(true)
  {
    AlwaysOwes(evs, r);
  }

  predicate Settled(s: State, r: nat, v: Verdict) {
    && r < |s.reqs|
    && (s.reqs[r].phase == Decided(v) || s.reqs[r].phase == Returned(v))
  }

  /** Nothing that happens later, answers included, changes a verdict. */
  lemma {:induction false} VerdictStands(evs: seq<Event>, more: seq<Event>, r: nat, v: Verdict)
    requires Settled(After(evs), r, v)
    ensures Settled(After(evs + more), r, v)
    decreases |more|
  {
    if more == [] {
      assert evs + more == evs;
    } else {
      var m := more[..|more| - 1];
      VerdictStands(evs, m, r, v);
      assert (evs + more)[..|evs + more| - 1] == evs + m;
    }
  }

  lemma ReturnedStays(s: State, e: Event, r: nat)
    requires Listed(s) && r < |s.reqs| && s.reqs[r].phase.Returned?
    ensures r < |Step(s, e).reqs| && Step(s, e).reqs[r] == s.reqs[r]
    ensures e.Answer? ==> Resolve(s, e.text) != Some(r)
  {}

  /** Between two points of a run request r has neither changed nor accepted anything. */
  ghost predicate HeardNothing(a: seq<Event>, b: seq<Event>, r: nat) {
    && r < |After(a).reqs| && r < |After(b).reqs|
    && After(b).reqs[r] == After(a).reqs[r] && Accepted(b, r) == Accepted(a, r)
  }

  lemma HearsNext(evs: seq<Event>, e: Event, r: nat)
    requires r < |After(evs).reqs| && After(evs).reqs[r].phase.Returned?
    ensures HeardNothing(evs, evs + [e], r)
  {
    AlwaysListed(evs);
    ReturnedStays(After(evs), e, r);
    Snoc(evs, e, r);
  }

  lemma HeardThrough(a: seq<Event>, b: seq<Event>, c: seq<Event>, r: nat)
    requires HeardNothing(a, b, r) && HeardNothing(b, c, r)
    ensures HeardNothing(a, c, r)
  {}

  /** Once askApproval has returned no answer finds its request again, even where
      the id has been given to another. */
  lemma {:induction false} ReturnedHearsNothing(evs: seq<Event>, more: seq<Event>, r: nat)
    requires r < |After(evs).reqs| && After(evs).reqs[r].phase.Returned?
    ensures HeardNothing(evs, evs + more, r)
    decreases |more|
  {
    if more == [] {
      assert evs + more == evs;
    } else {
      var m, e := more[..|more| - 1], more[|more| - 1];
      var x := evs + m;
      ReturnedHearsNothing(evs, m, r);
      assert evs + more == x + [e];
      HearsNext(x, e, r);
      HeardThrough(evs, x, x + [e], r);
    }
  }

  // ------------------------------------------------- when an accepted !ok counts

  /** The question of r went out on some channel. */
  ghost predicate AskedOn(evs: seq<Event>, r: nat) {
    evs != [] &&
      var f, e := evs[..|evs| - 1], evs[|evs| - 1];
      AskedOn(f, r) || (e.Sent? && e.req == r && e.channels > 0 && Enabled(After(f), e))
  }

  /** The time of r was up when it left its select. */
  ghost predicate TimeWasUp(evs: seq<Event>, r: nat) {
    evs != [] &&
      var f, e := evs[..|evs| - 1], evs[|evs| - 1];
      TimeWasUp(f, r) || (e.Select? && e.req == r && e.timeUp && Enabled(After(f), e))
  }

  /** And the timer is what it left by. */
  ghost predicate TookTimeout(evs: seq<Event>, r: nat) {
    evs != [] &&
      var f, e := evs[..|evs| - 1], evs[|evs| - 1];
      TookTimeout(f, r) || (e.Select? && e.req == r && Enabled(After(f), e)
                            && TimesOut(After(f).reqs[r], e.timeUp, e.pickTimeout))
  }

  /** What the phase of a request says of its past. */
  predicate Tells(q: Request, asked: bool, timedOut: bool) {
    match q.phase
    case Asking => !asked && !timedOut
    case Waiting => asked && !timedOut
    case Decided(v) => asked == !v.NoChannel? && timedOut == v.TimedOut?
    case Returned(v) => asked == !v.NoChannel? && timedOut == v.TimedOut?
  }

  lemma StepTells(s: State, e: Event, r: nat, asked: bool, timedOut: bool)
    requires Listed(s) && r < |s.reqs| && Tells(s.reqs[r], asked, timedOut)
    ensures r < |Step(s, e).reqs|
    ensures Tells(Step(s, e).reqs[r],
      asked || (e.Sent? && e.req == r && e.channels > 0 && Enabled(s, e)),
      timedOut || (e.Select? && e.req == r && Enabled(s, e) && TimesOut(s.reqs[r], e.timeUp, e.pickTimeout)))
  {}

  lemma {:induction false} NothingYet(evs: seq<Event>, r: nat)
    requires r >= |After(evs).reqs|
    ensures !AskedOn(evs, r) && !TookTimeout(evs, r)
  {
    if evs != [] {
      NothingYet(evs[..|evs| - 1], r);
      AlwaysListed(evs[..|evs| - 1]);
    }
  }

  lemma {:induction false} AlwaysTells(evs: seq<Event>, r: nat)
    requires r < |After(evs).reqs|
    ensures Tells(After(evs).reqs[r], AskedOn(evs, r), TookTimeout(evs, r))
  {
    var f, e := evs[..|evs| - 1], evs[|evs| - 1];
    AlwaysListed(f);
    if r < |After(f).reqs| {
      AlwaysTells(f, r);
      StepTells(After(f), e, r, AskedOn(f, r), TookTimeout(f, r));
    } else {
      NothingYet(f, r);
      NewRequest(After(f), e, r);
    }
  }

  /** A decided request is approved exactly when the first answer it accepted was ok,
      its question went out on some channel, and its select was not left by a due
      timer. */
  lemma ApprovedIff(evs: seq<Event>, r: nat)
    requires r < |After(evs).reqs|
    requires After(evs).reqs[r].phase.Decided? || After(evs).reqs[r].phase.Returned?
    ensures After(evs).reqs[r].phase.verdict == Answered(true) <==>
      Accepted(evs, r) != [] && Accepted(evs, r)[0] && AskedOn(evs, r) && !TookTimeout(evs, r)
  {
    AlwaysOwes(evs, r);
    AlwaysTells(evs, r);
  }

  lemma {:induction false} TimeoutWasDue(evs: seq<Event>, r: nat)
    ensures TookTimeout(evs, r) ==> TimeWasUp(evs, r)
  {
    if evs != [] { TimeoutWasDue(evs[..|evs| - 1], r); }
  }

  /** So an ok that came first is always honoured if the question went out and the time
      was not yet up. */
  lemma InTimeHonoured(evs: seq<Event>, r: nat)
    requires r < |After(evs).reqs|
    requires After(evs).reqs[r].phase.Decided? || After(evs).reqs[r].phase.Returned?
    requires Accepted(evs, r) != [] && Accepted(evs, r)[0] && AskedOn(evs, r) && !TimeWasUp(evs, r)
    ensures After(evs).reqs[r].phase.verdict == Answered(true)
  {
    TimeoutWasDue(evs, r);
    ApprovedIff(evs, r);
  }

  /** Once the time is up it may not be: with both cases ready the select may pick the
      timer. */
  lemma AcceptedMayTimeOut(id: string) returns (evs: seq<Event>)
    requires Minted(id)
    ensures Accepted(evs, 0) == [true] && AskedOn(evs, 0)
    ensures |After(evs).reqs| == 1 && After(evs).reqs[0].phase == Returned(TimedOut)
  {
    var x1 := [] + [Ask(id)];
    Snoc([], Ask(id), 0);
    assert After([]) == State(map[], []);
    var x2 := x1 + [Sent(0, 1)];
    Snoc(x1, Sent(0, 1), 0);
    assert After(x2) == State(map[id := 0], [Request(id, None, Waiting)]);
    var x3 := x2 + [Answer(id, true)];
    Snoc(x2, Answer(id, true), 0);
    assert Resolve(After(x2), id) == Some(0) by { NormalMinted(id); }
    assert After(x3) == State(map[id := 0], [Request(id, Some(true), Waiting)]);
    var x4 := x3 + [Select(0, true, true)];
    Snoc(x3, Select(0, true, true), 0);
    evs := x4 + [Remove(0)];
    Snoc(x4, Remove(0), 0);
    AlwaysTells(evs, 0);
  }

  lemma Snoc(evs: seq<Event>, e: Event, r: nat)
    ensures After(evs + [e]) == Step(After(evs), e)
    ensures Accepted(evs + [e], r)
         == Accepted(evs, r) + if e.Answer? && Resolve(After(evs), e.text) == Some(r) then [e.ok] else []
  {
    assert (evs + [e])[..|evs + [e]| - 1] == evs;
  }

  // ------------------------------------------------------------- the program

  class Approvals {
    var pending: map<string, nat>
    var reqs: seq<Request>

    ghost function View(): State
      reads this
    {
      State(pending, reqs)
    }

    constructor ()
      ensures View() == After([])
    {
      pending, reqs := map[], [];
    }

    /** First half of askApproval; id is the fresh draw of newApprovalID. */
    method Ask(id: string) returns (r: nat)
      requires Listed(View()) && Enabled(View(), Event.Ask(id))
      modifies this
      ensures View() == Step(old(View()), Event.Ask(id))
      ensures r < |reqs| && reqs[r] == Request(id, None, Asking) && pending[id := r] == pending
    {
      r := |reqs|;
      reqs := reqs + [Request(id, None, Asking)];
      pending := pending[id := r];
    }

    /** The question went out on this many channels. */
    method Asked(r: nat, sent: nat)
      requires Enabled(View(), Sent(r, sent))
      modifies this`reqs
      ensures View() == Step(old(View()), Sent(r, sent))
    {
      var q := reqs[r];
      if sent == 0 {
        reqs := reqs[r := q.(phase := Decided(NoChannel))];
        return;
      }
      reqs := reqs[r := q.(phase := Waiting)];
    }

    method ResolveApproval(text: string, ok: bool) returns (found: Option<nat>)
      requires Listed(View())
      modifies this`reqs
      ensures found == Resolve(old(View()), text)
      ensures View() == Step(old(View()), Answer(text, ok))
    {
      var id := text;
      if text == "" {
        if |pending| != 1 {
          return None;
        }
        var k :| k in pending;
        OnlyKey(pending, k, SomeKey(pending));
        id := k;
      }
      var key := Normal(id);
      if key !in pending {
        return None;
      }
      var r := pending[key];
      if reqs[r].done.None? {
        reqs := reqs[r := reqs[r].(done := Some(ok))];
      }
      found := Some(r);
    }

    /** The select of askApproval: it may run once an answer is there or the time
        is up, and with both ready it picks either. */
    method Decide(r: nat, timeUp: bool, pickTimeout: bool) returns (approved: bool)
      requires Listed(View()) && Enabled(View(), Select(r, timeUp, pickTimeout))
      modifies this`reqs
      ensures View() == Step(old(View()), Select(r, timeUp, pickTimeout))
      ensures reqs[r].phase.Decided? && approved == (reqs[r].phase.verdict == Answered(true))
      ensures approved ==> old(reqs)[r].done == Some(true)
      ensures old(reqs)[r].done == Some(true) && !timeUp ==> approved
    {
      var q := reqs[r];
      if timeUp && (pickTimeout || q.done.None?) {
        reqs := reqs[r := q.(phase := Decided(TimedOut))];
        return false;
      }
      approved := q.done.value;
      reqs := reqs[r := q.(done := None, phase := Decided(Answered(approved)))];
    }

    /** The deferred delete. */
    method Finish(r: nat)
      requires Listed(View()) && Enabled(View(), Remove(r))
      modifies this
      ensures View() == Step(old(View()), Remove(r))
      ensures reqs[r].id !in pending
    {
      pending := pending - {reqs[r].id};
      reqs := reqs[r := reqs[r].(phase := Returned(reqs[r].phase.verdict))];
    }
  }
}

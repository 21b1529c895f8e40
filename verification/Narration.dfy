/** host/narration.go: which of the model's own words are relayed while a turn runs. */
module Narration {
  import opened GoText

  datatype Block = Text(text: string) | ToolUse | OtherBlock

  /** One decoded stream-json line; parent is "" on the main thread. */
  datatype Line = Assistant(parent: string, content: seq<Block>) | Result | Ignored

  /** What a stream says to the tracker: a text, a tool call, the end of a turn. */
  datatype Signal = Said(text: string) | Tool | End

  function BlockSignals(b: Block): seq<Signal> {
    match b
    case Text(t) => if TrimSpace(t) == "" then [] else [Said(TrimSpace(t))]
    case ToolUse => [Tool]
    case OtherBlock => []
  }

  function BlocksSignals(bs: seq<Block>): seq<Signal> {
    if bs == [] then [] else BlocksSignals(bs[..|bs| - 1]) + BlockSignals(bs[|bs| - 1])
  }

  function LineSignals(l: Line): seq<Signal> {
    match l
    case Assistant(parent, content) => if parent == "" then BlocksSignals(content) else []
    case Result => [End]
    case Ignored => []
  }

  function Signals(lines: seq<Line>): seq<Signal> {
    if lines == [] then [] else Signals(lines[..|lines| - 1]) + LineSignals(lines[|lines| - 1])
  }

  // --------------------------------------------------- what ought to be relayed

  predicate NoEnd(sigs: seq<Signal>, i: nat, j: nat)
    requires i < j < |sigs|
  {
    forall k | i < k < j :: sigs[k] != End
  }

  /** A text that turned out not to be the turn's last word: a tool call follows
      before the turn ends. */
  ghost predicate Confirmed(sigs: seq<Signal>, i: nat) {
    && i < |sigs| && sigs[i].Said?
    && exists j | i < j < |sigs| :: sigs[j] == Tool && NoEnd(sigs, i, j)
  }

  /** A text of which that is still open. */
  ghost predicate Held(sigs: seq<Signal>, i: nat) {
    i < |sigs| && sigs[i].Said? && forall k | i < k < |sigs| :: sigs[k].Said?
  }

  ghost function ConfirmedTexts(sigs: seq<Signal>, n: nat): seq<string>
    requires n <= |sigs|
  {
    if n == 0 then []
    else ConfirmedTexts(sigs, n - 1) + if Confirmed(sigs, n - 1) then [sigs[n - 1].text] else []
  }

  ghost function HeldTexts(sigs: seq<Signal>, n: nat): seq<string>
    requires n <= |sigs|
  {
    if n == 0 then []
    else HeldTexts(sigs, n - 1) + if Held(sigs, n - 1) then [sigs[n - 1].text] else []
  }

  // ----------------------------------------------------- what the tracker does

  datatype Track = Track(pending: seq<string>, out: seq<string>)

  function Hear(t: Track, sig: Signal): Track {
    match sig
    case Said(text) => t.(pending := t.pending + [text])
    case Tool => Track([], t.out + t.pending)
    case End => t.(pending := [])
  }

  function HearAll(pending: seq<string>, sigs: seq<Signal>): Track {
    if sigs == [] then Track(pending, [])
    else Hear(HearAll(pending, sigs[..|sigs| - 1]), sigs[|sigs| - 1])
  }

  lemma {:induction false} HearAllSplit(pending: seq<string>, a: seq<Signal>, b: seq<Signal>)
    ensures var t, u := HearAll(pending, a), HearAll(HearAll(pending, a).pending, b);
      HearAll(pending, a + b) == Track(u.pending, t.out + u.out)
    decreases |b|
  {
    if b == [] {
      assert a + b == a;
    } else {
      var c, x := b[..|b| - 1], b[|b| - 1];
      HearAllSplit(pending, a, c);
      assert b == c + [x] && a + b == (a + c) + [x];
      HearSnoc(pending, a + c, x);
      var t := HearAll(pending, a);
      HearSnoc(t.pending, c, x);
      HearBehind(t.out, HearAll(t.pending, c), x);
    }
  }

  lemma HearSnoc(pending: seq<string>, f: seq<Signal>, x: Signal)
    ensures HearAll(pending, f + [x]) == Hear(HearAll(pending, f), x)
  {
    assert (f + [x])[..|f|] == f;
  }

  lemma HearBehind(out: seq<string>, u: Track, x: Signal)
    ensures Hear(Track(u.pending, out + u.out), x) == Track(Hear(u, x).pending, out + Hear(u, x).out)
  {
    assert x == Tool ==> (out + u.out) + u.pending == out + (u.out + u.pending);
  }

  lemma ConfirmedByOther(f: seq<Signal>, e: Signal, i: nat)
    requires i < |f| && e != Tool
    ensures Confirmed(f + [e], i) <==> Confirmed(f, i)
    ensures Held(f + [e], i) <==> Held(f, i) && e.Said?
  {
    var z := f + [e];
    assert z[|f|] == e && forall k | 0 <= k < |f| :: z[k] == f[k];
    if Confirmed(f, i) {
      var j :| i < j < |f| && f[j] == Tool && NoEnd(f, i, j);
      assert z[j] == Tool && NoEnd(z, i, j);
    }
    if Confirmed(z, i) {
      var j :| i < j < |z| && z[j] == Tool && NoEnd(z, i, j);
      assert f[j] == Tool && NoEnd(f, i, j);
    }
    if Held(z, i) {
      assert forall k | i < k < |f| :: z[k] == f[k];
    }
  }

  lemma {:induction false} ConfirmedAfter(f: seq<Signal>, e: Signal, n: nat)
    requires n <= |f| && e != Tool
    ensures ConfirmedTexts(f + [e], n) == ConfirmedTexts(f, n)
    ensures HeldTexts(f + [e], n) == if e == End then [] else HeldTexts(f, n)
    decreases n
  {
    if n > 0 {
      ConfirmedAfter(f, e, n - 1);
      ConfirmedByOther(f, e, n - 1);
    }
  }

  lemma {:induction false} HeldSuffix(f: seq<Signal>, n: nat)
    requires n < |f| && !(forall k | n < k < |f| :: f[k].Said?)
    ensures HeldTexts(f, n + 1) == []
    decreases n
  {
    if n > 0 { HeldSuffix(f, n - 1); }
  }

  lemma ConfirmedByTool(f: seq<Signal>, i: nat)
    requires i < |f|
    ensures Confirmed(f + [Tool], i) <==> Confirmed(f, i) || Held(f, i)
  {
    var z := f + [Tool];
    if Confirmed(f, i) {
      var j :| i < j < |f| && f[j] == Tool && NoEnd(f, i, j);
      assert z[j] == Tool && NoEnd(z, i, j);
    }
    if Held(f, i) {
      assert z[|f|] == Tool && NoEnd(z, i, |f|);
    }
    if Confirmed(z, i) && !Held(f, i) {
      var j :| i < j < |z| && z[j] == Tool && NoEnd(z, i, j);
      assert forall k | i < k < |f| && k < j :: f[k] == z[k];
      if j == |f| {
        var m :| i < m < |f| && !f[m].Said?;
        assert f[m] == Tool && NoEnd(f, i, m);
      } else {
        assert f[j] == Tool && NoEnd(f, i, j);
      }
    }
  }

  /** Nothing before a confirmed text is still open. */
  lemma ConfirmedNoneHeld(f: seq<Signal>, i: nat)
    requires Confirmed(f, i)
    ensures !Held(f, i) && HeldTexts(f, i) == []
  {
    var j :| i < j < |f| && f[j] == Tool;
    if i > 0 { HeldSuffix(f, i - 1); }
  }

  lemma {:induction false} NoneHeldAfterTool(f: seq<Signal>, n: nat)
    requires n < |f| && f[|f| - 1] == Tool
    ensures HeldTexts(f, n) == []
    decreases n
  {
    if n > 0 {
      NoneHeldAfterTool(f, n - 1);
      assert !Held(f, n - 1);
    }
  }

  /** What signal i adds to either list. */
  ghost function Pick(sigs: seq<Signal>, i: nat, which: bool): seq<string>
    requires i < |sigs| && (which ==> sigs[i].Said?)
  {
    if which then [sigs[i].text] else []
  }

  lemma TextsAt(sigs: seq<Signal>, n: nat)
    requires 0 < n <= |sigs|
    ensures ConfirmedTexts(sigs, n) == ConfirmedTexts(sigs, n - 1) + Pick(sigs, n - 1, Confirmed(sigs, n - 1))
    ensures HeldTexts(sigs, n) == HeldTexts(sigs, n - 1) + Pick(sigs, n - 1, Held(sigs, n - 1))
  {}

  /** z is f with a tool call at its end. */
  lemma PickAfterTool(f: seq<Signal>, z: seq<Signal>, i: nat)
    requires i < |f| && z == f + [Tool]
    ensures z[i] == f[i]
    ensures var c, h := Pick(f, i, Confirmed(f, i)), Pick(f, i, Held(f, i));
      && Pick(z, i, Confirmed(z, i)) == c + h
      && (c != [] ==> h == [] && HeldTexts(f, i) == [])
  {
    ConfirmedByTool(f, i);
    if Confirmed(f, i) { ConfirmedNoneHeld(f, i); }
  }

  /** The texts a list takes up are those its predicate picks. */
  lemma ToolStep(f: seq<Signal>, z: seq<Signal>, i: nat)
    requires i < |f| && z == f + [Tool]
    requires ConfirmedTexts(z, i) == ConfirmedTexts(f, i) + HeldTexts(f, i)
    ensures ConfirmedTexts(z, i + 1) == ConfirmedTexts(f, i + 1) + HeldTexts(f, i + 1)
  {
    PickAfterTool(f, z, i);
    TextsAt(f, i + 1);
    TextsAt(z, i + 1);
    Combine(ConfirmedTexts(z, i), ConfirmedTexts(f, i), HeldTexts(f, i),
      Pick(z, i, Confirmed(z, i)), Pick(f, i, Confirmed(f, i)), Pick(f, i, Held(f, i)));
  }

  lemma {:induction false} ConfirmedAfterTool(f: seq<Signal>, z: seq<Signal>, n: nat)
    requires n <= |f| && z == f + [Tool]
    ensures ConfirmedTexts(z, n) == ConfirmedTexts(f, n) + HeldTexts(f, n)
    decreases n
  {
    if n > 0 {
      ConfirmedAfterTool(f, z, n - 1);
      ToolStep(f, z, n - 1);
    }
  }

  lemma Combine(x: seq<string>, c: seq<string>, h: seq<string>, x1: seq<string>, c1: seq<string>, h1: seq<string>)
    requires x == c + h && x1 == c1 + h1 && (c1 != [] ==> h1 == [] && h == [])
    ensures x + x1 == (c + c1) + (h + h1)
  {
    Regroup(c, h, c1, h1);
  }

  lemma Regroup(c: seq<string>, h: seq<string>, c1: seq<string>, h1: seq<string>)
    requires c1 != [] ==> h1 == [] && h == []
    ensures (c + h) + (c1 + h1) == (c + c1) + (h + h1)
  {
    if c1 != [] {
      assert c + h == c && c1 + h1 == c1 && h + h1 == [];
    } else {
      assert c1 + h1 == h1 && c + c1 == c;
    }
  }

  /** Whatever the stream: the tracker has relayed, in order, exactly the texts a
      tool call confirmed, and holds exactly those still open. */
  lemma {:induction false} TrackerIsRight(sigs: seq<Signal>)
    ensures HearAll([], sigs).out == ConfirmedTexts(sigs, |sigs|)
    ensures HearAll([], sigs).pending == HeldTexts(sigs, |sigs|)
  {
    if sigs != [] {
      var f, e := sigs[..|sigs| - 1], sigs[|sigs| - 1];
      TrackerIsRight(f);
      assert sigs == f + [e];
      if e == Tool { ConfirmedAfterTool(f, sigs, |f|); NoneHeldAfterTool(sigs, |f|); } else { ConfirmedAfter(f, e, |f|); }
    }
  }

  lemma {:induction false} SayingRelaysNothing(pending: seq<string>, answer: seq<Signal>)
    requires forall k | 0 <= k < |answer| :: answer[k].Said?
    ensures HearAll(pending, answer).out == []
  {
    if answer != [] { SayingRelaysNothing(pending, answer[..|answer| - 1]); }
  }

  /** The closing answer - texts with only the result after them - is never relayed,
      then or later, and neither is what was still held: a stream relays what it
      relays up to there and what the rest relays by itself. */
  lemma ClosingAnswerNeverRelayed(before: seq<Signal>, answer: seq<Signal>, after: seq<Signal>)
    requires forall k | 0 <= k < |answer| :: answer[k].Said?
    ensures HearAll([], before + (answer + ([End] + after))).out == HearAll([], before).out + HearAll([], after).out
  {
    AnswerDropped(HearAll([], before).pending, answer, after);
    HearAllSplit([], before, answer + ([End] + after));
  }

  lemma AnswerDropped(pending: seq<string>, answer: seq<Signal>, after: seq<Signal>)
    requires forall k | 0 <= k < |answer| :: answer[k].Said?
    ensures HearAll(pending, answer + ([End] + after)).out == HearAll([], after).out
  {
    var rest := [End] + after;
    var t := HearAll(pending, answer);
    HearAllSplit(pending, answer, rest);
    SayingRelaysNothing(pending, answer);
    EndClears(t.pending, after);
    assert [] + HearAll([], after).out == HearAll([], after).out;
  }

  lemma EndClears(pending: seq<string>, after: seq<Signal>)
    ensures HearAll(pending, [End] + after) == HearAll([], after)
  {
    HearAllSplit(pending, [End], after);
    assert [End][..0] == [];
    assert HearAll(pending, [End]) == Track([], []);
  }

  // -------------------------------------------------------------- the program

  predicate AllClean(ts: seq<string>) {
    forall i | 0 <= i < |ts| :: Clean(ts[i])
  }

  lemma CleanConcat(a: seq<string>, b: seq<string>)
    requires AllClean(a) && AllClean(b)
    ensures AllClean(a + b)
  {}

  lemma HearOneClean(pending: seq<string>, b: Block)
    requires AllClean(pending)
    ensures AllClean(HearAll(pending, BlockSignals(b)).pending) && AllClean(HearAll(pending, BlockSignals(b)).out)
  {
    HearOne(pending, b);
    if b.Text? {
      TrimSpaceClean(b.text);
      if TrimSpace(b.text) != "" { CleanConcat(pending, [TrimSpace(b.text)]); }
    }
  }

  lemma {:induction false} HearAllClean(pending: seq<string>, bs: seq<Block>)
    requires AllClean(pending)
    ensures AllClean(HearAll(pending, BlocksSignals(bs)).pending)
    ensures AllClean(HearAll(pending, BlocksSignals(bs)).out)
  {
    if bs != [] {
      var f, b := bs[..|bs| - 1], bs[|bs| - 1];
      HearAllClean(pending, f);
      var t := HearAll(pending, BlocksSignals(f));
      HearAllSplit(pending, BlocksSignals(f), BlockSignals(b));
      HearOneClean(t.pending, b);
      CleanConcat(t.out, HearAll(t.pending, BlockSignals(b)).out);
    }
  }

  lemma HearOne(pending: seq<string>, b: Block)
    ensures HearAll(pending, BlockSignals(b)) ==
      match b
      case Text(t) => Track(if TrimSpace(t) == "" then pending else pending + [TrimSpace(t)], [])
      case ToolUse => Track([], pending)
      case OtherBlock => Track(pending, [])
  {
    assert forall s: Signal :: [s][..0] == [];
    assert [] + pending == pending;
  }

  lemma EndAlone(pending: seq<string>)
    ensures HearAll(pending, [End]) == Track([], [])
  {
    assert [End][..0] == [];
  }

  lemma BlocksSnoc(pending: seq<string>, bs: seq<Block>, i: nat)
    requires i < |bs|
    ensures var t := HearAll(pending, BlocksSignals(bs[..i]));
      var u := HearAll(t.pending, BlockSignals(bs[i]));
      HearAll(pending, BlocksSignals(bs[..i + 1])) == Track(u.pending, t.out + u.out)
  {
    assert bs[..i + 1][..i] == bs[..i];
    HearAllSplit(pending, BlocksSignals(bs[..i]), BlockSignals(bs[i]));
  }

  class NarrationTracker {
    var pending: seq<string>

    constructor ()
      ensures pending == []
    {
      pending := [];
    }

    method Feed(line: Line) returns (out: string)
      requires AllClean(pending)
      modifies this
      ensures AllClean(pending)
      ensures var t := HearAll(old(pending), LineSignals(line));
        pending == t.pending && out == Join(t.out, "\n") && AllClean(t.out)
      ensures line.Assistant? && line.parent != "" ==> out == "" && pending == old(pending)
    {
      if line == Result {
        EndAlone(pending);
        pending := [];
        return "";
      }
      if line == Ignored || line.parent != "" {
        return "";
      }
      out := FeedBlocks(line.content);
    }

    /** The block loop. */
    method FeedBlocks(content: seq<Block>) returns (out: string)
      requires AllClean(pending)
      modifies this
      ensures AllClean(pending)
      ensures var t := HearAll(old(pending), BlocksSignals(content));
        pending == t.pending && out == Join(t.out, "\n") && AllClean(t.out)
    {
      out := "";
      ghost var t := Track(pending, []);
      for i := 0 to |content|
        invariant t == HearAll(old(pending), BlocksSignals(content[..i]))
        invariant pending == t.pending && AllClean(pending) && AllClean(t.out)
        invariant out == Join(t.out, "\n")
      {
        BlocksSnoc(old(pending), content, i);
        HearOneClean(pending, content[i]);
        ghost var u := HearAll(pending, BlockSignals(content[i]));
        CleanConcat(t.out, u.out);
        out := HearBlock(content[i], out, t.out);
        t := Track(u.pending, t.out + u.out);
      }
      assert content[..|content|] == content;
    }

    /** The body of the block loop. */
    method HearBlock(b: Block, said: string, ghost sofar: seq<string>) returns (out: string)
      requires AllClean(pending) && AllClean(sofar) && said == Join(sofar, "\n")
      modifies this
      ensures pending == HearAll(old(pending), BlockSignals(b)).pending
      ensures out == Join(sofar + HearAll(old(pending), BlockSignals(b)).out, "\n")
    {
      HearOne(pending, b);
      assert sofar + [] == sofar;
      out := said;
      match b
      case Text(t) =>
        var s := TrimSpace(t);
        if s != "" {
          pending := pending + [s];
        }
      case ToolUse =>
        if |pending| > 0 {
          if sofar != [] {
            JoinClean(sofar, "\n");
            JoinTwo(sofar, pending, "\n");
          }
          if out != "" {
            out := out + "\n";
          }
          out := out + Join(pending, "\n");
          pending := [];
        }
      case OtherBlock =>
    }
  }

  /** The non-empty results of feeding a tracker the lines, one after another. */
  function Outs(lines: seq<Line>): seq<string> {
    if lines == [] then []
    else
      var f := lines[..|lines| - 1];
      var t := HearAll(HearAll([], Signals(f)).pending, LineSignals(lines[|lines| - 1]));
      Outs(f) + if Join(t.out, "\n") == "" then [] else [Join(t.out, "\n")]
  }

  lemma NextLine(lines: seq<Line>)
    requires lines != []
    ensures var f, l := lines[..|lines| - 1], lines[|lines| - 1];
      HearAll([], Signals(lines)).pending == HearAll(HearAll([], Signals(f)).pending, LineSignals(l)).pending
  {
    HearAllSplit([], Signals(lines[..|lines| - 1]), LineSignals(lines[|lines| - 1]));
  }

  lemma OutsNext(f: seq<Line>, l: Line)
    ensures var t := HearAll(HearAll([], Signals(f)).pending, LineSignals(l));
      && Outs(f + [l]) == Outs(f) + (if Join(t.out, "\n") == "" then [] else [Join(t.out, "\n")])
      && HearAll([], Signals(f + [l])).pending == t.pending
  {
    assert (f + [l])[..|f|] == f;
    NextLine(f + [l]);
  }

  /** Where tracker and output are after these lines. */
  ghost predicate Relaying(pending: seq<string>, outs: seq<string>, before: seq<Line>) {
    pending == HearAll([], Signals(before)).pending && AllClean(pending) && outs == Outs(before)
  }

  /** The body of the callback; before: the lines so far. */
  method RelayLine(tracker: NarrationTracker, l: Line, sofar: seq<string>, ghost before: seq<Line>, ghost after: seq<Line>)
    returns (outs: seq<string>)
    requires Relaying(tracker.pending, sofar, before) && after == before + [l]
    modifies tracker
    ensures Relaying(tracker.pending, outs, after)
  {
    OutsNext(before, l);
    var text := tracker.Feed(l);
    outs := sofar;
    if text != "" {
      outs := outs + [text];
    }
  }

  method RelayAll(lines: seq<Line>) returns (outs: seq<string>)
    ensures outs == Outs(lines)
  {
    var tracker := new NarrationTracker();
    outs := [];
    for i := 0 to |lines|
      invariant fresh(tracker) && Relaying(tracker.pending, outs, lines[..i])
    {
      FrontGrows(lines, i);
      outs := RelayLine(tracker, lines[i], outs, lines[..i], lines[..i + 1]);
    }
    assert lines[..|lines|] == lines;
  }

  lemma FrontGrows(lines: seq<Line>, i: nat)
    requires i < |lines|
    ensures lines[..i + 1] == lines[..i] + [lines[i]]
  {}

  /** The turn's line callback (host/runner.go): what the tracker returns, if
      anything, is passed on. */
  method RelayStream(lines: seq<Line>) returns (outs: seq<string>)
    ensures outs == Outs(lines)
    ensures Join(outs, "\n") == Join(ConfirmedTexts(Signals(lines), |Signals(lines)|), "\n")
  {
    outs := RelayAll(lines);
    OutsAreConfirmed(lines);
  }

  lemma {:induction false} PendingClean(lines: seq<Line>)
    ensures AllClean(HearAll([], Signals(lines)).pending)
  {
    if lines != [] {
      var f, l := lines[..|lines| - 1], lines[|lines| - 1];
      PendingClean(f);
      HearAllSplit([], Signals(f), LineSignals(l));
      LineClean(HearAll([], Signals(f)).pending, l);
    }
  }

  lemma LineClean(pending: seq<string>, l: Line)
    requires AllClean(pending)
    ensures AllClean(HearAll(pending, LineSignals(l)).pending) && AllClean(HearAll(pending, LineSignals(l)).out)
  {
    if l.Assistant? { HearAllClean(pending, l.content); }
  }

  /** Over any stream the relayed lines, read one under the other, are exactly the
      confirmed texts; and each is clean, so the gate passes it on as it is. */
  lemma {:induction false} OutsAreConfirmed(lines: seq<Line>)
    ensures var sigs := Signals(lines);
      Join(Outs(lines), "\n") == Join(ConfirmedTexts(sigs, |sigs|), "\n")
      && (Outs(lines) == [] <==> ConfirmedTexts(sigs, |sigs|) == [])
    ensures AllClean(Outs(lines))
  {
    if lines != [] {
      var f, l := lines[..|lines| - 1], lines[|lines| - 1];
      OutsAreConfirmed(f);
      PendingClean(f);
      TrackerIsRight(Signals(f));
      TrackerIsRight(Signals(lines));
      HearAllSplit([], Signals(f), LineSignals(l));
      var u := HearAll(HearAll([], Signals(f)).pending, LineSignals(l)).out;
      LineClean(HearAll([], Signals(f)).pending, l);
      JoinStep(Outs(f), ConfirmedTexts(Signals(f), |Signals(f)|), u);
    }
  }

  lemma JoinStep(outs: seq<string>, done: seq<string>, u: seq<string>)
    requires Join(outs, "\n") == Join(done, "\n") && (outs == [] <==> done == []) && AllClean(outs) && AllClean(u)
    ensures var z := outs + if Join(u, "\n") == "" then [] else [Join(u, "\n")];
      Join(z, "\n") == Join(done + u, "\n") && (z == [] <==> done + u == []) && AllClean(z)
  {
    if u == [] {
      assert done + u == done && outs + [] == outs;
    } else {
      JoinClean(u, "\n");
      assert [] + [Join(u, "\n")] == [Join(u, "\n")];
      if done == [] {
        assert done + u == u;
      } else {
        JoinTwo(done, u, "\n");
        JoinTwo(outs, [Join(u, "\n")], "\n");
      }
    }
  }
}

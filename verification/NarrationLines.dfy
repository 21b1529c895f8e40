/** host/narration.go, told from the lines of the stream alone: whose texts are relayed,
    and which. */
module NarrationLines {
  import opened GoText
  import opened Narration

  predicate OnMain(l: Line) { l.Assistant? && l.parent == "" }

  predicate Counts(l: Line) { OnMain(l) || l.Result? }

  /** The lines of the main thread, and the results. */
  function MainLines(lines: seq<Line>): seq<Line> {
    if lines == [] then []
    else
      var l := lines[|lines| - 1];
      MainLines(lines[..|lines| - 1]) + if Counts(l) then [l] else []
  }

  lemma SignalsSnoc(f: seq<Line>, l: Line)
    ensures Signals(f + [l]) == Signals(f) + LineSignals(l)
  {
    assert (f + [l])[..|f|] == f;
  }

  lemma MainSnoc(f: seq<Line>, l: Line)
    ensures MainLines(f + [l]) == if Counts(l) then MainLines(f) + [l] else MainLines(f)
  {
    assert (f + [l])[..|f|] == f;
    assert MainLines(f) + [] == MainLines(f);
  }

  lemma {:induction false} SignalsOfMain(lines: seq<Line>)
    ensures Signals(MainLines(lines)) == Signals(lines)
  {
    if lines != [] {
      var f, l := lines[..|lines| - 1], lines[|lines| - 1];
      SignalsOfMain(f);
      assert lines == f + [l];
      MainSnoc(f, l);
      SignalsSnoc(f, l);
      if Counts(l) { SignalsSnoc(MainLines(f), l); } else { assert Signals(f) + [] == Signals(f); }
    }
  }

  /** What line l adds to the output after f. */
  function Adds(f: seq<Line>, l: Line): seq<string> {
    var t := HearAll(HearAll([], Signals(f)).pending, LineSignals(l));
    if Join(t.out, "\n") == "" then [] else [Join(t.out, "\n")]
  }

  lemma OutsSnoc(f: seq<Line>, l: Line)
    ensures Outs(f + [l]) == Outs(f) + Adds(f, l)
  {
    assert (f + [l])[..|f|] == f;
  }

  lemma SideAddsNothing(f: seq<Line>, l: Line)
    requires !Counts(l)
    ensures Adds(f, l) == []
  {
    assert LineSignals(l) == [] && Join([], "\n") == "";
  }

  lemma AddsSame(f: seq<Line>, l: Line)
    ensures Adds(MainLines(f), l) == Adds(f, l)
  {
    SignalsOfMain(f);
  }

  lemma MainStep(f: seq<Line>, m: seq<Line>, l: Line)
    requires m == MainLines(f) && Outs(f) == Outs(m)
    ensures Outs(f + [l]) == Outs(if Counts(l) then m + [l] else m)
  {
    OutsSnoc(f, l);
    if Counts(l) {
      AddsSame(f, l);
      OutsSnoc(m, l);
    } else {
      SideAddsNothing(f, l);
      assert Outs(f) + [] == Outs(f);
    }
  }

  lemma LastOff(lines: seq<Line>) returns (f: seq<Line>, l: Line)
    requires lines != []
    ensures lines == f + [l] && |f| < |lines|
  {
    f, l := lines[..|lines| - 1], lines[|lines| - 1];
  }

  /** Sub-agents and everything else in the stream might as well not be there. */
  lemma {:induction false} OnlyMainCounts(lines: seq<Line>)
    ensures Outs(lines) == Outs(MainLines(lines))
    decreases |lines|
  {
    if lines != [] {
      var f, l := LastOff(lines);
      OnlyMainCounts(f);
      MainLast(lines, f, l);
    }
  }

  lemma MainLast(lines: seq<Line>, f: seq<Line>, l: Line)
    requires lines == f + [l] && Outs(f) == Outs(MainLines(f))
    ensures Outs(lines) == Outs(MainLines(lines))
  {
    MainStep(f, MainLines(f), l);
    MainSnoc(f, l);
  }

  // -------------------------------------------------------------- what is relayed

  predicate IsText(b: Block) { b.Text? && TrimSpace(b.text) != "" }

  predicate ToolIn(bs: seq<Block>) { exists j | 0 <= j < |bs| :: bs[j].ToolUse? }

  predicate ToolLine(l: Line) { OnMain(l) && ToolIn(l.content) }

  /** From line i on the main thread calls a tool before a result ends the turn. */
  ghost predicate ToolAhead(lines: seq<Line>, i: nat) {
    exists m | i <= m < |lines| :: ToolLine(lines[m]) && forall r | i <= r < m :: !lines[r].Result?
  }

  /** Block j of line i: a text of the main thread with such a call after it, in the same
      line or a later one. */
  ghost predicate Confirms(lines: seq<Line>, i: nat, j: nat) {
    && i < |lines| && OnMain(lines[i]) && j < |lines[i].content| && IsText(lines[i].content[j])
    && (ToolIn(lines[i].content[j + 1..]) || ToolAhead(lines, i + 1))
  }

  /** What block j of line i contributes. */
  ghost function TextAt(lines: seq<Line>, i: nat, j: nat): seq<string>
    requires i < |lines| && OnMain(lines[i]) && j < |lines[i].content|
  {
    if Confirms(lines, i, j) then [TrimSpace(lines[i].content[j].text)] else []
  }

  ghost function TextsOf(lines: seq<Line>, i: nat, j: nat): seq<string>
    requires i < |lines| && OnMain(lines[i]) && j <= |lines[i].content|
    decreases |lines[i].content| - j
  {
    if j == |lines[i].content| then []
    else TextAt(lines, i, j) + TextsOf(lines, i, j + 1)
  }

  /** All such texts from line i on, trimmed, in the order of the stream. */
  ghost function TextsFrom(lines: seq<Line>, i: nat): seq<string>
    requires i <= |lines|
    decreases |lines| - i
  {
    if i == |lines| then []
    else (if OnMain(lines[i]) then TextsOf(lines, i, 0) else []) + TextsFrom(lines, i + 1)
  }

  // ------------------------------------------------------- the signals, from the front

  predicate ToolNext(sigs: seq<Signal>) {
    sigs != [] && (sigs[0] == Tool || (sigs[0] != End && ToolNext(sigs[1..])))
  }

  function Relay(sigs: seq<Signal>): seq<string> {
    if sigs == [] then []
    else (if sigs[0].Said? && ToolNext(sigs[1..]) then [sigs[0].text] else []) + Relay(sigs[1..])
  }

  lemma {:induction false} HeardFront(pending: seq<string>, sigs: seq<Signal>)
    ensures HearAll(pending, sigs).out == (if ToolNext(sigs) then pending else []) + Relay(sigs)
    decreases |sigs|
  {
    if sigs == [] {
      assert pending + [] == pending && HearAll(pending, sigs).out == [];
    } else {
      var s, rest := sigs[0], sigs[1..];
      assert sigs == [s] + rest && [s][..0] == [];
      HearAllSplit(pending, [s], rest);
      HeardFront(HearAll(pending, [s]).pending, rest);
      match s
      case Said(t) => assert (pending + [t]) + Relay(rest) == pending + ([t] + Relay(rest));
      case Tool => assert [] + pending == pending;
      case End =>
    }
  }

  lemma {:induction false} BlocksFront(bs: seq<Block>)
    requires bs != []
    ensures BlocksSignals(bs) == BlockSignals(bs[0]) + BlocksSignals(bs[1..])
    decreases |bs|
  {
    if |bs| > 1 {
      BlocksFront(bs[..|bs| - 1]);
      assert bs[..|bs| - 1][1..] == bs[1..][..|bs| - 2];
    } else {
      assert bs[..0] == [] && bs[1..] == [];
    }
  }

  lemma {:induction false} LinesFront(lines: seq<Line>)
    requires lines != []
    ensures Signals(lines) == LineSignals(lines[0]) + Signals(lines[1..])
    decreases |lines|
  {
    if |lines| > 1 {
      LinesFront(lines[..|lines| - 1]);
      assert lines[..|lines| - 1][1..] == lines[1..][..|lines| - 2];
    } else {
      assert lines[..0] == [] && lines[1..] == [];
    }
  }

  /** One block, in front of rest. */
  lemma BlockAhead(b: Block, rest: seq<Signal>)
    ensures ToolNext(BlockSignals(b) + rest) <==> b.ToolUse? || ToolNext(rest)
    ensures Relay(BlockSignals(b) + rest) == (if IsText(b) && ToolNext(rest) then [TrimSpace(b.text)] else []) + Relay(rest)
  {
    var z := BlockSignals(b) + rest;
    if BlockSignals(b) == [] { assert z == rest; } else { assert z[1..] == rest; }
  }

  lemma {:induction false} BlocksAhead(bs: seq<Block>, rest: seq<Signal>)
    ensures ToolNext(BlocksSignals(bs) + rest) <==> ToolIn(bs) || ToolNext(rest)
  {
    if bs == [] {
      assert [] + rest == rest;
    } else {
      BlocksFront(bs);
      BlocksAhead(bs[1..], rest);
      BlockAhead(bs[0], BlocksSignals(bs[1..]) + rest);
      assert BlocksSignals(bs) + rest == BlockSignals(bs[0]) + (BlocksSignals(bs[1..]) + rest);
      ToolFront(bs);
    }
  }

  lemma ToolFront(bs: seq<Block>)
    requires bs != []
    ensures ToolIn(bs) <==> bs[0].ToolUse? || ToolIn(bs[1..])
  {
    if ToolIn(bs) && !bs[0].ToolUse? {
      var j :| 0 <= j < |bs| && bs[j].ToolUse?;
      assert bs[1..][j - 1].ToolUse?;
    }
    if ToolIn(bs[1..]) {
      var j :| 0 <= j < |bs[1..]| && bs[1..][j].ToolUse?;
      assert bs[j + 1].ToolUse?;
    }
  }

  lemma {:induction false} LinesAhead(lines: seq<Line>, i: nat)
    requires i <= |lines|
    ensures ToolNext(Signals(lines[i..])) <==> ToolAhead(lines, i)
    decreases |lines| - i
  {
    if i < |lines| {
      LinesAhead(lines, i + 1);
      SignalsFrom(lines, i);
      var rest := Signals(lines[i + 1..]);
      AheadStep(lines, i);
      match lines[i]
      case Assistant(parent, content) => if parent == "" { BlocksAhead(content, rest); } else { assert [] + rest == rest; }
      case Result => assert ([End] + rest)[0] == End;
      case Ignored => assert [] + rest == rest;
    }
  }

  lemma AheadStep(lines: seq<Line>, i: nat)
    requires i < |lines|
    ensures ToolAhead(lines, i) <==> ToolLine(lines[i]) || (!lines[i].Result? && ToolAhead(lines, i + 1))
  {
    if ToolAhead(lines, i + 1) && !lines[i].Result? {
      var m :| i + 1 <= m < |lines| && ToolLine(lines[m]) && forall r | i + 1 <= r < m :: !lines[r].Result?;
      assert forall r | i <= r < m :: !lines[r].Result?;
    }
  }

  lemma BlockRelays(lines: seq<Line>, i: nat, j: nat, rest: seq<Signal>, more: seq<Signal>)
    requires i < |lines| && OnMain(lines[i]) && j < |lines[i].content|
    requires rest == Signals(lines[i + 1..]) && more == BlocksSignals(lines[i].content[j + 1..]) + rest
    ensures Relay(BlockSignals(lines[i].content[j]) + more) == TextAt(lines, i, j) + Relay(more)
  {
    BlockAhead(lines[i].content[j], more);
    BlocksAhead(lines[i].content[j + 1..], rest);
    LinesAhead(lines, i + 1);
  }

  lemma BlocksAt(bs: seq<Block>, j: nat, rest: seq<Signal>)
    requires j < |bs|
    ensures BlocksSignals(bs[j..]) + rest == BlockSignals(bs[j]) + (BlocksSignals(bs[j + 1..]) + rest)
  {
    BlocksFront(bs[j..]);
    assert bs[j..][1..] == bs[j + 1..];
  }

  lemma Regrouped(a: seq<string>, b: seq<string>, c: seq<string>)
    ensures a + (b + c) == (a + b) + c
  {}

  /** The texts of one line. */
  lemma {:induction false} LineRelays(lines: seq<Line>, i: nat, j: nat, rest: seq<Signal>)
    requires i < |lines| && OnMain(lines[i]) && j <= |lines[i].content| && rest == Signals(lines[i + 1..])
    ensures Relay(BlocksSignals(lines[i].content[j..]) + rest) == TextsOf(lines, i, j) + Relay(rest)
    decreases |lines[i].content| - j
  {
    var bs := lines[i].content;
    if j == |bs| {
      assert bs[j..] == [] && [] + rest == rest && [] + Relay(rest) == Relay(rest);
    } else {
      var more := BlocksSignals(bs[j + 1..]) + rest;
      LineRelays(lines, i, j + 1, rest);
      BlocksAt(bs, j, rest);
      BlockRelays(lines, i, j, rest, more);
      Regrouped(TextAt(lines, i, j), TextsOf(lines, i, j + 1), Relay(rest));
    }
  }

  lemma FromStep(lines: seq<Line>, i: nat, rest: seq<Signal>)
    requires i < |lines| && rest == Signals(lines[i + 1..])
    ensures Relay(LineSignals(lines[i]) + rest) == (if OnMain(lines[i]) then TextsOf(lines, i, 0) else []) + Relay(rest)
  {
    match lines[i]
    case Assistant(parent, content) =>
      if parent == "" {
        LineRelays(lines, i, 0, rest);
        assert content[0..] == content;
      } else {
        assert [] + rest == rest;
      }
    case Result => assert ([End] + rest)[1..] == rest;
    case Ignored => assert [] + rest == rest;
  }

  lemma SignalsFrom(lines: seq<Line>, i: nat)
    requires i < |lines|
    ensures Signals(lines[i..]) == LineSignals(lines[i]) + Signals(lines[i + 1..])
  {
    LinesFront(lines[i..]);
    assert lines[i..][1..] == lines[i + 1..];
  }

  lemma {:induction false} LinesRelay(lines: seq<Line>, i: nat)
    requires i <= |lines|
    ensures Relay(Signals(lines[i..])) == TextsFrom(lines, i)
    decreases |lines| - i
  {
    if i < |lines| {
      LinesRelay(lines, i + 1);
      SignalsFrom(lines, i);
      FromStep(lines, i, Signals(lines[i + 1..]));
    }
  }

  /** Over any stream the user is relayed, line under line, exactly the texts of the main
      thread that a tool call of the main thread follows before the turn's result, trimmed,
      in their order; nothing if there are none. */
  lemma RelayedExactly(lines: seq<Line>)
    ensures Join(Outs(lines), "\n") == Join(TextsFrom(lines, 0), "\n")
    ensures Outs(lines) == [] <==> TextsFrom(lines, 0) == []
  {
    OutsAreConfirmed(lines);
    TrackerIsRight(Signals(lines));
    HeardFront([], Signals(lines));
    LinesRelay(lines, 0);
    assert lines[0..] == lines && [] + Relay(Signals(lines)) == Relay(Signals(lines));
  }
}

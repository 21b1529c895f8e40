/** host/queuemerge.go: folding the backlog of a conversation into one turn. */
module QueueMerge {
  import opened GoText

  datatype Target = Target(kind: string, project: string, id: string) {
    predicate IsWeb() { kind == "web" }
  }

  const TELEGRAM_TARGET := Target("telegram", "", "")

  predicate SameConversation(t: Target, o: Target) {
    t.IsWeb() == o.IsWeb() && (t.IsWeb() ==> t.id == o.id)
  }

  function LaneKeyOf(t: Target): string {
    if t.IsWeb() then "web:" + t.id else "telegram"
  }

  datatype QueuedMsg = QueuedMsg(
    chatID: int, text: string, isTask: bool, project: string, origin: string,
    target: Option<Target>, laneKey: string, noMerge: bool, merged: nat, tgMsgIDs: seq<int>) {
    function Conversation(): Target {
      if target.Some? then target.value else TELEGRAM_TARGET
    }

    function QueueKey(): string {
      if laneKey != "" then laneKey else LaneKeyOf(Conversation())
    }

    predicate Mergeable() {
      !isTask && !noMerge && !HasPrefix(TrimSpace(text), "!")
    }
  }

  const SEPARATOR := "\n\n"

  predicate MergeCompatible(head: QueuedMsg, next: QueuedMsg) {
    && head.Mergeable() && next.Mergeable()
    && head.chatID == next.chatID && head.origin == next.origin && head.QueueKey() == next.QueueKey()
    && head.target.None? == next.target.None?
    && SameConversation(head.Conversation(), next.Conversation())
  }

  function Texts(q: seq<QueuedMsg>): (r: seq<string>)
    ensures |r| == |q|
    ensures forall i :: 0 <= i < |q| ==> r[i] == q[i].text
  {
    if q == [] then [] else [q[0].text] + Texts(q[1..])
  }

  function MsgIDs(q: seq<QueuedMsg>): seq<int> {
    if q == [] then [] else q[0].tgMsgIDs + MsgIDs(q[1..])
  }

  /** How many user messages an entry says it carries. */
  function Carried(m: QueuedMsg): nat {
    if m.merged > 1 then m.merged else 1
  }

  function TotalCarried(q: seq<QueuedMsg>): nat {
    if q == [] then 0 else Carried(q[0]) + TotalCarried(q[1..])
  }

  /** One queue entry standing for a whole group of messages. */
  function Fold(g: seq<QueuedMsg>): QueuedMsg
    requires g != []
  {
    if |g| == 1 then g[0]
    else g[0].(text := Join(Texts(g), SEPARATOR), tgMsgIDs := MsgIDs(g), merged := |g|)
  }

  /** n is the length of the longest run at the head that may become one turn. */
  ghost predicate IsHeadRun(q: seq<QueuedMsg>, n: nat) {
    && 1 <= n <= |q|
    && (forall i :: 1 <= i < n ==> MergeCompatible(q[0], q[i]))
    && (n < |q| ==> !MergeCompatible(q[0], q[n]))
  }

  function RunFrom(q: seq<QueuedMsg>, n: nat): (r: nat)
    requires 1 <= n <= |q|
    requires forall i :: 1 <= i < n ==> MergeCompatible(q[0], q[i])
    ensures IsHeadRun(q, r)
    decreases |q| - n
  {
    if n < |q| && MergeCompatible(q[0], q[n]) then RunFrom(q, n + 1) else n
  }

  function HeadRun(q: seq<QueuedMsg>): (n: nat)
    requires q != []
    ensures IsHeadRun(q, n)
  {
    RunFrom(q, 1)
  }

  lemma HeadRunUnique(q: seq<QueuedMsg>, m: nat, n: nat)
    requires IsHeadRun(q, m) && IsHeadRun(q, n)
    ensures m == n
  {}

  /** The queue after folding its head run. */
  function MergeHead(q: seq<QueuedMsg>): seq<QueuedMsg> {
    if q == [] then [] else [Fold(q[..HeadRun(q)])] + q[HeadRun(q)..]
  }

  method MergeQueuedHead(q: seq<QueuedMsg>) returns (out: seq<QueuedMsg>)
    ensures out == MergeHead(q)
  {
    if |q| < 2 {
      if |q| == 1 { assert q == [q[0]] + q[1..]; }
      return q;
    }
    var head := q[0];
    var n := 1;
    while n < |q| && MergeCompatible(head, q[n])
      invariant 1 <= n <= |q|
      invariant forall i :: 1 <= i < n ==> MergeCompatible(head, q[i])
    {
      n := n + 1;
    }
    HeadRunUnique(q, n, HeadRun(q));
    if n == 1 {
      assert q == [q[0]] + q[1..];
      return q;
    }
    var texts, ids := Gather(q[..n]);
    out := [head.(text := Join(texts, SEPARATOR), tgMsgIDs := ids, merged := n)] + q[n..];
  }

  /** The building loop. */
  method Gather(g: seq<QueuedMsg>) returns (texts: seq<string>, ids: seq<int>)
    ensures texts == Texts(g) && ids == MsgIDs(g)
  {
    texts, ids := [], [];
    for i := 0 to |g|
      invariant texts == Texts(g[..i]) && ids == MsgIDs(g[..i])
    {
      assert g[..i + 1] == g[..i] + [g[i]];
      TextsConcat(g[..i], [g[i]]);
      MsgIDsConcat(g[..i], [g[i]]);
      texts := texts + [g[i].text];
      ids := ids + g[i].tgMsgIDs;
    }
    assert g[..|g|] == g;
  }

  // ------------------------------------------------------------------ facts

  lemma TextsConcat(a: seq<QueuedMsg>, b: seq<QueuedMsg>)
    ensures Texts(a + b) == Texts(a) + Texts(b)
  {}

  lemma {:induction false} MsgIDsConcat(a: seq<QueuedMsg>, b: seq<QueuedMsg>)
    ensures MsgIDs(a + b) == MsgIDs(a) + MsgIDs(b)
  {
    if a == [] {
      assert a + b == b;
    } else {
      assert (a + b)[1..] == a[1..] + b;
      MsgIDsConcat(a[1..], b);
    }
  }

  lemma {:induction false} TotalCarriedConcat(a: seq<QueuedMsg>, b: seq<QueuedMsg>)
    ensures TotalCarried(a + b) == TotalCarried(a) + TotalCarried(b)
  {
    if a == [] {
      assert a + b == b;
    } else {
      assert (a + b)[1..] == a[1..] + b;
      TotalCarriedConcat(a[1..], b);
    }
  }

  /** Merging loses, repeats and reorders nothing: the paragraphs, a blank line apart, that
      the queue stands for and the Telegram messages it answers stay the same sequences. */
  lemma MergeKeepsContent(q: seq<QueuedMsg>)
    ensures Join(Texts(MergeHead(q)), "\n\n") == Join(Texts(q), "\n\n")
    ensures MsgIDs(MergeHead(q)) == MsgIDs(q)
  {
    if q != [] {
      var n := HeadRun(q);
      var g, rest := q[..n], q[n..];
      assert q == g + rest;
      TextsConcat(g, rest);
      TextsConcat([Fold(g)], rest);
      if |g| == 1 { assert Texts(g) == [g[0].text]; }
      assert Texts([Fold(g)]) == [Join(Texts(g), SEPARATOR)];
      JoinBlock(Texts(g), Texts(rest), SEPARATOR);
      MsgIDsConcat(g, rest);
      MsgIDsConcat([Fold(g)], rest);
      if |g| == 1 { assert MsgIDs(g) == g[0].tgMsgIDs + MsgIDs(g[1..]); }
      assert MsgIDs([Fold(g)]) == Fold(g).tgMsgIDs + MsgIDs([]);
    }
  }

  lemma MergeableByInk(m: QueuedMsg)
    ensures m.Mergeable() <==> !m.isTask && !m.noMerge && FirstInk(m.text) != Some('!')
  {
    TrimSpaceHead(m.text);
  }

  /** Ordinary messages never join into something that reads as a command,
      even when the first of them is blank. */
  lemma {:induction false} JoinStaysOrdinary(g: seq<QueuedMsg>)
    requires g != [] && forall i :: 0 <= i < |g| ==> g[i].Mergeable()
    ensures FirstInk(Join(Texts(g), SEPARATOR)) != Some('!')
  {
    MergeableByInk(g[0]);
    if |g| > 1 {
      var t := Texts(g);
      assert t[1..] == Texts(g[1..]);
      JoinStaysOrdinary(g[1..]);
      var rest := Join(t[1..], SEPARATOR);
      FirstInkConcat(t[0] + SEPARATOR, rest);
      FirstInkConcat(t[0], SEPARATOR);
      assert FirstInk(SEPARATOR) == None by { assert SEPARATOR[1..] == "\n" && SEPARATOR[1..][1..] == ""; }
      assert Join(t, SEPARATOR) == (t[0] + SEPARATOR) + rest;
    }
  }

  /** A folded entry joins exactly what its head could join. */
  lemma FoldCompatible(g: seq<QueuedMsg>, x: QueuedMsg)
    requires g != [] && forall i :: 1 <= i < |g| ==> MergeCompatible(g[0], g[i])
    ensures MergeCompatible(Fold(g), x) <==> MergeCompatible(g[0], x)
  {
    if |g| > 1 {
      assert MergeCompatible(g[0], g[1]);
      JoinStaysOrdinary(g);
      MergeableByInk(Fold(g));
    }
  }

  /** Merging twice is merging once: the run taken was maximal. */
  lemma MergeIdempotent(q: seq<QueuedMsg>)
    ensures MergeHead(MergeHead(q)) == MergeHead(q)
  {
    if q != [] {
      var n := HeadRun(q);
      var r := MergeHead(q);
      if n < |q| { FoldCompatible(q[..n], q[n]); }
      assert IsHeadRun(r, 1);
      HeadRunUnique(r, 1, HeadRun(r));
      assert r[..1] == [r[0]] && r == [r[0]] + r[1..];
    }
  }

  lemma {:induction false} TotalCarriedBound(q: seq<QueuedMsg>)
    ensures TotalCarried(q) >= |q|
    ensures TotalCarried(q) == |q| <==> forall i :: 0 <= i < |q| ==> q[i].merged <= 1
  {
    if q != [] {
      TotalCarriedBound(q[1..]);
      assert forall i :: 1 <= i < |q| ==> q[i] == q[1..][i - 1];
      assert forall i :: 0 <= i < |q| - 1 ==> q[1..][i] == q[i + 1];
    }
  }

  /** The "merged" count stays the number of messages carried exactly when the
      run holds no entry that was merged before, or nothing is joined at all. */
  lemma MergedCountExact(q: seq<QueuedMsg>)
    requires q != []
    ensures TotalCarried(MergeHead(q)) == TotalCarried(q)
            <==> HeadRun(q) == 1 || forall i :: 0 <= i < HeadRun(q) ==> q[i].merged <= 1
  {
    var n := HeadRun(q);
    var g, rest := q[..n], q[n..];
    assert q == g + rest;
    TotalCarriedConcat(g, rest);
    TotalCarriedConcat([Fold(g)], rest);
    assert TotalCarried([Fold(g)]) == Carried(Fold(g)) + TotalCarried([]);
    TotalCarriedBound(g);
    assert forall i :: 0 <= i < n ==> g[i] == q[i];
    if n == 1 { assert TotalCarried(g) == Carried(g[0]) + TotalCarried(g[1..]); }
  }
}

/** host/manager.go: the stored turns of a conversation, and which of them a
    worker prompt carries. */
module History {

  datatype ConvTurn = ConvTurn(timestamp: int, prompt: string, response: string, images: seq<string>)

  const MAX_HISTORY_TURNS := 200
  const MAX_HISTORY_IN_PROMPT_RESUME := 0
  const MAX_HISTORY_ON_RECOVERY := 40
  const MAX_HISTORY_CHARS_ON_RECOVERY := 24000

  /** Go's len of a string: its UTF-8 bytes. */
  function ByteLen(s: string): nat {
    if s == "" then 0
    else
      var n := s[0] as int;
      (if n < 0x80 then 1 else if n < 0x800 then 2 else if n < 0x10000 then 3 else 4) + ByteLen(s[1..])
  }

  function TurnChars(t: ConvTurn): nat {
    ByteLen(t.prompt) + ByteLen(t.response)
  }

  function Chars(h: seq<ConvTurn>): nat {
    if h == [] then 0 else TurnChars(h[0]) + Chars(h[1..])
  }

  /** The suffix from i on may be inlined: few enough turns, and little enough
      text unless it is the newest turn alone. */
  predicate Fits(h: seq<ConvTurn>, maxTurns: int, maxChars: int, i: nat)
    requires i <= |h|
  {
    |h| - i <= maxTurns && (maxChars <= 0 || |h| - i <= 1 || Chars(h[i..]) <= maxChars)
  }

  lemma {:induction false} FitsUp(h: seq<ConvTurn>, maxTurns: int, maxChars: int, i: nat, j: nat)
    requires i <= j <= |h| && Fits(h, maxTurns, maxChars, i)
    ensures Fits(h, maxTurns, maxChars, j)
    decreases j - i
  {
    if i < j {
      assert h[i..][1..] == h[i + 1..];
      FitsUp(h, maxTurns, maxChars, i + 1, j);
    }
  }

  /** Which suffix tailTurns takes, as a function. */
  function Tail(h: seq<ConvTurn>, maxTurns: int, maxChars: int): seq<ConvTurn> {
    if maxTurns <= 0 then [] else h[TailStart(h, maxTurns, maxChars, 0)..]
  }

  function TailStart(h: seq<ConvTurn>, maxTurns: int, maxChars: int, i: nat): (s: nat)
    requires i <= |h| && maxTurns > 0
    ensures i <= s <= |h| && Fits(h, maxTurns, maxChars, s)
    ensures forall j | i <= j < s :: !Fits(h, maxTurns, maxChars, j)
    decreases |h| - i
  {
    if Fits(h, maxTurns, maxChars, i) then i else TailStart(h, maxTurns, maxChars, i + 1)
  }

  lemma TailUnique(h: seq<ConvTurn>, maxTurns: int, maxChars: int, n: nat)
    requires maxTurns > 0 && n <= |h| && Fits(h, maxTurns, maxChars, |h| - n)
    requires forall i | 0 <= i < |h| - n :: !Fits(h, maxTurns, maxChars, i)
    ensures Tail(h, maxTurns, maxChars) == h[|h| - n..]
  {
    assert TailStart(h, maxTurns, maxChars, 0) == |h| - n;
  }

  /** What it takes is a suffix of the history within the limits, no longer one
      is, and the newest turn is always in it. */
  lemma TailIsLongest(h: seq<ConvTurn>, maxTurns: int, maxChars: int)
    requires maxTurns > 0
    ensures var n := |Tail(h, maxTurns, maxChars)|;
      && n <= |h| && Tail(h, maxTurns, maxChars) == h[|h| - n..]
      && Fits(h, maxTurns, maxChars, |h| - n)
      && (forall i | 0 <= i < |h| - n :: !Fits(h, maxTurns, maxChars, i))
      && (h != [] ==> n >= 1)
  {
    if h != [] {
      assert Fits(h, maxTurns, maxChars, |h| - 1);
      assert TailStart(h, maxTurns, maxChars, 0) <= |h| - 1;
    }
  }

  /** It is all of the history iff all of it fits. */
  lemma TailIsAllIff(h: seq<ConvTurn>, maxTurns: int, maxChars: int)
    requires maxTurns > 0
    ensures Tail(h, maxTurns, maxChars) == h <==> Fits(h, maxTurns, maxChars, 0)
  {
    TailIsLongest(h, maxTurns, maxChars);
    var n := |Tail(h, maxTurns, maxChars)|;
    if n == |h| {
      assert h[0..] == h;
    } else {
      assert !Fits(h, maxTurns, maxChars, 0);
    }
  }

  lemma Shorter(h: seq<ConvTurn>, maxTurns: int, maxChars: int, start: nat)
    requires start <= |h| && (start > 0 ==> !Fits(h, maxTurns, maxChars, start - 1))
    ensures forall i | 0 <= i < start :: !Fits(h, maxTurns, maxChars, i)
  {
    forall i | 0 <= i < start ensures !Fits(h, maxTurns, maxChars, i) {
      if Fits(h, maxTurns, maxChars, i) { FitsUp(h, maxTurns, maxChars, i, start - 1); }
    }
  }

  method TailTurns(h: seq<ConvTurn>, maxTurns: int, maxChars: int) returns (tail: seq<ConvTurn>)
    ensures tail == Tail(h, maxTurns, maxChars)
  {
    var n := |h|;
    if maxTurns <= 0 || n == 0 {
      return [];
    }
    var chars := 0;
    var start := n;
    while start > 0 && n - start < maxTurns
      invariant 0 <= start <= n
      invariant maxChars > 0 ==> chars == Chars(h[start..])
      invariant Fits(h, maxTurns, maxChars, start)
    {
      var t := h[start - 1];
      assert h[start - 1..][1..] == h[start..];
      if maxChars > 0 {
        chars := chars + TurnChars(t);
        if chars > maxChars && start < n {
          Shorter(h, maxTurns, maxChars, start);
          TailUnique(h, maxTurns, maxChars, n - start);
          return h[start..];
        }
      }
      start := start - 1;
    }
    Shorter(h, maxTurns, maxChars, start);
    TailUnique(h, maxTurns, maxChars, n - start);
    tail := h[start..];
  }

  method HistoryForContext(h: seq<ConvTurn>, resume: bool) returns (tail: seq<ConvTurn>)
    ensures resume ==> tail == []
    ensures !resume ==> tail == Tail(h, MAX_HISTORY_ON_RECOVERY, MAX_HISTORY_CHARS_ON_RECOVERY)
  {
    if resume {
      tail := TailTurns(h, MAX_HISTORY_IN_PROMPT_RESUME, 0);
    } else {
      tail := TailTurns(h, MAX_HISTORY_ON_RECOVERY, MAX_HISTORY_CHARS_ON_RECOVERY);
    }
  }

  /** recordCompletedTurn: fill the pending slot, or append if it is not there any more. */
  function RecordCompletedTurn(h: seq<ConvTurn>, pendingIdx: int, done: ConvTurn): seq<ConvTurn> {
    if 0 <= pendingIdx < |h| && h[pendingIdx].response == "" && h[pendingIdx].prompt == done.prompt
    then h[pendingIdx := done] else h + [done]
  }

  function Capped(h: seq<ConvTurn>): seq<ConvTurn> {
    if |h| > MAX_HISTORY_TURNS then h[|h| - MAX_HISTORY_TURNS..] else h
  }
}

/** The few string helpers of Go's standard library that the modelled code calls. */
module GoText {

  datatype Option<+T> = None | Some(value: T)

  /** unicode.IsSpace, code point by code point. */
  predicate IsSpace(c: char) {
    var n := c as int;
    || 0x09 <= n <= 0x0D || n == 0x20 || n == 0x85 || n == 0xA0 || n == 0x1680
    || 0x2000 <= n <= 0x200A || n == 0x2028 || n == 0x2029 || n == 0x202F || n == 0x205F || n == 0x3000
  }

  function TrimLeft(s: string): string {
    if s != "" && IsSpace(s[0]) then TrimLeft(s[1..]) else s
  }

  function TrimRight(s: string): string {
    if s != "" && IsSpace(s[|s| - 1]) then TrimRight(s[..|s| - 1]) else s
  }

  /** strings.TrimSpace. */
  function TrimSpace(s: string): string {
    TrimRight(TrimLeft(s))
  }

  /** strings.HasPrefix. */
  predicate HasPrefix(s: string, prefix: string) {
    prefix <= s
  }

  /** strings.Join. */
  function Join(parts: seq<string>, sep: string): string {
    if parts == [] then ""
    else if |parts| == 1 then parts[0]
    else parts[0] + sep + Join(parts[1..], sep)
  }

  /** Joining is associative: a non-empty block may be joined first. */
  lemma {:induction false} JoinBlock(a: seq<string>, b: seq<string>, sep: string)
    requires a != []
    ensures Join([Join(a, sep)] + b, sep) == Join(a + b, sep)
  {
    if |a| == 1 {
      assert [Join(a, sep)] + b == a + b;
    } else if b == [] {
      assert a + b == a;
      assert [Join(a, sep)] + b == [Join(a, sep)];
    } else {
      JoinBlock(a[1..], b, sep);
      assert (a + b)[1..] == a[1..] + b;
      assert ([Join(a, sep)] + b)[1..] == b;
      assert ([Join(a[1..], sep)] + b)[1..] == b;
      calc {
        Join([Join(a, sep)] + b, sep);
        Join(a, sep) + sep + Join(b, sep);
        a[0] + sep + Join(a[1..], sep) + sep + Join(b, sep);
        { assert Join([Join(a[1..], sep)] + b, sep) == Join(a[1..], sep) + sep + Join(b, sep); }
        a[0] + sep + Join(a[1..] + b, sep);
        Join(a + b, sep);
      }
    }
  }

  /** The first character TrimSpace would keep. */
  function FirstInk(s: string): Option<char> {
    if s == "" then None else if IsSpace(s[0]) then FirstInk(s[1..]) else Some(s[0])
  }

  lemma {:induction false} FirstInkConcat(a: string, b: string)
    ensures FirstInk(a + b) == if FirstInk(a).Some? then FirstInk(a) else FirstInk(b)
  {
    if a == "" {
      assert a + b == b;
    } else {
      assert (a + b)[1..] == a[1..] + b;
      if IsSpace(a[0]) { FirstInkConcat(a[1..], b); }
    }
  }

  lemma {:induction false} TrimRightKeepsInk(s: string)
    requires s != "" && !IsSpace(s[0])
    ensures TrimRight(s) != "" && TrimRight(s)[0] == s[0]
  {
    if IsSpace(s[|s| - 1]) { TrimRightKeepsInk(s[..|s| - 1]); }
  }

  lemma {:induction false} TrimSpaceHead(s: string)
    ensures FirstInk(s).None? <==> TrimSpace(s) == ""
    ensures TrimSpace(s) != "" ==> FirstInk(s) == Some(TrimSpace(s)[0])
  {
    if s != "" {
      if IsSpace(s[0]) { TrimSpaceHead(s[1..]); } else { TrimRightKeepsInk(s); }
    }
  }

  /** Nothing for TrimSpace to take off, and not empty. */
  predicate Clean(s: string) {
    s != "" && !IsSpace(s[0]) && !IsSpace(s[|s| - 1])
  }

  lemma {:induction false} TrimRightClean(s: string)
    requires s != "" && !IsSpace(s[0])
    ensures Clean(TrimRight(s))
  {
    if IsSpace(s[|s| - 1]) { TrimRightClean(s[..|s| - 1]); }
  }

  lemma {:induction false} TrimSpaceClean(s: string)
    ensures TrimSpace(s) == "" || Clean(TrimSpace(s))
    ensures Clean(s) ==> TrimSpace(s) == s
  {
    if s != "" {
      if IsSpace(s[0]) { TrimSpaceClean(s[1..]); } else { TrimRightClean(s); }
    }
  }

  lemma {:induction false} JoinClean(parts: seq<string>, sep: string)
    requires parts != [] && forall i | 0 <= i < |parts| :: Clean(parts[i])
    ensures Clean(Join(parts, sep))
  {
    if |parts| > 1 {
      JoinClean(parts[1..], sep);
      var j := parts[0] + sep + Join(parts[1..], sep);
      assert j[0] == parts[0][0] && j[|j| - 1] == Join(parts[1..], sep)[|Join(parts[1..], sep)| - 1];
    }
  }

  lemma JoinTwo(a: seq<string>, b: seq<string>, sep: string)
    requires a != [] && b != []
    ensures Join(a + b, sep) == Join(a, sep) + sep + Join(b, sep)
  {
    JoinBlock(a, b, sep);
    assert ([Join(a, sep)] + b)[1..] == b;
  }

  predicate AllSpace(s: string) { forall i | 0 <= i < |s| :: IsSpace(s[i]) }

  lemma {:induction false} TrimRightTakes(s: string) returns (b: string)
    ensures s == TrimRight(s) + b && AllSpace(b)
  {
    if s != "" && IsSpace(s[|s| - 1]) {
      var f := s[..|s| - 1];
      var c := TrimRightTakes(f);
      b := c + [s[|s| - 1]];
      assert s == f + [s[|s| - 1]];
    } else {
      b := "";
    }
  }

  /** Only space is taken off, and only from the ends. */
  lemma {:induction false} TrimSpaceTakes(s: string) returns (a: string, b: string)
    ensures s == a + TrimSpace(s) + b && AllSpace(a) && AllSpace(b)
  {
    if s != "" && IsSpace(s[0]) {
      var c;
      c, b := TrimSpaceTakes(s[1..]);
      a := [s[0]] + c;
      assert s == [s[0]] + s[1..];
    } else {
      a := "";
      b := TrimRightTakes(s);
    }
  }
}

/** desktop/play_windows.go: one clip at a time, cut off at once by barge-in. Calls
    to play and to stop come in concurrently; an event is one stretch under playMu. */
module Playback {
  import opened GoText
  import WavTape

  /** A call of playWavNative past the gate: its reading, whether it is still in its
      select, how often its stop channel was closed. */
  datatype Call = Call(gen: int, waiting: bool, closed: nat)

  /** current: whose channel playStop is; playing: whose clip is kept alive;
      sounding: whose clip winmm is reading; starts: the readings handed to it. */
  datatype State = State(
    calls: seq<Call>, current: Option<nat>, playing: Option<nat>, stopGen: int,
    sounding: Option<nat>, starts: seq<int>)

  /** works: PlaySound takes the clip. Ends: the clip has run out. Over: a select is
      left, because its channel was closed or its time (longer than the clip) is up. */
  datatype Event =
    | Play(measurable: bool, gen: int, works: bool)
    | Ends
    | Over(call: nat)
    | Stop(gen: int)

  function Close(calls: seq<Call>, c: Option<nat>): (z: seq<Call>)
    ensures |z| == |calls|
  {
    if c.Some? && c.value < |calls|
    then calls[c.value := calls[c.value].(closed := calls[c.value].closed + 1)]
    else calls
  }

  function StopLocked(s: State): State {
    State(Close(s.calls, s.current), None, None, s.stopGen, None, s.starts)
  }

  function Max(a: int, b: int): int { if a > b then a else b }

  predicate MayLeave(s: State, c: nat) {
    c < |s.calls| && s.calls[c].waiting && (s.calls[c].closed > 0 || s.sounding != Some(c))
  }

  function Step(s: State, e: Event): State {
    match e
    case Play(measurable, gen, works) =>
      if !measurable || gen <= s.stopGen then s
      else
        var u, n := StopLocked(s), |s.calls|;
        State(u.calls + [Call(gen, works, 0)], Some(n), Some(n), s.stopGen,
              if works then Some(n) else None, s.starts + [gen])
    case Ends => s.(sounding := None)
    case Over(c) =>
      if !MayLeave(s, c) then s
      else
        var calls := s.calls[c := s.calls[c].(waiting := false)];
        if s.current == Some(c) then s.(calls := calls, current := None, playing := None) else s.(calls := calls)
    case Stop(gen) => StopLocked(s.(stopGen := Max(s.stopGen, gen)))
  }

  function After(evs: seq<Event>): State {
    if evs == [] then State([], None, None, 0, None, []) else Step(After(evs[..|evs| - 1]), evs[|evs| - 1])
  }

  // ---------------------------------------------------------------- the invariant

  predicate CallOK(s: State, c: nat)
    requires c < |s.calls|
  {
    && s.calls[c].closed <= (if s.current == Some(c) then 0 else 1)
    && (s.calls[c].waiting ==> s.current == Some(c) || s.calls[c].closed == 1)
  }

  predicate Inv(s: State) {
    && s.current == s.playing
    && (s.current.Some? ==> s.current.value < |s.calls| && s.calls[s.current.value].gen > s.stopGen)
    && (s.sounding.Some? ==> s.sounding == s.playing && s.calls[s.sounding.value].waiting)
    && (forall c | 0 <= c < |s.calls| :: CallOK(s, c))
  }

  lemma StopLockedInv(s: State)
    requires s.current.Some? ==> s.current.value < |s.calls|
    requires forall c | 0 <= c < |s.calls| :: CallOK(s, c)
    ensures Inv(StopLocked(s)) && |StopLocked(s).calls| == |s.calls|
  {
    var z := StopLocked(s);
    forall c | 0 <= c < |z.calls| ensures CallOK(z, c) {
      assert CallOK(s, c);
    }
  }

  lemma StepInv(s: State, e: Event)
    requires Inv(s)
    ensures Inv(Step(s, e))
  {
    match e
    case Play(measurable, gen, works) =>
      if measurable && gen > s.stopGen {
        StopLockedInv(s);
        var u, z := StopLocked(s), Step(s, e);
        forall c | 0 <= c < |z.calls| ensures CallOK(z, c) {
          if c < |u.calls| { assert CallOK(u, c) && z.calls[c] == u.calls[c]; }
        }
      }
    case Ends => assert forall c | 0 <= c < |s.calls| :: CallOK(s, c) ==> CallOK(Step(s, e), c);
    case Over(c) =>
      if MayLeave(s, c) {
        var z := Step(s, e);
        assert CallOK(s, c);
        forall x | 0 <= x < |z.calls| ensures CallOK(z, x) { assert CallOK(s, x); }
      }
    case Stop(gen) =>
      var u := s.(stopGen := Max(s.stopGen, gen));
      forall c | 0 <= c < |u.calls| ensures CallOK(u, c) { assert CallOK(s, c); }
      StopLockedInv(u);
  }

  /** In every reachable state: the current clip's reading is later than every one
      stopped; what winmm reads is the clip kept alive for it; each stop channel
      was closed at most once, the current one never; and a call that still waits
      is the current one or has had its channel closed. */
  lemma {:induction false} PlaybackInvariant(evs: seq<Event>)
    ensures Inv(After(evs))
  {
    if evs != [] {
      PlaybackInvariant(evs[..|evs| - 1]);
      StepInv(After(evs[..|evs| - 1]), evs[|evs| - 1]);
    }
  }

  lemma {:induction false} StopGenIsMax(evs: seq<Event>, i: nat)
    requires i < |evs| && evs[i].Stop?
    ensures After(evs).stopGen >= evs[i].gen
  {
    if i < |evs| - 1 { StopGenIsMax(evs[..|evs| - 1], i); }
  }

  /** Barge-in holds: after stopWavNative(g) nothing sounds, and whatever comes
      later no clip of a reading up to g is started - not even one whose play call
      was made before the stop and arrives after it. */
  lemma {:induction false} StoppedStaysSilent(evs: seq<Event>, g: int, more: seq<Event>)
    ensures var s, z := After(evs + [Stop(g)]), After(evs + [Stop(g)] + more);
      s.sounding.None? && s.starts <= z.starts
      && (forall k | |s.starts| <= k < |z.starts| :: z.starts[k] > g)
      && (z.sounding.Some? ==> z.sounding.value < |z.calls| && z.calls[z.sounding.value].gen > g)
    decreases |more|
  {
    var base := evs + [Stop(g)];
    assert base[..|base| - 1] == evs;
    if more == [] {
      assert base + more == base;
    } else {
      var m := more[..|more| - 1];
      StoppedStaysSilent(evs, g, m);
      assert (base + more)[..|base + more| - 1] == base + m;
      assert (base + m)[|evs|] == Stop(g) && (base + more)[|evs|] == Stop(g);
      StopGenIsMax(base + m, |evs|);
      StopGenIsMax(base + more, |evs|);
      PlaybackInvariant(base + more);
    }
  }

  lemma {:induction false} StopGenExact(evs: seq<Event>)
    ensures var g := After(evs).stopGen;
      && g >= 0 && (forall i | 0 <= i < |evs| && evs[i].Stop? :: evs[i].gen <= g)
      && (g > 0 ==> exists i | 0 <= i < |evs| :: evs[i] == Stop(g))
  {
    if evs != [] {
      var n := |evs| - 1;
      StopGenExact(evs[..n]);
      var g := After(evs[..n]).stopGen;
      forall i | 0 <= i < |evs| && evs[i].Stop? ensures evs[i].gen <= After(evs).stopGen { StopGenIsMax(evs, i); }
      if After(evs).stopGen == g && g > 0 {
        var i :| 0 <= i < n && evs[..n][i] == Stop(g);
        assert evs[i] == Stop(g);
      } else if After(evs).stopGen > 0 {
        assert evs[n] == Stop(After(evs).stopGen);
      }
    }
  }

  /** gen is a reading (they count from 1) later than every one stopped. */
  predicate Wanted(evs: seq<Event>, gen: int) {
    gen > 0 && forall i | 0 <= i < |evs| && evs[i].Stop? :: evs[i].gen < gen
  }

  /** A clip is played exactly if it can be measured and its reading is later than every
      one stopped; it then takes over from the one before, which stops sounding at once. */
  lemma PlaysIff(evs: seq<Event>, measurable: bool, gen: int, works: bool)
    ensures var s, z, n := After(evs), After(evs + [Play(measurable, gen, works)]), |After(evs).calls|;
      if measurable && Wanted(evs, gen) then
        && z.starts == s.starts + [gen] && |z.calls| == n + 1 && z.calls[n] == Call(gen, works, 0)
        && z.playing == Some(n) && z.sounding == (if works then Some(n) else None)
      else z == s
  {
    assert (evs + [Play(measurable, gen, works)])[..|evs|] == evs;
    StopGenExact(evs);
    var g := After(evs).stopGen;
    if g > 0 {
      var i :| 0 <= i < |evs| && evs[i] == Stop(g);
      assert evs[i].gen == g;
    }
  }

  // ------------------------------------------------------------------ the program

  class Player {
    ghost var calls: seq<Call>
    ghost var sounding: Option<nat>
    ghost var starts: seq<int>
    var stops: nat // channels made so far
    var playing: Option<nat>
    var playStop: Option<nat>
    var stopGen: int

    ghost function View(): State
      reads this
    {
      State(calls, playStop, playing, stopGen, sounding, starts)
    }

    ghost predicate Valid()
      reads this
    {
      Inv(View()) && stops == |calls|
    }

    constructor ()
      ensures Valid() && View() == After([])
    {
      stops, playing, playStop, stopGen := 0, None, None, 0;
      calls, sounding, starts := [], None, [];
    }

    /** playWavNative up to its select; works: what PlaySound returned. */
    method PlayWavNative(wav: seq<WavTape.Byte>, gen: int, works: bool) returns (waits: Option<nat>)
      requires Valid()
      modifies this
      ensures Valid() && View() == Step(old(View()), Play(WavTape.Measure(wav).Some?, gen, works))
      ensures waits.Some? <==> WavTape.Measure(wav).Some? && gen > old(stopGen) && works
      ensures waits.Some? ==> waits.value < |calls| && calls[waits.value].waiting && sounding == waits
    {
      StepInv(View(), Play(WavTape.Measure(wav).Some?, gen, works));
      var d := WavTape.WavDuration(wav);
      if d.None? || gen <= stopGen {
        return None;
      }
      assert playStop.Some? ==> CallOK(View(), playStop.value);
      SilenceCurrent();
      var stop := stops;
      stops := stops + 1;
      playing, playStop := Some(stop), Some(stop);
      calls := calls + [Call(gen, works, 0)];
      starts := starts + [gen];
      if !works {
        return None;
      }
      sounding := Some(stop);
      waits := Some(stop);
    }

    /** playWavNative past its select. */
    method LeaveSelect(stop: nat)
      requires Valid() && MayLeave(View(), stop)
      modifies this
      ensures Valid() && View() == Step(old(View()), Over(stop))
    {
      StepInv(View(), Over(stop));
      calls := calls[stop := calls[stop].(waiting := false)];
      if playStop == Some(stop) {
        playStop := None;
        playing := None;
      }
    }

    method StopWavNative(gen: int)
      requires Valid()
      modifies this
      ensures Valid() && View() == Step(old(View()), Stop(gen))
      ensures stopGen >= gen && sounding.None?
    {
      StepInv(View(), Stop(gen));
      assert playStop.Some? ==> CallOK(View(), playStop.value);
      stopGen := Max(stopGen, gen);
      SilenceCurrent();
    }

    /** Closing a closed channel would panic: the channel is open. */
    method SilenceCurrent()
      requires playStop.Some? ==> playStop.value < |calls| && calls[playStop.value].closed == 0
      modifies this`calls, this`sounding, this`playStop, this`playing
      ensures View() == StopLocked(old(View()))
    {
      sounding := None;
      if playStop.Some? {
        calls := Close(calls, playStop);
        playStop := None;
      }
      playing := None;
    }
  }
}

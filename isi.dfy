/** The inter-spike-interval generator `ISI` of the synapse-fitting script (ExpSyn.py).

    From a fresh object or after `reset()`, successive `get()` calls return the
    gaps 20.0, 5.0, 5.0, 5.0, 5.0 and then `None` forever.  The gaps are the
    source's own literals, so they are modelled as exact `real` constants. */
module ExpSyn {
  import opened Common

  /** The gap returned by the first draw (ExpSyn.py:36). */
  const OnsetGap: real := 20.0
  /** The gap returned by every later non-final draw (ExpSyn.py:37). */
  const RegularGap: real := 5.0
  /** Draws beyond this count return `None` (ExpSyn.py:32). */
  const MaxDraws: int := 5

  /** The two fields of an `ISI` object. */
  datatype IsiState = IsiState(n: int, first: bool)

  /** The state `__init__` and `reset` establish. */
  function Fresh(): IsiState {
    IsiState(0, true)
  }

  /** What one `get()` returns from state `s`. */
  function Emit(s: IsiState): (r: Option<real>)
    ensures r.None? <==> s.n >= MaxDraws
    ensures r.Some? ==> (r.value == OnsetGap <==> s.first)
  {
    if s.n + 1 > MaxDraws then None
    else if s.first then Some(OnsetGap)
    else Some(RegularGap)
  }

  /** The state one `get()` leaves behind: `n` always grows, `first` is cleared
      only on a draw that returns a gap. */
  function Next(s: IsiState): (r: IsiState)
    ensures r.n == s.n + 1
    ensures r.first ==> s.first
    ensures Emit(s).Some? ==> !r.first
    ensures Emit(s).None? ==> r.first == s.first
  {
    if s.n + 1 > MaxDraws then IsiState(s.n + 1, s.first)
    else IsiState(s.n + 1, false)
  }

  /** The state after `k` successive draws. */
  function After(s: IsiState, k: nat): IsiState
    decreases k
  {
    if k == 0 then s else After(Next(s), k - 1)
  }

  /** The values returned by `k` successive draws. */
  function Trace(s: IsiState, k: nat): seq<Option<real>>
    decreases k
  {
    if k == 0 then [] else [Emit(s)] + Trace(Next(s), k - 1)
  }

  /** Independent statement of the schedule: what the draw with 0-based index `c`
      after construction or reset returns. */
  function Expected(c: int): Option<real> {
    if c == 0 then Some(OnsetGap)
    else if 0 < c < MaxDraws then Some(RegularGap)
    else None
  }

  /** The gaps a fresh generator hands out, in order. */
  function Schedule(): seq<real> {
    [OnsetGap, RegularGap, RegularGap, RegularGap, RegularGap]
  }

  /** The state reached from a fresh one after `m` draws. */
  function Reachable(m: nat): IsiState {
    IsiState(m, m == 0)
  }

  /** The non-`None` values of a trace, in order. */
  function Gaps(t: seq<Option<real>>): seq<real>
    decreases |t|
  {
    if t == [] then []
    else (if t[0].Some? then [t[0].value] else []) + Gaps(t[1..])
  }

  function Min(a: int, b: int): int {
    if a <= b then a else b
  }

  /** Drawing from a state reached after `m` draws continues the schedule at index `m`. */
  lemma {:induction false} TraceFromReachable(m: nat, k: nat)
    ensures After(Reachable(m), k) == Reachable(m + k)
    ensures |Trace(Reachable(m), k)| == k
    ensures forall i :: 0 <= i < k ==> Trace(Reachable(m), k)[i] == Expected(m + i)
    decreases k
  {
    if k > 0 {
      assert Next(Reachable(m)) == Reachable(m + 1);
      assert Emit(Reachable(m)) == Expected(m);
      TraceFromReachable(m + 1, k - 1);
      forall i | 0 <= i < k
        ensures Trace(Reachable(m), k)[i] == Expected(m + i)
      {
        if i > 0 {
          assert Trace(Reachable(m), k)[i] == Trace(Reachable(m + 1), k - 1)[i - 1];
        }
      }
    }
  }

  /** From a fresh generator: the first draw gives 20.0 and clears `first`,
      draws 2 to 5 give 5.0, every later draw gives `None`, and after `k`
      draws the counter is `k`. */
  lemma {:induction false} FreshDraws(k: nat)
    ensures |Trace(Fresh(), k)| == k
    ensures forall i :: 0 <= i < k ==> Trace(Fresh(), k)[i] == Expected(i)
    ensures After(Fresh(), k) == IsiState(k, k == 0)
  {
    assert Fresh() == Reachable(0);
    TraceFromReachable(0, k);
  }

  /** Every draw increments `n`, whatever the state, including the draws that return `None`. */
  lemma {:induction false} CounterAdvances(s: IsiState, k: nat)
    ensures After(s, k).n == s.n + k
    decreases k
  {
    if k > 0 {
      CounterAdvances(Next(s), k - 1);
    }
  }

  /** The `i`-th value of a trace is what a draw returns from the state after `i` draws. */
  lemma {:induction false} TraceAt(s: IsiState, k: nat, i: nat)
    requires i < k
    ensures |Trace(s, k)| == k
    ensures Trace(s, k)[i] == Emit(After(s, i))
    decreases k
  {
    TraceLength(s, k);
    if i > 0 {
      TraceAt(Next(s), k - 1, i - 1);
    }
  }

  lemma {:induction false} TraceLength(s: IsiState, k: nat)
    ensures |Trace(s, k)| == k
    decreases k
  {
    if k > 0 {
      TraceLength(Next(s), k - 1);
    }
  }

  /** Once a draw has returned `None`, every later draw without a reset returns `None`,
      from any state: draw `i` returns `Emit(After(s, i))` (see `TraceAt`). */
  lemma ExhaustedStaysExhausted(s: IsiState, i: nat, j: nat)
    requires i <= j
    requires Emit(After(s, i)) == None
    ensures Emit(After(s, j)) == None
  {
    CounterAdvances(s, i);
    CounterAdvances(s, j);
  }

  /** The gaps handed out from the state after `m` draws are the rest of the schedule. */
  lemma {:induction false} GapsFromReachable(m: nat, k: nat)
    ensures Gaps(Trace(Reachable(m), k)) == Schedule()[Min(m, MaxDraws)..Min(m + k, MaxDraws)]
    decreases k
  {
    if k > 0 {
      var t := Trace(Reachable(m), k);
      assert t[0] == Emit(Reachable(m));
      assert t[1..] == Trace(Reachable(m + 1), k - 1);
      assert Next(Reachable(m)) == Reachable(m + 1);
      GapsFromReachable(m + 1, k - 1);
      if m < MaxDraws {
        assert Emit(Reachable(m)) == Some(Schedule()[m]);
        assert Schedule()[m..Min(m + k, MaxDraws)]
            == [Schedule()[m]] + Schedule()[m + 1..Min(m + k, MaxDraws)];
      }
    }
  }

  /** The non-`None` outputs of a fresh generator are exactly 20.0, 5.0, 5.0, 5.0, 5.0,
      however many times it is drawn. */
  lemma FreshGaps(k: nat)
    requires k >= MaxDraws
    ensures Gaps(Trace(Fresh(), k)) == [20.0, 5.0, 5.0, 5.0, 5.0]
  {
    assert Fresh() == Reachable(0);
    GapsFromReachable(0, k);
  }

  /** The `ISI` object of ExpSyn.py:25-41. */
  class Isi {
    var n: int
    var first: bool

    function State(): IsiState
      reads this
    {
      IsiState(n, first)
    }

    constructor ()
      ensures State() == Fresh()
    {
      n := 0;
      first := true;
    }

    /** Returns the next gap, or `None` once five gaps have been handed out. */
    method Get() returns (gap: Option<real>)
      modifies this
      ensures gap == Emit(old(State()))
      ensures State() == Next(old(State()))
    {
      n := n + 1;
      if n > MaxDraws {
        return None;
      }
      if first {
        first := false;
        return Some(OnsetGap);
      }
      return Some(RegularGap);
    }

    /** Restores the state of a freshly constructed generator, from any state;
        so the draws after a reset are those of a fresh object, and a second
        reset changes nothing. */
    method Reset()
      modifies this
      ensures State() == Fresh()
    {
      n := 0;
      first := true;
    }
  }
}

/** The repeated-action guard: a sliding window over the tool actions requested. */
module LoopGuard {

  /** The same tool with the same arguments in response to the same observation. */
  datatype Signature = Signature(tool: string, arguments: string, observation: string)

  function LastN<T>(xs: seq<T>, n: nat): seq<T> {
    if |xs| <= n then xs else xs[|xs| - n..]
  }

  function Count<T(==)>(xs: seq<T>, x: T): nat {
    if xs == [] then 0 else Count(xs[..|xs|-1], x) + if xs[|xs|-1] == x then 1 else 0
  }

  function Window(recent: seq<Signature>, sig: Signature, window: nat): seq<Signature> {
    LastN(recent + [sig], window)
  }

  predicate Trips(recent: seq<Signature>, sig: Signature, window: nat, repeats: nat) {
    Count(Window(recent, sig, window), sig) >= repeats
  }

  /** The signatures remembered afterwards: none once the guard has tripped. */
  function Remembered(recent: seq<Signature>, sig: Signature, window: nat, repeats: nat): seq<Signature> {
    if Trips(recent, sig, window, repeats) then [] else Window(recent, sig, window)
  }

  /** The memory after a stretch of actions that all passed, starting right after a trip or at the beginning. */
  function Memory(passed: seq<Signature>, window: nat, repeats: nat): seq<Signature> {
    if passed == [] then []
    else Remembered(Memory(passed[..|passed|-1], window, repeats), passed[|passed|-1], window, repeats)
  }

  /** Each action passed the guard when its turn came. */
  predicate AllPassed(passed: seq<Signature>, window: nat, repeats: nat) {
    passed == [] ||
    (var before, last := passed[..|passed|-1], passed[|passed|-1];
     AllPassed(before, window, repeats) && !Trips(Memory(before, window, repeats), last, window, repeats))
  }

  lemma {:induction false} AllPassedPrefix(passed: seq<Signature>, k: nat, window: nat, repeats: nat)
    requires AllPassed(passed, window, repeats) && k <= |passed|
    ensures AllPassed(passed[..k], window, repeats)
    ensures k < |passed| ==> !Trips(Memory(passed[..k], window, repeats), passed[k], window, repeats)
    decreases |passed|
  {
    if k < |passed| - 1 {
      var before := passed[..|passed|-1];
      assert before[..k] == passed[..k];
      AllPassedPrefix(before, k, window, repeats);
    } else if k == |passed| {
      assert passed[..k] == passed;
    }
  }

  lemma {:induction false} SlidingWindow<T>(xs: seq<T>, x: T, n: nat)
    ensures LastN(LastN(xs, n) + [x], n) == LastN(xs + [x], n)
  {}

  lemma LastNCuts<T>(xs: seq<T>, n: nat)
    ensures LastN(xs, n) == xs[if |xs| <= n then 0 else |xs| - n..]
  {}

  lemma {:induction false} CountSuffix<T>(xs: seq<T>, k: nat, x: T)
    requires k <= |xs|
    ensures Count(xs[k..], x) <= Count(xs, x)
    decreases |xs|
  {
    if k < |xs| {
      var n := |xs| - 1;
      assert xs[k..][..n - k] == xs[..n][k..];
      CountSuffix(xs[..n], k, x);
    }
  }

  lemma {:induction false} MemoryIsWindow(passed: seq<Signature>, window: nat, repeats: nat)
    requires AllPassed(passed, window, repeats)
    ensures Memory(passed, window, repeats) == LastN(passed, window)
    decreases |passed|
  {
    if passed != [] {
      var n := |passed| - 1;
      AllPassedPrefix(passed, n, window, repeats);
      MemoryIsWindow(passed[..n], window, repeats);
      SlidingWindow(passed[..n], passed[n], window);
      assert passed == passed[..n] + [passed[n]];
    }
  }

  /** The guard looks at the last `window` requests, the new one included. */
  lemma {:induction false} WindowAt(passed: seq<Signature>, k: nat, window: nat, repeats: nat)
    requires AllPassed(passed, window, repeats) && k < |passed|
    ensures Window(Memory(passed[..k], window, repeats), passed[k], window) == LastN(passed[..k+1], window)
  {
    hide AllPassed, Memory, LastN;
    AllPassedPrefix(passed, k, window, repeats);
    MemoryIsWindow(passed[..k], window, repeats);
    SlidingWindow(passed[..k], passed[k], window);
    assert passed[..k+1] == passed[..k] + [passed[k]];
  }

  /** Among any `window` consecutive actions that passed since the last trip, every signature occurs fewer than
      `repeats` times. */
  lemma {:induction false} NoRepeatsInAnyWindow(passed: seq<Signature>, window: nat, repeats: nat, lo: nat, hi: nat,
                                                sig: Signature)
    requires AllPassed(passed, window, repeats) && repeats > 0
    requires lo <= hi <= |passed| && hi - lo <= window
    ensures Count(passed[lo..hi], sig) < repeats
    decreases hi - lo
  {
    if lo < hi {
      var k := hi - 1;
      if passed[k] != sig {
        NoRepeatsInAnyWindow(passed, window, repeats, lo, k, sig);
        assert passed[lo..hi][..k - lo] == passed[lo..k];
      } else {
        AllPassedPrefix(passed, k, window, repeats);
        WindowAt(passed, k, window, repeats);
        SuffixOfWindow(passed, window, lo, hi, sig);
      }
    }
  }

  lemma {:induction false} SuffixOfWindow(passed: seq<Signature>, window: nat, lo: nat, hi: nat, sig: Signature)
    requires lo <= hi <= |passed| && hi - lo <= window
    ensures Count(passed[lo..hi], sig) <= Count(LastN(passed[..hi], window), sig)
  {
    var start := if hi <= window then 0 else hi - window;
    LastNCuts(passed[..hi], window);
    assert passed[..hi][start..][lo - start..] == passed[lo..hi];
    CountSuffix(passed[..hi][start..], lo - start, sig);
  }

  /** Exactness: one more occurrence trips the guard precisely when the last `window - 1` passed actions already hold
      `repeats - 1` of it. */
  lemma {:induction false} TripsIff(passed: seq<Signature>, window: nat, repeats: nat, sig: Signature)
    requires AllPassed(passed, window, repeats) && window > 0
    ensures Trips(Memory(passed, window, repeats), sig, window, repeats)
      <==> Count(LastN(passed, window - 1), sig) + 1 >= repeats
  {
    MemoryIsWindow(passed, window, repeats);
    var w := Window(LastN(passed, window), sig, window);
    assert w == LastN(passed, window - 1) + [sig];
    assert w[..|w|-1] == LastN(passed, window - 1);
  }
}

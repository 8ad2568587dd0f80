/**
 * Threshold filtering and callback dispatch for one audio chunk: the body of
 * the `for wakeword, score in predictions.items()` loop of the detector's
 * processing thread.
 *
 * The inference engine's predictions for a chunk are a sequence of
 * (wake word, score) pairs in the engine's iteration order. Whether each
 * user callback raises is an input (`raises`, one flag per pair); the
 * engine's `reset()` is an event of the trace.
 */
module Dispatch {

  type Word = string

  /** An opaque handle for a user-registered callback. */
  type ActionId = nat

  type Pair = (Word, real)

  /**
   * What one chunk's dispatch does, in order: a registered callback is invoked
   * with the wake word and its score (and either returns or raises, which is
   * caught and only logged), or the inference engine is reset.
   */
  datatype Event =
    | Invoke(action: ActionId, word: Word, score: real, raised: bool)
    | Reset

  /** A pair counts as a detection only when its score is strictly above the threshold. */
  predicate IsHit(p: Pair, threshold: real) {
    p.1 > threshold
  }

  /** The detections of a chunk: exactly the pairs that score above the threshold. */
  function Hits(ps: seq<Pair>, threshold: real): (h: seq<Pair>)
    ensures |h| <= |ps|
    ensures forall p :: p in h <==> p in ps && IsHit(p, threshold)
  {
    if |ps| == 0 then []
    else
      var init := Hits(ps[..|ps| - 1], threshold);
      var last := ps[|ps| - 1];
      assert ps == ps[..|ps| - 1] + [last];
      if IsHit(last, threshold) then init + [last] else init
  }

  /** The events one pair produces: nothing below or at the threshold, otherwise the
      registered callback (if any) followed by one reset. */
  function PairTrace(p: Pair, raised: bool, callbacks: map<Word, ActionId>, threshold: real): seq<Event>
  {
    if !IsHit(p, threshold) then []
    else if p.0 in callbacks then [Invoke(callbacks[p.0], p.0, p.1, raised), Reset]
    else [Reset]
  }

  /** The event trace of a whole chunk: the pairs handled one after another. */
  function DispatchTrace(ps: seq<Pair>, raises: seq<bool>, callbacks: map<Word, ActionId>, threshold: real): seq<Event>
    requires |raises| == |ps|
  {
    if |ps| == 0 then []
    else
      var n := |ps| - 1;
      DispatchTrace(ps[..n], raises[..n], callbacks, threshold) + PairTrace(ps[n], raises[n], callbacks, threshold)
  }

  /** The loop of the processing thread over one chunk's predictions. */
  method DispatchChunk(ps: seq<Pair>, raises: seq<bool>, callbacks: map<Word, ActionId>, threshold: real)
    returns (trace: seq<Event>)
    requires |raises| == |ps|
    ensures trace == DispatchTrace(ps, raises, callbacks, threshold)
  {
    trace := [];
    var i := 0;
    while i < |ps|
      invariant 0 <= i <= |ps|
      invariant trace == DispatchTrace(ps[..i], raises[..i], callbacks, threshold)
    {
      var (word, score) := ps[i];
      if score > threshold {
        if word in callbacks {
          trace := trace + [Invoke(callbacks[word], word, score, raises[i])];
        }
        trace := trace + [Reset];
      }
      assert ps[..i + 1][..i] == ps[..i];
      assert raises[..i + 1][..i] == raises[..i];
      i := i + 1;
    }
    assert ps[..i] == ps;
    assert raises[..i] == raises;
  }

  /** Number of engine resets in a trace. */
  function ResetCount(trace: seq<Event>): nat
  {
    if |trace| == 0 then 0
    else ResetCount(trace[..|trace| - 1]) + (if trace[|trace| - 1].Reset? then 1 else 0)
  }

  lemma {:induction false} ResetCountAppend(a: seq<Event>, b: seq<Event>)
    ensures ResetCount(a + b) == ResetCount(a) + ResetCount(b)
    decreases |b|
  {
    if |b| > 0 {
      var n := |b| - 1;
      assert (a + b)[..|a + b| - 1] == a + b[..n];
      ResetCountAppend(a, b[..n]);
    } else {
      assert a + b == a;
    }
  }

  /** Dispatching the first pairs and then the rest is dispatching all of them: the
      pairs after any callback, failing or not, are still handled. */
  lemma {:induction false} DispatchAppend(ps: seq<Pair>, rs: seq<bool>, qs: seq<Pair>, ss: seq<bool>,
                                          callbacks: map<Word, ActionId>, threshold: real)
    requires |rs| == |ps| && |ss| == |qs|
    ensures DispatchTrace(ps + qs, rs + ss, callbacks, threshold)
         == DispatchTrace(ps, rs, callbacks, threshold) + DispatchTrace(qs, ss, callbacks, threshold)
    decreases |qs|
  {
    if |qs| == 0 {
      assert ps + qs == ps;
      assert rs + ss == rs;
    } else {
      var n := |qs| - 1;
      var all, allr := ps + qs, rs + ss;
      var m := |all| - 1;
      assert all[..m] == ps + qs[..n] && all[m] == qs[n];
      assert allr[..m] == rs + ss[..n] && allr[m] == ss[n];
      var head := DispatchTrace(ps, rs, callbacks, threshold);
      var mid := DispatchTrace(qs[..n], ss[..n], callbacks, threshold);
      var last := PairTrace(qs[n], ss[n], callbacks, threshold);
      calc {
        DispatchTrace(all, allr, callbacks, threshold);
        DispatchTrace(ps + qs[..n], rs + ss[..n], callbacks, threshold) + last;
        { DispatchAppend(ps, rs, qs[..n], ss[..n], callbacks, threshold); }
        (head + mid) + last;
        head + (mid + last);
        head + DispatchTrace(qs, ss, callbacks, threshold);
      }
    }
  }

  /** The resets one pair contributes: one for a detection, none otherwise. */
  lemma PairResets(p: Pair, raised: bool, callbacks: map<Word, ActionId>, threshold: real)
    ensures ResetCount(PairTrace(p, raised, callbacks, threshold)) == if IsHit(p, threshold) then 1 else 0
  {
    var pt := PairTrace(p, raised, callbacks, threshold);
    if IsHit(p, threshold) {
      if p.0 in callbacks {
        assert pt[..1][..0] == [];
        assert ResetCount(pt[..1]) == 0;
      } else {
        assert pt[..0] == [];
      }
    }
  }

  /** One reset per detection, registered or not, whatever the callbacks did. */
  lemma {:induction false} ResetsEqualHits(ps: seq<Pair>, rs: seq<bool>, callbacks: map<Word, ActionId>, threshold: real)
    requires |rs| == |ps|
    ensures ResetCount(DispatchTrace(ps, rs, callbacks, threshold)) == |Hits(ps, threshold)|
  {
    if |ps| > 0 {
      var n := |ps| - 1;
      ResetsEqualHits(ps[..n], rs[..n], callbacks, threshold);
      var pt := PairTrace(ps[n], rs[n], callbacks, threshold);
      ResetCountAppend(DispatchTrace(ps[..n], rs[..n], callbacks, threshold), pt);
      PairResets(ps[n], rs[n], callbacks, threshold);
      assert ps == ps[..n] + [ps[n]];
    }
  }

  /** A callback is invoked with exactly (word, score) iff some pair of the chunk is
      that detection and the word is registered to that callback. */
  lemma {:induction false} InvokedIff(ps: seq<Pair>, rs: seq<bool>, callbacks: map<Word, ActionId>, threshold: real,
                                      a: ActionId, w: Word, s: real, r: bool)
    requires |rs| == |ps|
    ensures Invoke(a, w, s, r) in DispatchTrace(ps, rs, callbacks, threshold)
        <==> exists i :: 0 <= i < |ps| && ps[i] == (w, s) && rs[i] == r && s > threshold
                         && w in callbacks && callbacks[w] == a
  {
    if |ps| > 0 {
      var n := |ps| - 1;
      InvokedIff(ps[..n], rs[..n], callbacks, threshold, a, w, s, r);
      var e := Invoke(a, w, s, r);
      if e in DispatchTrace(ps, rs, callbacks, threshold) {
        if e in DispatchTrace(ps[..n], rs[..n], callbacks, threshold) {
          var i :| 0 <= i < n && ps[..n][i] == (w, s) && rs[..n][i] == r && s > threshold
                   && w in callbacks && callbacks[w] == a;
          assert ps[i] == (w, s) && rs[i] == r;
        } else {
          assert e in PairTrace(ps[n], rs[n], callbacks, threshold);
          assert ps[n] == (w, s) && rs[n] == r;
        }
      } else {
        forall i | 0 <= i < |ps| && ps[i] == (w, s) && rs[i] == r
          ensures !(s > threshold && w in callbacks && callbacks[w] == a)
        {
          if i < n {
            assert ps[..n][i] == ps[i] && rs[..n][i] == rs[i];
          } else {
            assert e !in PairTrace(ps[n], rs[n], callbacks, threshold);
          }
        }
      }
    }
  }

  /** A chunk produces events iff it holds at least one detection; in particular
      scores equal to the threshold never invoke a callback nor reset the engine. */
  lemma {:induction false} SilentIffNoHits(ps: seq<Pair>, rs: seq<bool>, callbacks: map<Word, ActionId>, threshold: real)
    requires |rs| == |ps|
    ensures DispatchTrace(ps, rs, callbacks, threshold) == [] <==> Hits(ps, threshold) == []
    ensures (forall i :: 0 <= i < |ps| ==> ps[i].1 <= threshold) ==> DispatchTrace(ps, rs, callbacks, threshold) == []
  {
    ResetsEqualHits(ps, rs, callbacks, threshold);
    var t := DispatchTrace(ps, rs, callbacks, threshold);
    if |ps| > 0 {
      var n := |ps| - 1;
      SilentIffNoHits(ps[..n], rs[..n], callbacks, threshold);
    }
    if Hits(ps, threshold) != [] {
      assert ResetCount(t) > 0;
    }
    if forall i :: 0 <= i < |ps| ==> ps[i].1 <= threshold {
      if Hits(ps, threshold) != [] {
        var h := Hits(ps, threshold)[0];
        assert h in Hits(ps, threshold);
        assert h in ps;
      }
    }
  }

  /** In `t`, every callback invocation is immediately followed by a reset. */
  ghost predicate ResetFollowsInvoke(t: seq<Event>) {
    forall k :: 0 <= k < |t| && t[k].Invoke? ==> k + 1 < |t| && t[k + 1] == Reset
  }

  /** Every callback invocation is immediately followed by a reset of the engine. */
  lemma {:induction false} InvokeThenReset(ps: seq<Pair>, rs: seq<bool>, callbacks: map<Word, ActionId>, threshold: real)
    requires |rs| == |ps|
    ensures ResetFollowsInvoke(DispatchTrace(ps, rs, callbacks, threshold))
  {
    if |ps| > 0 {
      var n := |ps| - 1;
      InvokeThenReset(ps[..n], rs[..n], callbacks, threshold);
      var init := DispatchTrace(ps[..n], rs[..n], callbacks, threshold);
      var pt := PairTrace(ps[n], rs[n], callbacks, threshold);
      var t := init + pt;
      forall k | 0 <= k < |t| && t[k].Invoke?
        ensures k + 1 < |t| && t[k + 1] == Reset
      {
        if k < |init| {
          assert init[k].Invoke?;
          assert k + 1 < |init|;
          assert t[k + 1] == init[k + 1];
        } else {
          assert t[k] == pt[k - |init|];
          assert k - |init| == 0 && |pt| == 2;
          assert t[k + 1] == pt[1];
        }
      }
    }
  }

  /** The same trace with every callback outcome forgotten. */
  function Forget(e: Event): Event
  {
    if e.Invoke? then e.(raised := false) else e
  }

  function Erased(t: seq<Event>): (u: seq<Event>)
    ensures |u| == |t|
    ensures forall k :: 0 <= k < |t| ==> u[k] == Forget(t[k])
  {
    seq(|t|, k requires 0 <= k < |t| => Forget(t[k]))
  }

  function NoRaises(n: nat): (rs: seq<bool>)
    ensures |rs| == n && forall k :: 0 <= k < n ==> !rs[k]
  {
    seq(n, k => false)
  }

  /** Callback isolation: whichever callbacks raise, the same callbacks are invoked
      with the same arguments and the same resets follow, in the same order, as
      when every callback returns normally. */
  lemma {:induction false} OutcomesDoNotChangeDispatch(ps: seq<Pair>, rs: seq<bool>, callbacks: map<Word, ActionId>, threshold: real)
    requires |rs| == |ps|
    ensures Erased(DispatchTrace(ps, rs, callbacks, threshold)) == DispatchTrace(ps, NoRaises(|ps|), callbacks, threshold)
  {
    if |ps| > 0 {
      var n := |ps| - 1;
      OutcomesDoNotChangeDispatch(ps[..n], rs[..n], callbacks, threshold);
      assert NoRaises(|ps|)[..n] == NoRaises(n);
      var init := DispatchTrace(ps[..n], rs[..n], callbacks, threshold);
      var pt := PairTrace(ps[n], rs[n], callbacks, threshold);
      assert Erased(init + pt) == Erased(init) + Erased(pt);
      assert Erased(pt) == PairTrace(ps[n], false, callbacks, threshold);
    }
  }

  /** Two registered wake words above the threshold in one chunk: both callbacks
      run, in prediction order, and the engine is reset after each of them. */
  lemma TwoHitsTwoResets()
    ensures DispatchTrace([("alexa", 0.9), ("hey_companion", 0.6)], [false, false],
                          map["alexa" := 1, "hey_companion" := 2], 0.5)
         == [Invoke(1, "alexa", 0.9, false), Reset, Invoke(2, "hey_companion", 0.6, false), Reset]
  {
  }
}

/**
 * Selecting along a sequence: each element is either taken, and becomes something, or passed over,
 * as what was taken before it decides.
 */
module Selections {
  /** Position i comes after the first m taken ones and before the others. */
  ghost predicate Between(at: seq<nat>, i: nat, m: nat) {
    m <= |at| && (m > 0 ==> at[m - 1] < i) && (m < |at| ==> i < at[m])
  }

  /** The k-th of the positions is taken, and becomes the k-th of the results. */
  ghost predicate TakenAt<E(!new), S(!new)>(
      es: seq<E>, at: seq<nat>, ss: seq<S>, k: nat, takes: (E, seq<S>, S) -> bool)
  {
    k < |at| && k < |ss| && at[k] < |es| && takes(es[at[k]], ss[..k], ss[k])
  }

  /** The element at this position is passed over. */
  ghost predicate PassedAt<E(!new), S(!new)>(
      es: seq<E>, at: seq<nat>, ss: seq<S>, i: nat, passes: (E, seq<S>) -> bool)
  {
    i < |es| && exists m: nat :: m <= |ss| && Between(at, i, m) && passes(es[i], ss[..m])
  }

  /** The elements at the positions `at`, and no others, are taken, and become `ss`. */
  ghost predicate Picks<E(!new), S(!new)>(
      es: seq<E>, at: seq<nat>, ss: seq<S>, takes: (E, seq<S>, S) -> bool, passes: (E, seq<S>) -> bool)
  {
    && |at| == |ss|
    && (forall k :: 0 <= k < |at| ==> TakenAt(es, at, ss, k, takes))
    && (forall k, l :: 0 <= k < l < |at| ==> at[k] < at[l])
    && forall i :: 0 <= i < |es| && i !in at ==> PassedAt(es, at, ss, i, passes)
  }

  lemma NotBefore(at: seq<nat>, n: nat, i: nat)
    requires i !in at + [n]
    ensures i !in at && i != n
  {
    assert (at + [n])[|at|] == n;
    assert forall k :: 0 <= k < |at| ==> (at + [n])[k] == at[k];
  }

  lemma TakenStill<E(!new), S(!new)>(
      front: seq<E>, at: seq<nat>, ss: seq<S>, k: nat, moreEs: seq<E>, moreAt: seq<nat>, moreSs: seq<S>,
      takes: (E, seq<S>, S) -> bool)
    requires TakenAt(front, at, ss, k, takes)
    ensures TakenAt(front + moreEs, at + moreAt, ss + moreSs, k, takes)
  {
    assert (ss + moreSs)[..k] == ss[..k];
  }

  lemma PassedStill<E(!new), S(!new)>(
      front: seq<E>, at: seq<nat>, ss: seq<S>, i: nat, moreEs: seq<E>, moreAt: seq<nat>, moreSs: seq<S>,
      passes: (E, seq<S>) -> bool)
    requires PassedAt(front, at, ss, i, passes) && |at| == |ss|
    requires moreAt != [] ==> moreAt[0] >= |front|
    ensures PassedAt(front + moreEs, at + moreAt, ss + moreSs, i, passes)
  {
    var m: nat :| m <= |ss| && Between(at, i, m) && passes(front[i], ss[..m]);
    assert (ss + moreSs)[..m] == ss[..m];
    assert Between(at + moreAt, i, m);
  }

  lemma PicksOneMore<E(!new), S(!new)>(
      front: seq<E>, e: E, at: seq<nat>, ss: seq<S>, s: S,
      takes: (E, seq<S>, S) -> bool, passes: (E, seq<S>) -> bool)
    requires Picks(front, at, ss, takes, passes) && takes(e, ss, s)
    ensures Picks(front + [e], at + [|front|], ss + [s], takes, passes)
  {
    var es, places, all := front + [e], at + [|front|], ss + [s];
    forall k | 0 <= k < |places| ensures TakenAt(es, places, all, k, takes) {
      if k < |at| {
        TakenStill(front, at, ss, k, [e], [|front|], [s], takes);
      } else {
        assert all[..k] == ss;
      }
    }
    forall k, l | 0 <= k < l < |places| ensures places[k] < places[l] {
      assert TakenAt(front, at, ss, k, takes);
    }
    forall i | 0 <= i < |es| && i !in places ensures PassedAt(es, places, all, i, passes) {
      NotBefore(at, |front|, i);
      PassedStill(front, at, ss, i, [e], [|front|], [s], passes);
    }
  }

  lemma PicksNoMore<E(!new), S(!new)>(
      front: seq<E>, e: E, at: seq<nat>, ss: seq<S>, takes: (E, seq<S>, S) -> bool, passes: (E, seq<S>) -> bool)
    requires Picks(front, at, ss, takes, passes) && passes(e, ss)
    ensures Picks(front + [e], at, ss, takes, passes)
  {
    var es := front + [e];
    assert at + [] == at && ss + [] == ss;
    forall k | 0 <= k < |at| ensures TakenAt(es, at, ss, k, takes) {
      TakenStill(front, at, ss, k, [e], [], [], takes);
    }
    forall i | 0 <= i < |es| && i !in at ensures PassedAt(es, at, ss, i, passes) {
      if i < |front| {
        PassedStill(front, at, ss, i, [e], [], [], passes);
      } else {
        assert |at| > 0 ==> TakenAt(front, at, ss, |at| - 1, takes);
        assert Between(at, i, |at|) && ss[..|at|] == ss;
      }
    }
  }

  /** A selection restricted to all elements but the last. */
  lemma FrontPicks<E(!new), S(!new)>(
      front: seq<E>, e: E, at: seq<nat>, ss: seq<S>, n: nat,
      takes: (E, seq<S>, S) -> bool, passes: (E, seq<S>) -> bool)
    requires Picks(front + [e], at, ss, takes, passes) && n <= |at|
    requires forall k :: 0 <= k < n ==> at[k] < |front|
    requires forall k :: n <= k < |at| ==> at[k] == |front|
    ensures Picks(front, at[..n], ss[..n], takes, passes)
  {
    var es := front + [e];
    forall k | 0 <= k < n ensures TakenAt(front, at[..n], ss[..n], k, takes) {
      assert TakenAt(es, at, ss, k, takes);
      assert ss[..n][..k] == ss[..k];
    }
    forall i | 0 <= i < |front| && i !in at[..n] ensures PassedAt(front, at[..n], ss[..n], i, passes) {
      assert i !in at;
      assert PassedAt(es, at, ss, i, passes);
      var m: nat :| m <= |ss| && Between(at, i, m) && passes(es[i], ss[..m]);
      assert m <= n;
      assert Between(at[..n], i, m) && ss[..n][..m] == ss[..m];
    }
  }

  /** The last element was taken last, or passed over with all that was taken. */
  lemma LastPicked<E(!new), S(!new)>(
      front: seq<E>, e: E, at: seq<nat>, ss: seq<S>, takes: (E, seq<S>, S) -> bool, passes: (E, seq<S>) -> bool)
      returns (places: seq<nat>, steps: seq<S>)
    requires Picks(front + [e], at, ss, takes, passes)
    ensures Picks(front, places, steps, takes, passes)
    ensures || (steps == ss && passes(e, ss))
            || (|ss| == |steps| + 1 && ss == steps + [ss[|steps|]] && takes(e, steps, ss[|steps|]))
  {
    var es := front + [e];
    if |front| in at {
      var k :| 0 <= k < |at| && at[k] == |front|;
      assert TakenAt(es, at, ss, |at| - 1, takes);
      assert k == |at| - 1;
      FrontPicks(front, e, at, ss, k, takes, passes);
      assert TakenAt(es, at, ss, k, takes);
      places, steps := at[..k], ss[..k];
    } else {
      forall k | 0 <= k < |at| ensures at[k] < |front| {
        assert TakenAt(es, at, ss, k, takes) && at[k] in at;
      }
      assert at[..|at|] == at && ss[..|at|] == ss;
      FrontPicks(front, e, at, ss, |at|, takes, passes);
      assert PassedAt(es, at, ss, |front|, passes);
      var m: nat :| m <= |ss| && Between(at, |front|, m) && passes(es[|front|], ss[..m]);
      assert m == |at| && ss[..m] == ss;
      places, steps := at, ss;
    }
  }

  lemma NothingPicked<E(!new), S(!new)>(
      at: seq<nat>, ss: seq<S>, takes: (E, seq<S>, S) -> bool, passes: (E, seq<S>) -> bool)
    requires Picks([], at, ss, takes, passes)
    ensures ss == []
  {
    assert !TakenAt([], at, ss, 0, takes);
  }
}

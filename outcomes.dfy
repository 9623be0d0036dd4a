/** Rule outcomes and the flattening of a run of outcomes into the list of
    diagnostics reported, in order. */
module Outcomes {

  datatype Option<T> = None | Some(value: T)

  /** The diagnostics one outcome contributes: its diagnostic, if any. */
  function Emit<T>(d: Option<T>): seq<T>
  {
    if d.Some? then [d.value] else []
  }

  /** The diagnostics of a run of outcomes, one outcome after another. */
  function Flatten<T>(outs: seq<Option<T>>): seq<T>
  {
    if outs == [] then [] else Emit(outs[0]) + Flatten(outs[1..])
  }

  /** Flattening two runs in sequence reports the first run, then the second. */
  lemma {:induction false} FlattenAppend<T>(a: seq<Option<T>>, b: seq<Option<T>>)
    ensures Flatten(a + b) == Flatten(a) + Flatten(b)
  {
    if a == [] {
      assert a + b == b;
    } else {
      assert (a + b)[1..] == a[1..] + b;
      FlattenAppend(a[1..], b);
    }
  }

  /** A non-empty slice reports its first outcome, then the rest. */
  lemma FlattenSliceFirst<T>(outs: seq<Option<T>>, lo: nat, hi: nat)
    requires lo < hi <= |outs|
    ensures Flatten(outs[lo..hi]) == Emit(outs[lo]) + Flatten(outs[lo + 1..hi])
  {
    assert outs[lo..hi][1..] == outs[lo + 1..hi];
  }

  /** A slice split at `mid` reports the part before `mid`, then the part after. */
  lemma FlattenSliceSplit<T>(outs: seq<Option<T>>, lo: nat, mid: nat, hi: nat)
    requires lo <= mid <= hi <= |outs|
    ensures Flatten(outs[lo..hi]) == Flatten(outs[lo..mid]) + Flatten(outs[mid..hi])
  {
    assert outs[lo..hi] == outs[lo..mid] + outs[mid..hi];
    FlattenAppend(outs[lo..mid], outs[mid..hi]);
  }

  /** Regrouping a three-part concatenation; a proof hint that lets the
      validator's per-group results be joined without unfolding them. */
  lemma ConcatAssoc<T>(a: seq<T>, b: seq<T>, c: seq<T>)
    ensures a + (b + c) == a + b + c
  {
  }

  /** A whole run's report is the report of its first `mid` outcomes
      followed by that of the rest. */
  lemma FlattenSplitWhole<T>(outs: seq<Option<T>>, mid: nat)
    requires mid <= |outs|
    ensures Flatten(outs) == Flatten(outs[0..mid]) + Flatten(outs[mid..|outs|])
  {
    assert outs[0..|outs|] == outs;
    FlattenSliceSplit(outs, 0, mid, |outs|);
  }

  /** A diagnostic is reported exactly when some outcome of the run carries it. */
  lemma {:induction false} InFlatten<T>(outs: seq<Option<T>>, d: T)
    ensures d in Flatten(outs) <==> exists i :: 0 <= i < |outs| && outs[i] == Some(d)
  {
    if outs != [] {
      InFlatten(outs[1..], d);
      if d in Flatten(outs[1..]) {
        var i :| 0 <= i < |outs[1..]| && outs[1..][i] == Some(d);
        assert outs[i + 1] == Some(d);
      }
      if exists i :: 0 <= i < |outs| && outs[i] == Some(d) {
        var i :| 0 <= i < |outs| && outs[i] == Some(d);
        if i > 0 {
          assert outs[1..][i - 1] == Some(d);
        }
      }
    }
  }

  /** A run reports nothing exactly when every outcome in it is a pass. */
  lemma {:induction false} FlattenEmpty<T>(outs: seq<Option<T>>)
    ensures Flatten(outs) == [] <==> forall i :: 0 <= i < |outs| ==> outs[i] == None
  {
    if outs != [] {
      FlattenEmpty(outs[1..]);
      assert forall i :: 1 <= i < |outs| ==> outs[i] == outs[1..][i - 1];
    }
  }
}

/** Per-thread vote counters against the set of counted votes. */
module Counting {

  // How many of the done entries belong to thread t.
  function CountFor(done: seq<bool>, owner: seq<nat>, t: nat): nat
    requires |done| == |owner|
  {
    if done == [] then 0
    else
      var i := |done| - 1;
      CountFor(done[..i], owner[..i], t) + (if done[i] && owner[i] == t then 1 else 0)
  }

  function Trues(done: seq<bool>): nat {
    if done == [] then 0 else Trues(done[..|done| - 1]) + (if done[|done| - 1] then 1 else 0)
  }

  function SumTo(counts: seq<int>, t: nat): int
    requires t <= |counts|
  {
    if t == 0 then 0 else SumTo(counts, t - 1) + counts[t - 1]
  }

  function SumFor(done: seq<bool>, owner: seq<nat>, t: nat): nat
    requires |done| == |owner|
  {
    if t == 0 then 0 else SumFor(done, owner, t - 1) + CountFor(done, owner, t - 1)
  }

  lemma {:induction false} CountForSet(done: seq<bool>, owner: seq<nat>, t: nat, j: nat)
    requires |done| == |owner| && j < |done| && !done[j]
    ensures CountFor(done[j := true], owner, t) == CountFor(done, owner, t) + (if owner[j] == t then 1 else 0)
  {
    var i := |done| - 1;
    if j == i {
      assert done[j := true][..i] == done[..i];
    } else {
      assert done[j := true][..i] == done[..i][j := true];
      CountForSet(done[..i], owner[..i], t, j);
    }
  }

  lemma {:induction false} CountForNone(done: seq<bool>, owner: seq<nat>, t: nat)
    requires |done| == |owner|
    requires forall j :: 0 <= j < |done| && owner[j] == t ==> !done[j]
    ensures CountFor(done, owner, t) == 0
  {
    if done != [] {
      CountForNone(done[..|done| - 1], owner[..|done| - 1], t);
    }
  }

  lemma {:induction false} SumForSnoc(done: seq<bool>, owner: seq<nat>, t: nat)
    requires |done| == |owner| > 0
    ensures var i := |done| - 1;
      SumFor(done, owner, t) == SumFor(done[..i], owner[..i], t) + (if done[i] && owner[i] < t then 1 else 0)
  {
    if t > 0 {
      SumForSnoc(done, owner, t - 1);
    }
  }

  // Every entry is counted for exactly one thread.
  lemma {:induction false} SumForIsTrues(done: seq<bool>, owner: seq<nat>, t: nat)
    requires |done| == |owner|
    requires forall j :: 0 <= j < |owner| ==> owner[j] < t
    ensures SumFor(done, owner, t) == Trues(done)
  {
    if done == [] {
      SumForEmpty(t);
    } else {
      SumForSnoc(done, owner, t);
      SumForIsTrues(done[..|done| - 1], owner[..|done| - 1], t);
    }
  }

  lemma {:induction false} SumForEmpty(t: nat)
    ensures SumFor([], [], t) == 0
  {
    if t > 0 {
      SumForEmpty(t - 1);
    }
  }

  lemma {:induction false} SumToIsSumFor(counts: seq<int>, done: seq<bool>, owner: seq<nat>, t: nat)
    requires |done| == |owner| && t <= |counts|
    requires forall u :: 0 <= u < |counts| ==> counts[u] == CountFor(done, owner, u)
    ensures SumTo(counts, t) == SumFor(done, owner, t)
  {
    if t > 0 {
      SumToIsSumFor(counts, done, owner, t - 1);
    }
  }

  lemma {:induction false} TruesBound(done: seq<bool>)
    ensures Trues(done) <= |done|
    ensures Trues(done) == |done| <==> forall j :: 0 <= j < |done| ==> done[j]
  {
    if done != [] {
      var i := |done| - 1;
      TruesBound(done[..i]);
      assert forall j :: 0 <= j < i ==> done[..i][j] == done[j];
    }
  }

  /** The counters add up to the number of counted votes: at most all of them, and all exactly when every vote is in. */
  lemma CountersAddUp(counts: seq<int>, done: seq<bool>, owner: seq<nat>)
    requires |done| == |owner|
    requires forall j :: 0 <= j < |owner| ==> owner[j] < |counts|
    requires forall u :: 0 <= u < |counts| ==> counts[u] == CountFor(done, owner, u)
    ensures SumTo(counts, |counts|) <= |done|
    ensures SumTo(counts, |counts|) == |done| <==> forall j :: 0 <= j < |done| ==> done[j]
  {
    SumToIsSumFor(counts, done, owner, |counts|);
    SumForIsTrues(done, owner, |counts|);
    TruesBound(done);
  }

  // Raising a counter never lowers a partial sum.
  lemma {:induction false} SumToGrows(counts: seq<int>, u: nat, v: int, t: nat)
    requires u < |counts| && t <= |counts| && counts[u] <= v
    ensures SumTo(counts, t) <= SumTo(counts[u := v], t)
  {
    if t > 0 {
      SumToGrows(counts, u, v, t - 1);
    }
  }
}

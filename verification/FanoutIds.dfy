/** Fanout IDs: the two loops at the start of `RunTestimony`. */
module FanoutIds {

  datatype Config = Config(name: string, id: int)

  datatype Result = Ids(ids: seq<nat>) | InvalidId | DuplicateId | DuplicateName

  function Manual(t: seq<Config>): set<int> {
    set k | 0 <= k < |t| && t[k].id > 0 :: t[k].id
  }

  ghost predicate DistinctIds(t: seq<Config>) {
    forall j, k :: 0 <= j < k < |t| && t[k].id > 0 ==> t[j].id != t[k].id
  }

  ghost predicate DistinctNames(t: seq<Config>) {
    forall j, k :: 0 <= j < k < |t| ==> t[j].name != t[k].name
  }

  ghost predicate NonNegative(t: seq<Config>) {
    forall k :: 0 <= k < |t| ==> t[k].id >= 0
  }

  /** Config k is the first one with a negative or a repeated ID. */
  ghost predicate FirstBad(t: seq<Config>, k: nat)
    requires k < |t|
  {
    && NonNegative(t[..k]) && DistinctIds(t[..k])
    && (t[k].id < 0 || (t[k].id > 0 && t[k].id in Manual(t[..k])))
  }

  /** The loop that collects the manual IDs. */
  method CollectManual(t: seq<Config>) returns (r: Result, ids: set<int>)
    ensures r.Ids? <==> NonNegative(t) && DistinctIds(t)
    ensures r.InvalidId? ==> exists k :: 0 <= k < |t| && FirstBad(t, k) && t[k].id < 0
    ensures r.DuplicateId? ==> exists k :: 0 <= k < |t| && FirstBad(t, k) && t[k].id > 0
    ensures !r.DuplicateName? && (r.Ids? ==> ids == Manual(t))
  {
    ids := {};
    for i := 0 to |t|
      invariant NonNegative(t[..i]) && DistinctIds(t[..i]) && ids == Manual(t[..i])
    {
      var id := t[i].id;
      if id < 0 {
        assert FirstBad(t, i);
        return InvalidId, ids;
      }
      if id in ids {
        assert FirstBad(t, i);
        return DuplicateId, ids;
      }
      if id > 0 {
        ids := ids + {id};
      }
    }
    assert t[..|t|] == t;
    return Ids([]), ids;
  }

  /** The IDs that the automatic search could give from `from` on: those not taken. */
  ghost predicate IsNext(manual: set<int>, from: nat, id: nat) {
    id >= from && id !in manual && forall x :: from <= x < id ==> x in manual
  }

  function Above(manual: set<int>, from: nat): set<int> {
    set x | x in manual && x >= from
  }

  /** `for ids[autoID] { autoID++ }`: it ends because each round passes one manual ID. */
  method NextFree(manual: set<int>, from: nat) returns (id: nat)
    ensures IsNext(manual, from, id)
  {
    id := from;
    while id in manual
      invariant id >= from && forall x :: from <= x < id ==> x in manual
      decreases |Above(manual, id)|
    {
      assert Above(manual, id) == Above(manual, id + 1) + {id};
      id := id + 1;
    }
  }

  /** What RunTestimony promises about the IDs it gives to a prefix of the configs: manual
      IDs are kept, and the automatic ones are, in order, the positive numbers that are not
      manual; `auto` is the first number not considered yet. */
  ghost predicate Assigned(t: seq<Config>, ids: seq<nat>, auto: nat) {
    && |ids| <= |t| && auto >= 1
    && (forall k :: 0 <= k < |ids| && t[k].id > 0 ==> ids[k] == t[k].id)
    && (forall k :: 0 <= k < |ids| && t[k].id <= 0 ==> 1 <= ids[k] < auto && ids[k] !in Manual(t))
    && (forall j, k :: 0 <= j < k < |ids| && t[j].id <= 0 && t[k].id <= 0 ==> ids[j] < ids[k])
    && (forall x :: 1 <= x < auto && x !in Manual(t) ==> Given(t, ids, x))
  }

  /** Some config has x as its automatic ID. */
  ghost predicate Given(t: seq<Config>, ids: seq<nat>, x: int)
    requires |ids| <= |t|
  {
    exists k :: 0 <= k < |ids| && t[k].id <= 0 && ids[k] == x
  }

  lemma AssignManual(t: seq<Config>, ids: seq<nat>, auto: nat)
    requires Assigned(t, ids, auto) && |ids| < |t| && t[|ids|].id > 0
    ensures Assigned(t, ids + [t[|ids|].id], auto)
  {
  }

  lemma AssignAuto(t: seq<Config>, ids: seq<nat>, auto: nat, id: nat)
    requires Assigned(t, ids, auto) && |ids| < |t| && t[|ids|].id <= 0 && IsNext(Manual(t), auto, id)
    ensures Assigned(t, ids + [id], id + 1)
  {
  }

  function Names(t: seq<Config>): set<string> { set k | 0 <= k < |t| :: t[k].name }

  lemma AddName(t: seq<Config>, i: nat)
    requires i < |t|
    ensures Names(t[..i + 1]) == Names(t[..i]) + {t[i].name}
    ensures DistinctNames(t[..i]) && t[i].name !in Names(t[..i]) ==> DistinctNames(t[..i + 1])
    ensures t[i].name in Names(t[..i]) ==> !DistinctNames(t)
  {
  }

  /** RunTestimony accepts a configuration exactly when no ID is negative or repeated and no
      name is repeated, and then assigns the IDs as promised. */
  method Allocate(t: seq<Config>) returns (r: Result)
    ensures r.Ids? <==> NonNegative(t) && DistinctIds(t) && DistinctNames(t)
    ensures r.Ids? ==> |r.ids| == |t| && exists auto :: Assigned(t, r.ids, auto)
    ensures r.InvalidId? ==> exists k :: 0 <= k < |t| && FirstBad(t, k) && t[k].id < 0
    ensures r.DuplicateId? ==> exists k :: 0 <= k < |t| && FirstBad(t, k) && t[k].id > 0
    ensures r.DuplicateName? ==> NonNegative(t) && DistinctIds(t) && !DistinctNames(t)
  {
    var manual;
    r, manual := CollectManual(t);
    if !r.Ids? {
      return;
    }
    var ids: seq<nat>, names: set<string>, auto: nat := [], {}, 1;
    for i := 0 to |t|
      invariant |ids| == i && Assigned(t, ids, auto)
      invariant DistinctNames(t[..i]) && names == Names(t[..i])
    {
      AddName(t, i);
      if t[i].name in names {
        return DuplicateName;
      }
      names := names + {t[i].name};
      if t[i].id > 0 {
        AssignManual(t, ids, auto);
        ids := ids + [t[i].id];
      } else {
        var id := NextFree(manual, auto);
        AssignAuto(t, ids, auto, id);
        ids := ids + [id];
        auto := id + 1;
      }
    }
    assert t[..|t|] == t;
    return Ids(ids);
  }

  /** The assigned IDs are positive and pairwise distinct. */
  lemma AssignedAreDistinct(t: seq<Config>, ids: seq<nat>, auto: nat)
    requires Assigned(t, ids, auto) && DistinctIds(t)
    ensures forall k :: 0 <= k < |ids| ==> ids[k] > 0
    ensures forall j, k :: 0 <= j < k < |ids| ==> ids[j] != ids[k]
  {
  }

  /** The promise leaves no choice: it determines every ID. */
  lemma {:induction false} AssignedIsUnique(t: seq<Config>, xs: seq<nat>, a: nat, ys: seq<nat>, b: nat, k: nat)
    requires Assigned(t, xs, a) && Assigned(t, ys, b) && k < |xs| && k < |ys|
    ensures xs[k] == ys[k]
    decreases k, 1
  {
    if t[k].id <= 0 {
      NotSmaller(t, xs, a, ys, b, k);
      NotSmaller(t, ys, b, xs, a, k);
    }
  }

  lemma NotSmaller(t: seq<Config>, xs: seq<nat>, a: nat, ys: seq<nat>, b: nat, k: nat)
    requires Assigned(t, xs, a) && Assigned(t, ys, b) && k < |xs| && k < |ys| && t[k].id <= 0
    ensures xs[k] >= ys[k]
    decreases k, 0
  {
    if xs[k] < ys[k] {
      assert Given(t, ys, xs[k]);
      var j :| 0 <= j < |ys| && t[j].id <= 0 && ys[j] == xs[k];
      if j < k {
        AssignedIsUnique(t, xs, a, ys, b, j);
      }
    }
  }
}

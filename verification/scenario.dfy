/**
 * The strategic layer's requisition bookkeeping (scenario.py): each side
 * has a pool of requisition points; a general is deployed once the points
 * put towards it reach its cost, and every fortress a side holds adds its
 * production to that side's pool, which is capped.
 */
module Scenario {
  import opened Wrappers
  import opened Grid
  import opened State
  import opened Seqs
  import Battle

  /** The pools each side starts with, side 0 first. */
  const StartingPools: seq<int> := [999, 300]

  /** No pool grows above this. */
  const MaxRequisition: int := 999

  /** What the scenario keeps of a general: its side, its cost, the points already put towards it and whether it is on the map. */
  datatype Recruit = Recruit(side: int, cost: int, requisition: int, deployed: bool)

  /** A side's pool, read or written at a Python list index (negative indices count from the end). */
  function Pool(pools: seq<int>, side: int): (r: Result<nat>)
    ensures r.Ok? <==> -|pools| <= side < |pools|
    ensures r.Ok? ==> r.value < |pools|
  {
    match PyIndex(|pools|, side)
    case None => Crash("IndexError")
    case Some(k) => Ok(k)
  }

  /**
   * apply_requisition: nothing for a general already deployed.  If the
   * general's points and its side's pool together cover the cost, the
   * general is deployed (whether the deployment succeeds is the given
   * flag: it depends on the deployment cell being free) and the pool pays
   * the rest of the cost, or all but one point of it when the deployment
   * fails.  Otherwise the whole pool goes to the general.  Either way
   * points only move between the side's pool and the general, never
   * appear or vanish, and the other pools are untouched.
   */
  function ApplyRequisition(pools: seq<int>, g: Recruit, deploys: bool): (r: Result<(seq<int>, Recruit)>)
    ensures g.deployed ==> r == Ok((pools, g))
    ensures !g.deployed ==> (r.Ok? <==> -|pools| <= g.side < |pools|)
    ensures r.Ok? ==> |r.value.0| == |pools| && r.value.1.side == g.side && r.value.1.cost == g.cost
    ensures r.Ok? && !g.deployed ==>
              var k := PyIndex(|pools|, g.side).value;
              var (p, h) := r.value;
              && p[k] + h.requisition == pools[k] + g.requisition
              && (forall j :: 0 <= j < |pools| && j != k ==> p[j] == pools[j])
              && (g.requisition + pools[k] >= g.cost && deploys ==> h.requisition == g.cost && h.deployed)
              && (g.requisition + pools[k] >= g.cost && !deploys ==> h.requisition == g.cost - 1 && p[k] >= 1 && !h.deployed)
              && (g.requisition + pools[k] < g.cost ==> p[k] == 0 && !h.deployed)
  {
    if g.deployed then Ok((pools, g))
    else
      match Pool(pools, g.side)
      case Crash(e) => Crash(e)
      case Ok(k) =>
        if g.requisition + pools[k] >= g.cost then
          if deploys then Ok((pools[k := pools[k] - (g.cost - g.requisition)], g.(requisition := g.cost, deployed := true)))
          else Ok((pools[k := pools[k] - (g.cost - g.requisition - 1)], g.(requisition := g.cost - 1)))
        else Ok((pools[k := 0], g.(requisition := g.requisition + pools[k])))
  }

  /** What a fortress yields: the side holding it and its production per increment. */
  type Holding = (int, int)

  /** The points the holdings earn pool k of n: every non-neutral holding whose side indexes k. */
  function Earned(holdings: seq<Holding>, n: nat, k: nat): int
  {
    if holdings == [] then 0
    else
      var (side, prod) := holdings[0];
      (if side != NeutralSide && PyIndex(n, side) == Some(k) then prod else 0) + Earned(holdings[1..], n, k)
  }

  /** Every non-neutral holding names a pool. */
  predicate Addressed(holdings: seq<Holding>, n: nat)
  {
    forall i :: 0 <= i < |holdings| ==> holdings[i].0 != NeutralSide ==> PyIndex(n, holdings[i].0).Some?
  }

  /** The first loop of increment_requisition: each held fortress credits its side, one at a time. */
  function Collect(pools: seq<int>, holdings: seq<Holding>): (r: Result<seq<int>>)
    ensures r.Ok? ==> |r.value| == |pools|
    decreases |holdings|
  {
    if holdings == [] then Ok(pools)
    else
      var (side, prod) := holdings[0];
      if side == NeutralSide then Collect(pools, holdings[1..])
      else
        match Pool(pools, side)
        case Crash(e) => Crash(e)
        case Ok(k) => Collect(pools[k := pools[k] + prod], holdings[1..])
  }

  /** Collecting fails exactly when a held fortress names no pool, and otherwise adds to each pool what it has earned. */
  lemma {:induction false} CollectEarns(pools: seq<int>, holdings: seq<Holding>)
    ensures Collect(pools, holdings).Ok? <==> Addressed(holdings, |pools|)
    ensures Collect(pools, holdings).Ok? ==>
              forall k :: 0 <= k < |pools| ==> Collect(pools, holdings).value[k] == pools[k] + Earned(holdings, |pools|, k)
    decreases |holdings|
  {
    if holdings != [] {
      var (side, prod) := holdings[0];
      assert forall i :: 1 <= i < |holdings| ==> holdings[1..][i - 1] == holdings[i];
      if side == NeutralSide {
        CollectEarns(pools, holdings[1..]);
      } else if PyIndex(|pools|, side).Some? {
        var k := PyIndex(|pools|, side).value;
        CollectEarns(pools[k := pools[k] + prod], holdings[1..]);
      } else {
        assert !Addressed(holdings, |pools|) by { assert holdings[0].0 == side; }
      }
    }
  }

  /** The second loop: a pool above the cap is cut down to it. */
  function Cap(v: int): (c: int)
    ensures c <= MaxRequisition
    ensures v <= MaxRequisition ==> c == v
  {
    if v > MaxRequisition then MaxRequisition else v
  }

  /** The fortresses the battleground lists, as holdings. */
  function Holdings(w: World, fs: seq<Id>): (r: Result<seq<Holding>>)
    ensures r.Ok? ==> |r.value| == |fs|
    ensures r.Ok? ==> forall i :: 0 <= i < |fs| ==>
              fs[i] in w.units && w.units[fs[i]].role.Fort? &&
              r.value[i] == (w.units[fs[i]].side, w.units[fs[i]].role.production)
  {
    if fs == [] then Ok([])
    else if fs[0] !in w.units || !w.units[fs[0]].role.Fort? then Crash(Battle.OutsideModel)
    else
      match Holdings(w, fs[1..])
      case Crash(e) => Crash(e)
      case Ok(rest) => Ok([(w.units[fs[0]].side, w.units[fs[0]].role.production)] + rest)
  }

  /**
   * increment_requisition: every fortress held by a side adds its
   * production to that side's pool, and then pools 0 and 1 (the two sides)
   * are cut down to the cap.
   */
  function IncrementRequisition(w: World, pools: seq<int>): (r: Result<seq<int>>)
    ensures r.Ok? ==> |pools| >= 2 && |r.value| == |pools|
    ensures r.Ok? ==> r.value[0] <= MaxRequisition && r.value[1] <= MaxRequisition
  {
    match Holdings(w, w.fortresses)
    case Crash(e) => Crash(e)
    case Ok(hs) =>
      match Collect(pools, hs)
      case Crash(e) => Crash(e)
      case Ok(c) =>
        if |c| < 2 then Crash("IndexError")
        else Ok(c[0 := Cap(c[0])][1 := Cap(c[1])])
  }

  /**
   * Each side's pool ends at what it had plus what its fortresses earned,
   * capped; any further pool gets its earnings uncapped.
   */
  lemma IncrementCredits(w: World, pools: seq<int>)
    requires IncrementRequisition(w, pools).Ok?
    ensures var hs := Holdings(w, w.fortresses).value;
            var r := IncrementRequisition(w, pools).value;
            && (forall k :: 0 <= k < 2 ==> r[k] == Cap(pools[k] + Earned(hs, |pools|, k)))
            && (forall k :: 2 <= k < |pools| ==> r[k] == pools[k] + Earned(hs, |pools|, k))
  {
    CollectEarns(pools, Holdings(w, w.fortresses).value);
  }

  /** The crash cases of increment_requisition: a fortress side naming no pool, or fewer than two pools. */
  lemma IncrementFails(w: World, pools: seq<int>)
    requires Holdings(w, w.fortresses).Ok?
    ensures IncrementRequisition(w, pools).Ok? <==> Addressed(Holdings(w, w.fortresses).value, |pools|) && |pools| >= 2
  {
    CollectEarns(pools, Holdings(w, w.fortresses).value);
  }

  /** Fortresses nobody holds earn nothing, so a pool already within the cap keeps its value. */
  lemma {:induction false} NeutralEarnsNothing(holdings: seq<Holding>, n: nat, k: nat)
    requires forall i :: 0 <= i < |holdings| ==> holdings[i].0 == NeutralSide
    ensures Earned(holdings, n, k) == 0
    decreases |holdings|
  {
    if holdings != [] {
      assert forall i :: 1 <= i < |holdings| ==> holdings[1..][i - 1] == holdings[i];
      NeutralEarnsNothing(holdings[1..], n, k);
    }
  }
}

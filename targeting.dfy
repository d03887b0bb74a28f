/** Target selection for units and towers. Each scan is a function over a
    prefix of the list, replaying the source's accumulator loop; the lemmas
    characterise what the scan picks, and the methods are the loops. */
module Targeting {
  import opened Entities

  /** What a unit acts on: an index into the unit list or the tower list. */
  datatype Target = NoTarget | OnUnit(index: nat) | OnTower(index: nat)

  /** An enemy unit strictly within the aggro radius of `u`. */
  predicate InAggro(u: Unit, e: Unit)
  {
    e.owner != u.owner && DistSq(u.pos, e.pos) < AggroRadiusSq
  }

  /** An enemy tower still standing. */
  predicate Attackable(u: Unit, t: Tower)
  {
    t.owner != u.owner && t.hp > 0
  }

  /** An enemy unit within a tower's range (inclusive). */
  predicate InTowerRange(t: Tower, e: Unit)
  {
    e.owner != t.owner && DistSq(t.pos, e.pos) <= t.range * t.range
  }

  /** The enemy-unit scan after looking at `units[..k]`: it takes a unit when
      it is in aggro and strictly nearer than the best so far. */
  function AggroScan(units: seq<Unit>, u: Unit, k: nat): (r: Option<nat>)
    requires k <= |units|
    ensures r.Some? ==> r.value < k && InAggro(u, units[r.value])
  {
    if k == 0 then None
    else
      var best := AggroScan(units, u, k - 1);
      var e := units[k - 1];
      if InAggro(u, e) && (best.None? || DistSq(u.pos, e.pos) < DistSq(u.pos, units[best.value].pos))
      then Some(k - 1)
      else best
  }

  /** The fallback scan over `towers[..k]`: standing enemy towers, no range
      cap, strictly nearer replaces. */
  function TowerScan(towers: seq<Tower>, u: Unit, k: nat): (r: Option<nat>)
    requires k <= |towers|
    ensures r.Some? ==> r.value < k && Attackable(u, towers[r.value])
  {
    if k == 0 then None
    else
      var best := TowerScan(towers, u, k - 1);
      var t := towers[k - 1];
      if Attackable(u, t) && (best.None? || DistSq(u.pos, t.pos) < DistSq(u.pos, towers[best.value].pos))
      then Some(k - 1)
      else best
  }

  /** A tower's scan over `units[..k]`: the bound starts at the tower's range
      and a unit at a distance not above the bound replaces the best. */
  function RangeScan(units: seq<Unit>, t: Tower, k: nat): (r: Option<nat>)
    requires k <= |units|
    ensures r.Some? ==> r.value < k
  {
    if k == 0 then None
    else
      var best := RangeScan(units, t, k - 1);
      var e := units[k - 1];
      var bound := if best.None? then t.range * t.range else DistSq(t.pos, units[best.value].pos);
      if e.owner != t.owner && DistSq(t.pos, e.pos) <= bound
      then Some(k - 1)
      else best
  }

  /** A unit's target: the enemy-unit scan, else the tower scan. */
  function UnitTarget(units: seq<Unit>, towers: seq<Tower>, u: Unit): (t: Target)
    ensures t.OnUnit? ==> t.index < |units| && units[t.index].owner != u.owner
    ensures t.OnTower? ==> t.index < |towers| && towers[t.index].owner != u.owner
  {
    match AggroScan(units, u, |units|)
    case Some(j) => OnUnit(j)
    case None =>
      match TowerScan(towers, u, |towers|)
      case Some(j) => OnTower(j)
      case None => NoTarget
  }

  /** A tower's target, if any. */
  function TowerTarget(units: seq<Unit>, t: Tower): (r: Option<nat>)
    ensures r.Some? ==> r.value < |units|
  {
    RangeScan(units, t, |units|)
  }

  /** The enemy-unit scan finds something exactly when some unit is in aggro,
      and then it is a nearest one, the first of the nearest in list order. */
  lemma {:induction false} AggroScanNearestFirst(units: seq<Unit>, u: Unit, k: nat)
    requires k <= |units|
    ensures AggroScan(units, u, k).None? <==> (forall j :: 0 <= j < k ==> !InAggro(u, units[j]))
    ensures AggroScan(units, u, k).Some? ==>
      var b := AggroScan(units, u, k).value;
      && InAggro(u, units[b])
      && (forall j :: 0 <= j < k && InAggro(u, units[j]) ==> DistSq(u.pos, units[b].pos) <= DistSq(u.pos, units[j].pos))
      && (forall j :: 0 <= j < b && InAggro(u, units[j]) ==> DistSq(u.pos, units[b].pos) < DistSq(u.pos, units[j].pos))
  {
    if k > 0 {
      AggroScanNearestFirst(units, u, k - 1);
    }
  }

  /** The tower scan finds something exactly when some enemy tower stands,
      and then it is a nearest standing one, the first of the nearest. */
  lemma {:induction false} TowerScanNearestFirst(towers: seq<Tower>, u: Unit, k: nat)
    requires k <= |towers|
    ensures TowerScan(towers, u, k).None? <==> (forall j :: 0 <= j < k ==> !Attackable(u, towers[j]))
    ensures TowerScan(towers, u, k).Some? ==>
      var b := TowerScan(towers, u, k).value;
      && Attackable(u, towers[b])
      && (forall j :: 0 <= j < k && Attackable(u, towers[j]) ==> DistSq(u.pos, towers[b].pos) <= DistSq(u.pos, towers[j].pos))
      && (forall j :: 0 <= j < b && Attackable(u, towers[j]) ==> DistSq(u.pos, towers[b].pos) < DistSq(u.pos, towers[j].pos))
  {
    if k > 0 {
      TowerScanNearestFirst(towers, u, k - 1);
    }
  }

  /** The tower's scan finds something exactly when an enemy unit is within
      range, and then it is a nearest one, the LAST of the nearest. */
  lemma {:induction false} RangeScanNearestLast(units: seq<Unit>, t: Tower, k: nat)
    requires k <= |units|
    ensures RangeScan(units, t, k).None? <==> (forall j :: 0 <= j < k ==> !InTowerRange(t, units[j]))
    ensures RangeScan(units, t, k).Some? ==>
      var b := RangeScan(units, t, k).value;
      && InTowerRange(t, units[b])
      && (forall j :: 0 <= j < k && InTowerRange(t, units[j]) ==> DistSq(t.pos, units[b].pos) <= DistSq(t.pos, units[j].pos))
      && (forall j :: b < j < k && InTowerRange(t, units[j]) ==> DistSq(t.pos, units[b].pos) < DistSq(t.pos, units[j].pos))
  {
    if k > 0 {
      RangeScanNearestLast(units, t, k - 1);
    }
  }

  /** Unit targeting: any enemy unit in aggro beats every tower; otherwise a
      nearest standing enemy tower; no target only when neither exists. */
  lemma UnitTargetPriority(units: seq<Unit>, towers: seq<Tower>, u: Unit)
    ensures (exists j :: 0 <= j < |units| && InAggro(u, units[j])) ==>
      var t := UnitTarget(units, towers, u);
      && t.OnUnit?
      && InAggro(u, units[t.index])
      && (forall j :: 0 <= j < |units| && InAggro(u, units[j]) ==> DistSq(u.pos, units[t.index].pos) <= DistSq(u.pos, units[j].pos))
      && (forall j :: 0 <= j < t.index && InAggro(u, units[j]) ==> DistSq(u.pos, units[t.index].pos) < DistSq(u.pos, units[j].pos))
    ensures (forall j :: 0 <= j < |units| ==> !InAggro(u, units[j])) && (exists j :: 0 <= j < |towers| && Attackable(u, towers[j])) ==>
      var t := UnitTarget(units, towers, u);
      && t.OnTower?
      && Attackable(u, towers[t.index])
      && (forall j :: 0 <= j < |towers| && Attackable(u, towers[j]) ==> DistSq(u.pos, towers[t.index].pos) <= DistSq(u.pos, towers[j].pos))
      && (forall j :: 0 <= j < t.index && Attackable(u, towers[j]) ==> DistSq(u.pos, towers[t.index].pos) < DistSq(u.pos, towers[j].pos))
    ensures UnitTarget(units, towers, u).NoTarget? <==>
      (forall j :: 0 <= j < |units| ==> !InAggro(u, units[j])) && (forall j :: 0 <= j < |towers| ==> !Attackable(u, towers[j]))
  {
    AggroScanNearestFirst(units, u, |units|);
    TowerScanNearestFirst(towers, u, |towers|);
  }

  /** The unit-targeting loops: minDist starts at infinity (`found` false),
      first over the units, then, if nothing was found, over the towers. */
  method SelectUnitTarget(units: seq<Unit>, towers: seq<Tower>, u: Unit) returns (t: Target)
    ensures t == UnitTarget(units, towers, u)
  {
    var found := false;
    var best := 0;
    var minSq := 0.0;
    var k := 0;
    while k < |units|
      invariant 0 <= k <= |units|
      invariant AggroScan(units, u, k) == if found then Some(best) else None
      invariant found ==> best < |units| && minSq == DistSq(u.pos, units[best].pos)
    {
      var e := units[k];
      if e.owner != u.owner {
        var d := DistSq(u.pos, e.pos);
        if d < AggroRadiusSq && (!found || d < minSq) {
          found, best, minSq := true, k, d;
        }
      }
      k := k + 1;
    }
    if found {
      return OnUnit(best);
    }
    k := 0;
    while k < |towers|
      invariant 0 <= k <= |towers|
      invariant TowerScan(towers, u, k) == if found then Some(best) else None
      invariant found ==> best < |towers| && minSq == DistSq(u.pos, towers[best].pos)
    {
      var tw := towers[k];
      if tw.owner != u.owner && tw.hp > 0 {
        var d := DistSq(u.pos, tw.pos);
        if !found || d < minSq {
          found, best, minSq := true, k, d;
        }
      }
      k := k + 1;
    }
    t := if found then OnTower(best) else NoTarget;
  }

  /** The tower-targeting loop: minDist starts at the tower's range. */
  method SelectTowerTarget(units: seq<Unit>, tw: Tower) returns (r: Option<nat>)
    ensures r == TowerTarget(units, tw)
  {
    r := None;
    var minSq := tw.range * tw.range;
    var k := 0;
    while k < |units|
      invariant 0 <= k <= |units|
      invariant RangeScan(units, tw, k) == r
      invariant minSq == if r.None? then tw.range * tw.range else DistSq(tw.pos, units[r.value].pos)
    {
      var e := units[k];
      if e.owner != tw.owner {
        var d := DistSq(tw.pos, e.pos);
        if d <= minSq {
          minSq := d;
          r := Some(k);
        }
      }
      k := k + 1;
    }
  }
}

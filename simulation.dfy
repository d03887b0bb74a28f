/** The mutable match record and its operations. Every method updates the
    fields step by step, as the simulation does, and is proved to produce
    the state the corresponding rule describes. */
module Simulation {
  import opened Entities
  import opened Targeting
  import opened Rules
  import opened Invariants
  import Properties

  class GameState {
    var p1: Option<SocketId>
    var p2: Option<SocketId>
    var playerData: map<SocketId, Economy>
    var units: seq<Unit>
    var towers: seq<Tower>
    var projectiles: seq<Projectile>
    var winner: Option<Winner>
    /** The source of fresh unit and shot ids. */
    var nextId: nat

    function Snapshot(): State
      reads this
    {
      State(p1, p2, playerData, units, towers, projectiles, winner, nextId)
    }

    ghost predicate Valid()
      reads this
    {
      ValidState(Snapshot())
    }

    constructor ()
      ensures Snapshot() == Initial(0) && Valid()
    {
      p1, p2 := None, None;
      playerData := map[];
      units, towers, projectiles := [], [], [];
      winner := None;
      nextId := 0;
      InitialValid(0);
    }

    method Reset()
      modifies this
      ensures Snapshot() == Initial(old(nextId)) && Valid()
    {
      p1, p2 := None, None;
      playerData := map[];
      units := [];
      towers := [];
      projectiles := [];
      winner := None;
      InitialValid(nextId);
    }

    method AddPlayer(id: SocketId, now: int) returns (role: JoinRole)
      requires Valid()
      modifies this
      ensures role == JoinRoleOf(old(Snapshot()))
      ensures Snapshot() == Join(old(Snapshot()), id, now)
      ensures Valid()
    {
      JoinPreservesValid(Snapshot(), id, now);
      if !Occupied(p1) {
        p1 := Some(id);
        InitPlayer(id, P1, now);
        role := AsP1;
      } else if !Occupied(p2) {
        p2 := Some(id);
        InitPlayer(id, P2, now);
        role := AsP2;
      } else {
        role := Spectator;
      }
    }

    method InitPlayer(id: SocketId, role: Role, now: int)
      modifies this
      ensures Snapshot() == Rules.InitPlayer(old(Snapshot()), id, role, now)
    {
      playerData := playerData[id := Economy(role, StartGold, MaxGold, now)];
      var xBase := if role == P1 then 80.0 else 720.0;
      var xFront := if role == P1 then 180.0 else 620.0;
      var k := TowerStatsOf(King);
      towers := towers + [Tower("king-" + RoleName(role), role, King, Point(xBase, 300.0),
                                k.hp, k.hp, k.range, k.damage, k.fireRate, 0)];
      var p := TowerStatsOf(Princess);
      var ys := [100.0, 500.0];
      for i := 0 to 2
        invariant towers == old(towers) + RoleTowers(role)[..i + 1]
        invariant playerData == old(playerData)[id := Economy(role, StartGold, MaxGold, now)]
        invariant Snapshot() == old(Snapshot()).(playerData := playerData, towers := towers)
      {
        var tag := if i == 0 then "0" else "1";
        assert RoleTowers(role)[..i + 2] == RoleTowers(role)[..i + 1] + [RoleTowers(role)[i + 1]];
        assert "princess-" + RoleName(role) + "-" + tag == "princess-" + RoleName(role) + ("-" + tag);
        assert RoleTowers(role)[i + 1] == Tower("princess-" + RoleName(role) + "-" + tag, role, Princess, Point(xFront, ys[i]),
                                               p.hp, p.hp, p.range, p.damage, p.fireRate, 0);
        towers := towers + [Tower("princess-" + RoleName(role) + "-" + tag, role, Princess, Point(xFront, ys[i]),
                                  p.hp, p.hp, p.range, p.damage, p.fireRate, 0)];
      }
    }

    method RemovePlayer(id: SocketId)
      requires Valid()
      modifies this
      ensures Snapshot() == Leave(old(Snapshot()), id)
      ensures Valid()
    {
      LeavePreservesValid(Snapshot(), id);
      if p1 == Some(id) {
        p1 := None;
      }
      if p2 == Some(id) {
        p2 := None;
      }
      playerData := playerData - {id};
    }

    method SpawnUnit(id: SocketId, kind: string, x: real, y: real)
      requires Valid()
      modifies this
      ensures Snapshot() == Spawn(old(Snapshot()), id, kind, x, y)
      ensures Valid()
    {
      SpawnPreservesValid(Snapshot(), id, kind, x, y);
      if id !in playerData || winner.Some? {
        return;
      }
      var player := playerData[id];
      var stats := UnitType(kind);
      if stats.None? {
        return;
      }
      var st := stats.value;
      if player.gold < st.cost {
        return;
      }
      if player.role == P1 && x > GameWidth / 2.0 - SpawnMargin {
        return;
      }
      if player.role == P2 && x < GameWidth / 2.0 + SpawnMargin {
        return;
      }
      playerData := playerData[id := player.(gold := player.gold - st.cost)];
      units := units + [Unit(nextId, player.role, kind, Point(x, y), st.hp, st.hp,
                             if player.role == P1 then st.speed else -st.speed,
                             st.damage, st.range, st.radius, if st.cooldown != 0 then st.cooldown else 1000, 0)];
      nextId := nextId + 1;
    }

    /** One tick at time `now`; `step` moves a unit toward a point. */
    method Update(now: int, step: Step)
      requires Valid()
      modifies this
      ensures Snapshot() == Tick(old(Snapshot()), now, step)
      ensures Valid()
    {
      TickPreservesValid(Snapshot(), now, step);
      if winner.Some? {
        return;
      }
      DecayProjectiles();
      PayIncome(now);
      ghost var a := Snapshot();
      RunUnits(now, step);
      Properties.UnitPhaseFrame(a, |a.units|, now, step);
      ghost var b := Snapshot();
      RunTowers(now);
      Properties.TowerPhaseFrame(b, |b.towers|, now);
      RemoveDead();
      CheckWinner();
    }

    /** Ages every shot and drops the spent ones. */
    method DecayProjectiles()
      modifies this
      ensures Snapshot() == old(Snapshot()).(projectiles := Decayed(old(projectiles)))
    {
      projectiles := DecayInPlace(projectiles);
    }

    /** Pays every player whose interval has elapsed. */
    method PayIncome(now: int)
      modifies this
      ensures Snapshot() == old(Snapshot()).(playerData := Income(old(playerData), now))
    {
      var pending := playerData.Keys;
      while pending != {}
        invariant pending <= old(playerData).Keys
        invariant playerData.Keys == old(playerData).Keys
        invariant forall k :: k in playerData ==>
          playerData[k] == if k in pending then old(playerData)[k] else Accrue(old(playerData)[k], now)
        invariant Snapshot() == old(Snapshot()).(playerData := playerData)
        decreases pending
      {
        var k :| k in pending;
        var p := playerData[k];
        if now - p.lastIncome >= IncomeInterval {
          if p.gold < p.maxGold {
            p := p.(gold := p.gold + IncomeAmount);
          }
          p := p.(lastIncome := now);
          playerData := playerData[k := p];
        }
        pending := pending - {k};
      }
      assert playerData == Income(old(playerData), now);
    }

    /** Every unit in list order takes its turn. */
    method RunUnits(now: int, step: Step)
      modifies this
      ensures Snapshot() == UnitPhase(old(Snapshot()), |old(units)|, now, step)
    {
      var i := 0;
      while i < |units|
        invariant 0 <= i <= |old(units)| == |units|
        invariant Snapshot() == UnitPhase(old(Snapshot()), i, now, step)
      {
        ActUnit(i, now, step);
        UnitPhaseNext(old(Snapshot()), i + 1, now, step);
        i := i + 1;
      }
    }

    /** Unit `i` picks a target, then attacks it, steps toward it, or
        advances along its lane. */
    method ActUnit(i: nat, now: int, step: Step)
      requires i < |units|
      modifies this
      ensures Snapshot() == UnitAct(old(Snapshot()), i, now, step)
    {
      var u := units[i];
      var target := SelectUnitTarget(units, towers, u);
      match target {
        case NoTarget =>
          units := units[i := u.(pos := Point(u.pos.x + Forward(u.owner) * Abs(u.speed), u.pos.y))];
        case OnUnit(j) =>
          EngageUnit(i, j, now, step);
        case OnTower(j) =>
          EngageTower(i, j, now, step);
      }
    }

    /** Unit `i` against unit `j`. */
    method EngageUnit(i: nat, j: nat, now: int, step: Step)
      requires i < |units| && j < |units|
      modifies this
      ensures Snapshot() == Rules.EngageUnit(old(Snapshot()), i, j, now, step)
    {
      var u := units[i];
      var e := units[j];
      var attackRange := u.range + UnitRadius(e);
      if DistSq(u.pos, e.pos) <= attackRange * attackRange {
        if now - u.lastAttack > u.cooldown {
          units := units[j := units[j].(hp := units[j].hp - u.damage)];
          units := units[i := units[i].(lastAttack := now)];
          projectiles := projectiles + [Projectile(nextId, u.pos, e.pos, UnitShotLife)];
          nextId := nextId + 1;
        }
      } else {
        units := units[i := u.(pos := step(u.pos, e.pos, Abs(u.speed)))];
      }
    }

    /** Unit `i` against tower `j`. */
    method EngageTower(i: nat, j: nat, now: int, step: Step)
      requires i < |units| && j < |towers|
      modifies this
      ensures Snapshot() == Rules.EngageTower(old(Snapshot()), i, j, now, step)
    {
      var u := units[i];
      var t := towers[j];
      var attackRange := u.range + TowerRadius(t.kind);
      if DistSq(u.pos, t.pos) <= attackRange * attackRange {
        if now - u.lastAttack > u.cooldown {
          towers := towers[j := t.(hp := t.hp - u.damage)];
          units := units[i := u.(lastAttack := now)];
          projectiles := projectiles + [Projectile(nextId, u.pos, t.pos, UnitShotLife)];
          nextId := nextId + 1;
        }
      } else {
        units := units[i := u.(pos := step(u.pos, t.pos, Abs(u.speed)))];
      }
    }

    /** Every tower in list order takes its turn. */
    method RunTowers(now: int)
      modifies this
      ensures Snapshot() == TowerPhase(old(Snapshot()), |old(towers)|, now)
    {
      var j := 0;
      while j < |towers|
        invariant 0 <= j <= |old(towers)| == |towers|
        invariant Snapshot() == TowerPhase(old(Snapshot()), j, now)
      {
        ActTower(j, now);
        TowerPhaseNext(old(Snapshot()), j + 1, now);
        j := j + 1;
      }
    }

    /** A standing tower whose fire rate has elapsed shoots its target. */
    method ActTower(j: nat, now: int)
      requires j < |towers|
      modifies this
      ensures Snapshot() == TowerAct(old(Snapshot()), j, now)
    {
      var t := towers[j];
      if t.hp <= 0 || now - t.lastShot <= t.fireRate {
        return;
      }
      var target := SelectTowerTarget(units, t);
      if target.Some? {
        var i := target.value;
        var e := units[i];
        units := units[i := e.(hp := e.hp - t.damage)];
        towers := towers[j := t.(lastShot := now)];
        projectiles := projectiles + [Projectile(nextId, t.pos, e.pos, TowerShotLife)];
        nextId := nextId + 1;
      }
    }

    /** Removes the units at hp <= 0. */
    method RemoveDead()
      modifies this
      ensures Snapshot() == old(Snapshot()).(units := Living(old(units)))
    {
      units := RemoveDeadInPlace(units);
    }

    /** Decides the match from the kings' survival. */
    method CheckWinner()
      requires winner.None?
      modifies this
      ensures Snapshot() == old(Snapshot()).(winner := WinCheck(KingAlive(towers, P1), KingAlive(towers, P2), p1, p2))
    {
      var p1Alive, p2Alive := KingStatus(towers);
      if !p1Alive && Occupied(p1) {
        winner := Some(Player2);
      } else if !p2Alive && Occupied(p2) {
        winner := Some(Player1);
      }
    }
  }

  /** The projectile loop: walks the list from the back, ages each shot and
      splices out the ones whose life is spent. */
  method DecayInPlace(projectiles: seq<Projectile>) returns (ps: seq<Projectile>)
    ensures ps == Decayed(projectiles)
  {
    ps := projectiles;
    var i := |ps|;
    while i > 0
      invariant 0 <= i <= |projectiles|
      invariant ps == projectiles[..i] + Decayed(projectiles[i..])
    {
      i := i - 1;
      DecayedCons(projectiles, i);
      ghost var rest := Decayed(projectiles[i + 1..]);
      assert ps == projectiles[..i] + [projectiles[i]] + rest by {
        assert projectiles[..i + 1] == projectiles[..i] + [projectiles[i]];
      }
      var p := ps[i].(life := ps[i].life - ProjectileDecay);
      if p.life <= 0 {
        assert ps[..i] == projectiles[..i];
        assert ps[i + 1..] == rest;
        ps := ps[..i] + ps[i + 1..];
      } else {
        ps := ps[i := p];
        assert ps == projectiles[..i] + [p] + rest;
      }
    }
    assert projectiles[0..] == projectiles;
  }

  lemma DecayedCons(ps: seq<Projectile>, i: nat)
    requires i < |ps|
    ensures Decayed(ps[i..]) == (if Aged(ps[i]).life > 0 then [Aged(ps[i])] else []) + Decayed(ps[i + 1..])
  {
    assert ps[i..][1..] == ps[i + 1..];
  }

  /** The cleanup loop: walks the list from the back and splices out every
      unit at hp <= 0. */
  method RemoveDeadInPlace(units: seq<Unit>) returns (us: seq<Unit>)
    ensures us == Living(units)
  {
    us := units;
    var i := |us|;
    while i > 0
      invariant 0 <= i <= |units|
      invariant us == units[..i] + Living(units[i..])
    {
      i := i - 1;
      LivingCons(units, i);
      ghost var rest := Living(units[i + 1..]);
      assert us == units[..i] + [units[i]] + rest by {
        assert units[..i + 1] == units[..i] + [units[i]];
      }
      if us[i].hp <= 0 {
        assert us[..i] == units[..i];
        assert us[i + 1..] == rest;
        us := us[..i] + us[i + 1..];
      }
    }
    assert units[0..] == units;
  }

  lemma LivingCons(us: seq<Unit>, i: nat)
    requires i < |us|
    ensures Living(us[i..]) == (if us[i].hp > 0 then [us[i]] else []) + Living(us[i + 1..])
  {
    assert us[i..][1..] == us[i + 1..];
  }

  lemma UnitPhaseNext(s: State, k: nat, now: int, step: Step)
    requires 0 < k <= |s.units|
    ensures UnitPhase(s, k, now, step) == UnitAct(UnitPhase(s, k - 1, now, step), k - 1, now, step)
  {
  }

  lemma TowerPhaseNext(s: State, k: nat, now: int)
    requires 0 < k <= |s.towers|
    ensures TowerPhase(s, k, now) == TowerAct(TowerPhase(s, k - 1, now), k - 1, now)
  {
  }

  /** A client run: the first participant takes p1 and buys a grunt. */
  method GruntScenario()
  {
    var g := new GameState();
    var role := g.AddPlayer("a", 0);
    assert role == AsP1;
    g.SpawnUnit("a", "GRUNT", 100.0, 300.0);
    assert g.playerData["a"].gold == 80;
    assert |g.units| == 1 && g.units[0].hp == 50;
  }
}

/** What each rule promises: join and leave, the towers a player gets, the
    spawn checks, income, projectile decay, cleanup, strikes and the tick. */
module Properties {
  import opened Entities
  import opened Targeting
  import opened Rules

  // ---- Join, initialisation and leave ------------------------------------

  /** The first free slot is taken; a third participant changes nothing. */
  lemma JoinFillsFirstFreeSlot(s: State, id: SocketId, now: int)
    ensures JoinRoleOf(s) == AsP1 <==> !Occupied(s.p1)
    ensures JoinRoleOf(s) == AsP2 <==> Occupied(s.p1) && !Occupied(s.p2)
    ensures JoinRoleOf(s) == Spectator ==> Join(s, id, now) == s
    ensures JoinRoleOf(s) == AsP1 ==>
      Join(s, id, now) == s.(p1 := Some(id), playerData := s.playerData[id := Economy(P1, 100, 100, now)],
                             towers := s.towers + RoleTowers(P1))
    ensures JoinRoleOf(s) == AsP2 ==>
      Join(s, id, now) == s.(p2 := Some(id), playerData := s.playerData[id := Economy(P2, 100, 100, now)],
                             towers := s.towers + RoleTowers(P2))
  {
  }

  /** Each role gets a full-health king at its baseline and two full-health
      princesses on its front line, and p2's layout mirrors p1's. */
  lemma RoleTowersLayout(role: Role)
    ensures |RoleTowers(role)| == 3
    ensures forall k :: 0 <= k < 3 ==>
      var t := RoleTowers(role)[k];
      t.owner == role && t.hp == t.maxHp == TowerStatsOf(t.kind).hp && t.lastShot == 0
    ensures RoleTowers(role)[0].kind == King
      && RoleTowers(role)[0].pos == Point(if role == P1 then 80.0 else 720.0, 300.0)
    ensures RoleTowers(role)[1].kind == Princess && RoleTowers(role)[2].kind == Princess
      && RoleTowers(role)[1].pos == Point(if role == P1 then 180.0 else 620.0, 100.0)
      && RoleTowers(role)[2].pos == Point(if role == P1 then 180.0 else 620.0, 500.0)
    ensures forall k :: 0 <= k < 3 ==>
      RoleTowers(P2)[k].pos == Point(GameWidth - RoleTowers(P1)[k].pos.x, RoleTowers(P1)[k].pos.y)
      && RoleTowers(P2)[k].kind == RoleTowers(P1)[k].kind
  {
  }

  /** Leaving frees every slot holding the identifier and drops its economy
      record; units, towers and everything else are untouched. */
  lemma LeaveFreesSlot(s: State, id: SocketId)
    ensures var r := Leave(s, id);
      && r.p1 != Some(id) && r.p2 != Some(id) && id !in r.playerData
      && (s.p1 != Some(id) ==> r.p1 == s.p1) && (s.p2 != Some(id) ==> r.p2 == s.p2)
      && (forall k :: k in s.playerData && k != id ==> k in r.playerData && r.playerData[k] == s.playerData[k])
      && r.playerData.Keys == s.playerData.Keys - {id}
      && r.units == s.units && r.towers == s.towers && r.projectiles == s.projectiles
      && r.winner == s.winner && r.nextId == s.nextId
  {
  }

  /** Joining an empty match and leaving again restores it, except for the
      three towers, which stay. */
  lemma JoinThenLeaveKeepsTowers(s: State, id: SocketId, now: int)
    requires s.p1 == None && s.p2 != Some(id) && id !in s.playerData
    ensures Leave(Join(s, id, now), id) == s.(towers := s.towers + RoleTowers(P1))
  {
    var j := Join(s, id, now);
    assert j.playerData - {id} == s.playerData;
  }

  /** The same for a second player joining beside a first. */
  lemma SecondJoinThenLeaveKeepsTowers(s: State, id: SocketId, now: int)
    requires Occupied(s.p1) && s.p1 != Some(id) && s.p2 == None && id !in s.playerData
    ensures Leave(Join(s, id, now), id) == s.(towers := s.towers + RoleTowers(P2))
  {
    var j := Join(s, id, now);
    assert j.playerData - {id} == s.playerData;
  }

  /** Towers outlive their owner: after p1 leaves and someone else takes the
      slot, the list holds two sets of p1 towers with the same ids. */
  lemma RejoinDuplicatesTowerIds(n: nat, a: SocketId, b: SocketId, t0: int, t1: int)
    requires a != "" && b != ""
    ensures var r := Join(Leave(Join(Initial(n), a, t0), a), b, t1);
      && r.p1 == Some(b) && |r.towers| == 6
      && r.towers[0].id == r.towers[3].id == "king-p1"
      && r.towers[0].owner == r.towers[3].owner == P1
  {
  }

  // ---- Spawn --------------------------------------------------------------

  /** A spawn changes the state exactly when every check passes; otherwise it
      is a no-op. */
  lemma SpawnChangesIffAccepted(s: State, id: SocketId, kind: string, x: real, y: real)
    ensures Spawn(s, id, kind, x, y) != s <==> SpawnAccepted(s, id, kind, x)
    ensures !SpawnAccepted(s, id, kind, x) ==> Spawn(s, id, kind, x, y) == s
  {
    if SpawnAccepted(s, id, kind, x) {
      assert |Spawn(s, id, kind, x, y).units| == |s.units| + 1;
    }
  }

  /** Each refusal of the source, one by one. */
  lemma SpawnRefusals(s: State, id: SocketId, kind: string, x: real, y: real)
    ensures id !in s.playerData ==> Spawn(s, id, kind, x, y) == s
    ensures s.winner.Some? ==> Spawn(s, id, kind, x, y) == s
    ensures UnitType(kind).None? ==> Spawn(s, id, kind, x, y) == s
    ensures id in s.playerData && UnitType(kind).Some? && s.playerData[id].gold < UnitType(kind).value.cost
      ==> Spawn(s, id, kind, x, y) == s
    ensures id in s.playerData && s.playerData[id].role == P1 && x > 380.0 ==> Spawn(s, id, kind, x, y) == s
    ensures id in s.playerData && s.playerData[id].role == P2 && x < 420.0 ==> Spawn(s, id, kind, x, y) == s
  {
  }

  /** An accepted spawn takes exactly the cost, leaves gold non-negative and
      appends one unit at full health, moving toward the enemy, never having
      attacked. */
  lemma SpawnEffect(s: State, id: SocketId, kind: string, x: real, y: real)
    requires SpawnAccepted(s, id, kind, x)
    ensures var r := Spawn(s, id, kind, x, y);
      var st := UnitType(kind).value;
      var e := s.playerData[id];
      && r.playerData == s.playerData[id := e.(gold := e.gold - st.cost)]
      && r.playerData[id].gold >= 0
      && |r.units| == |s.units| + 1 && r.units[..|s.units|] == s.units
      && r.towers == s.towers && r.projectiles == s.projectiles
      && r.p1 == s.p1 && r.p2 == s.p2 && r.winner == s.winner && r.nextId == s.nextId + 1
    ensures var r := Spawn(s, id, kind, x, y);
      var st := UnitType(kind).value;
      var e := s.playerData[id];
      var u := r.units[|s.units|];
      && u.id == s.nextId && u.owner == e.role && u.kind == kind && u.pos == Point(x, y)
      && u.hp == u.maxHp == st.hp && u.lastAttack == 0
      && u.damage == st.damage && u.range == st.range && u.cooldown == st.cooldown
      && u.radius == st.radius && u.speed == (if e.role == P1 then st.speed else -st.speed)
      && (e.role == P1 ==> u.speed > 0.0) && (e.role == P2 ==> u.speed < 0.0)
  {
  }

  /** A grunt bought with 100 gold leaves 80 gold and one 50-hp unit. */
  lemma GruntPurchase(s: State)
    requires s.winner.None? && "a" in s.playerData && s.playerData["a"] == Economy(P1, 100, 100, 0)
    ensures var r := Spawn(s, "a", "GRUNT", 100.0, 300.0);
      r.playerData["a"].gold == 80 && |r.units| == |s.units| + 1 && r.units[|s.units|].hp == 50
  {
  }

  // ---- Income -------------------------------------------------------------

  /** Income adds exactly 2 when the interval has elapsed and gold is under
      the cap, and re-stamps whenever the interval has elapsed. */
  lemma AccrueRule(e: Economy, now: int)
    ensures var r := Accrue(e, now);
      && r.gold == e.gold + (if now - e.lastIncome >= 1000 && e.gold < e.maxGold then 2 else 0)
      && r.lastIncome == (if now - e.lastIncome >= 1000 then now else e.lastIncome)
      && r.role == e.role && r.maxGold == e.maxGold
  {
  }

  /** Income is paid at most once per interval: a second accrual less than an
      interval after one that fired changes nothing. */
  lemma AccrueOncePerInterval(e: Economy, now: int, later: int)
    requires now - e.lastIncome >= IncomeInterval
    requires later - now < IncomeInterval
    ensures Accrue(Accrue(e, now), later) == Accrue(e, now)
  {
  }

  /** Every player is paid independently by the same rule; no record is
      added or removed. */
  lemma IncomeEveryPlayer(pd: map<SocketId, Economy>, now: int)
    ensures Income(pd, now).Keys == pd.Keys
    ensures forall k :: k in pd ==> Income(pd, now)[k] == Accrue(pd[k], now)
  {
  }

  // ---- Projectile decay ---------------------------------------------------

  /** Exactly the projectiles whose aged life stays positive survive, each
      with its life reduced by 20. */
  lemma {:induction false} DecayedMembers(ps: seq<Projectile>)
    ensures forall q :: q in Decayed(ps) <==> exists p :: p in ps && q == Aged(p) && q.life > 0
  {
    if ps != [] {
      DecayedMembers(ps[1..]);
      assert ps == [ps[0]] + ps[1..];
      forall q | q in Decayed(ps)
        ensures exists p :: p in ps && q == Aged(p) && q.life > 0
      {
        if q !in Decayed(ps[1..]) {
          assert q == Aged(ps[0]) && q.life > 0;
        } else {
          var p :| p in ps[1..] && q == Aged(p) && q.life > 0;
          assert p in ps;
        }
      }
      forall q | exists p :: p in ps && q == Aged(p) && q.life > 0
        ensures q in Decayed(ps)
      {
        var p :| p in ps && q == Aged(p) && q.life > 0;
        if p != ps[0] {
          assert p in ps[1..];
        }
      }
    }
  }

  /** Decay works element by element, so it keeps the order. */
  lemma {:induction false} DecayedAppend(a: seq<Projectile>, b: seq<Projectile>)
    ensures Decayed(a + b) == Decayed(a) + Decayed(b)
  {
    if a == [] {
      assert a + b == b;
    } else {
      assert (a + b)[0] == a[0];
      assert (a + b)[1..] == a[1..] + b;
      DecayedAppend(a[1..], b);
    }
  }

  // ---- Cleanup ------------------------------------------------------------

  /** Cleanup keeps exactly the units with hp > 0. */
  lemma {:induction false} LivingMembers(us: seq<Unit>)
    ensures forall u :: u in Living(us) <==> u in us && u.hp > 0
  {
    if us != [] {
      LivingMembers(us[1..]);
      assert us == [us[0]] + us[1..];
    }
  }

  /** Cleanup keeps the relative order: it distributes over concatenation. */
  lemma {:induction false} LivingAppend(a: seq<Unit>, b: seq<Unit>)
    ensures Living(a + b) == Living(a) + Living(b)
  {
    if a == [] {
      assert a + b == b;
    } else {
      assert (a + b)[0] == a[0];
      assert (a + b)[1..] == a[1..] + b;
      LivingAppend(a[1..], b);
    }
  }

  /** Cleaning up twice is cleaning up once. */
  lemma {:induction false} LivingIdempotent(us: seq<Unit>)
    ensures Living(Living(us)) == Living(us)
  {
    if us != [] {
      LivingIdempotent(us[1..]);
      var head := if us[0].hp > 0 then [us[0]] else [];
      LivingAppend(head, Living(us[1..]));
      assert Living(head) == head;
    }
  }

  // ---- Strikes --------------------------------------------------------------

  function TargetPos(s: State, t: Target): Point
    requires t.OnUnit? ==> t.index < |s.units|
    requires t.OnTower? ==> t.index < |s.towers|
  {
    match t
    case NoTarget => Point(0.0, 0.0)
    case OnUnit(j) => s.units[j].pos
    case OnTower(j) => s.towers[j].pos
  }

  function TargetRadius(s: State, t: Target): real
    requires t.OnUnit? ==> t.index < |s.units|
    requires t.OnTower? ==> t.index < |s.towers|
  {
    match t
    case NoTarget => 0.0
    case OnUnit(j) => UnitRadius(s.units[j])
    case OnTower(j) => TowerRadius(s.towers[j].kind)
  }

  /** Unit `i` has a target within its range plus the target's radius, and
      more than its cooldown has passed since its last attack. */
  predicate Strikes(s: State, i: nat, now: int)
    requires i < |s.units|
  {
    var u := s.units[i];
    var t := UnitTarget(s.units, s.towers, u);
    && !t.NoTarget?
    && DistSq(u.pos, TargetPos(s, t)) <= ReachSq(u, TargetRadius(s, t))
    && now - u.lastAttack > u.cooldown
  }

  /** A strike takes exactly the unit's damage off its target, stamps the
      attack time and emits one short-lived shot; nothing else loses hp,
      and the striker stays where it is. A unit that does not strike changes
      no hp, no tower and no shot, and at most its own position. */
  lemma UnitActEffect(s: State, i: nat, now: int, step: Step)
    requires i < |s.units|
    ensures var u := s.units[i];
      var t := UnitTarget(s.units, s.towers, u);
      var r := UnitAct(s, i, now, step);
      Strikes(s, i, now) ==>
        && r.units[i].lastAttack == now
        && r.projectiles == s.projectiles + [Projectile(s.nextId, u.pos, TargetPos(s, t), UnitShotLife)]
        && r.nextId == s.nextId + 1
        && (forall k :: 0 <= k < |s.units| ==>
              r.units[k].hp == s.units[k].hp - (if t == OnUnit(k) then u.damage else 0))
        && (forall k :: 0 <= k < |s.towers| ==>
              r.towers[k] == if t == OnTower(k) then s.towers[k].(hp := s.towers[k].hp - u.damage) else s.towers[k])
        && (forall k :: 0 <= k < |s.units| ==>
              r.units[k] == if k == i then u.(lastAttack := now)
                            else if t == OnUnit(k) then s.units[k].(hp := s.units[k].hp - u.damage)
                            else s.units[k])
    ensures var r := UnitAct(s, i, now, step);
      !Strikes(s, i, now) ==>
        && r.towers == s.towers && r.projectiles == s.projectiles && r.nextId == s.nextId
        && (forall k :: 0 <= k < |s.units| ==> r.units[k] == if k == i then s.units[i].(pos := r.units[i].pos) else s.units[k])
    ensures UnitAct(s, i, now, step).p1 == s.p1 && UnitAct(s, i, now, step).p2 == s.p2
      && UnitAct(s, i, now, step).playerData == s.playerData && UnitAct(s, i, now, step).winner == s.winner
  {
    if Strikes(s, i, now) {
      UnitActStrike(s, i, now, step);
    } else {
      UnitActIdle(s, i, now, step);
    }
  }

  lemma UnitActStrike(s: State, i: nat, now: int, step: Step)
    requires i < |s.units| && Strikes(s, i, now)
    ensures var u := s.units[i];
      var t := UnitTarget(s.units, s.towers, u);
      var r := UnitAct(s, i, now, step);
      && r.units[i].lastAttack == now
      && r.projectiles == s.projectiles + [Projectile(s.nextId, u.pos, TargetPos(s, t), UnitShotLife)]
      && r.nextId == s.nextId + 1
      && (forall k :: 0 <= k < |s.units| ==>
            r.units[k].hp == s.units[k].hp - (if t == OnUnit(k) then u.damage else 0))
      && (forall k :: 0 <= k < |s.towers| ==>
            r.towers[k] == if t == OnTower(k) then s.towers[k].(hp := s.towers[k].hp - u.damage) else s.towers[k])
      && (forall k :: 0 <= k < |s.units| ==>
            r.units[k] == if k == i then u.(lastAttack := now)
                          else if t == OnUnit(k) then s.units[k].(hp := s.units[k].hp - u.damage)
                          else s.units[k])
  {
    match UnitTarget(s.units, s.towers, s.units[i])
    case OnUnit(j) => EngageUnitStrike(s, i, j, now, step);
    case OnTower(j) => EngageTowerStrike(s, i, j, now, step);
  }

  /** A strike on an enemy unit `j`. */
  lemma EngageUnitStrike(s: State, i: nat, j: nat, now: int, step: Step)
    requires i < |s.units| && j < |s.units| && s.units[j].owner != s.units[i].owner
    requires DistSq(s.units[i].pos, s.units[j].pos) <= ReachSq(s.units[i], UnitRadius(s.units[j]))
    requires now - s.units[i].lastAttack > s.units[i].cooldown
    ensures var u := s.units[i];
      var r := EngageUnit(s, i, j, now, step);
      && r.towers == s.towers && r.nextId == s.nextId + 1
      && r.projectiles == s.projectiles + [Projectile(s.nextId, u.pos, s.units[j].pos, UnitShotLife)]
      && (forall k :: 0 <= k < |s.units| ==>
            r.units[k] == if k == i then u.(lastAttack := now)
                          else if k == j then s.units[k].(hp := s.units[k].hp - u.damage)
                          else s.units[k])
  {
  }

  /** A strike on an enemy tower `j`. */
  lemma EngageTowerStrike(s: State, i: nat, j: nat, now: int, step: Step)
    requires i < |s.units| && j < |s.towers|
    requires DistSq(s.units[i].pos, s.towers[j].pos) <= ReachSq(s.units[i], TowerRadius(s.towers[j].kind))
    requires now - s.units[i].lastAttack > s.units[i].cooldown
    ensures var u := s.units[i];
      var r := EngageTower(s, i, j, now, step);
      && r.towers == s.towers[j := s.towers[j].(hp := s.towers[j].hp - u.damage)]
      && r.units == s.units[i := u.(lastAttack := now)]
      && r.nextId == s.nextId + 1
      && r.projectiles == s.projectiles + [Projectile(s.nextId, u.pos, s.towers[j].pos, UnitShotLife)]
  {
  }

  lemma UnitActIdle(s: State, i: nat, now: int, step: Step)
    requires i < |s.units| && !Strikes(s, i, now)
    ensures var r := UnitAct(s, i, now, step);
      && r.towers == s.towers && r.projectiles == s.projectiles && r.nextId == s.nextId
      && (forall k :: 0 <= k < |s.units| ==> r.units[k] == if k == i then s.units[i].(pos := r.units[i].pos) else s.units[k])
  {
  }

  /** The three ways a unit may not strike are kept apart: with no target it
      advances exactly one step along its lane; within reach but still
      cooling down it waits and nothing changes; out of reach it steps toward
      its target. */
  lemma UnitActBranches(s: State, i: nat, now: int, step: Step)
    requires i < |s.units|
    ensures var u := s.units[i];
      var t := UnitTarget(s.units, s.towers, u);
      var r := UnitAct(s, i, now, step);
      && (t.NoTarget? ==>
            r == s.(units := s.units[i := u.(pos := Point(u.pos.x + Forward(u.owner) * Abs(u.speed), u.pos.y))]))
      && ((!t.NoTarget? && DistSq(u.pos, TargetPos(s, t)) <= ReachSq(u, TargetRadius(s, t))
           && now - u.lastAttack <= u.cooldown) ==> r == s)
      && (!t.NoTarget? && DistSq(u.pos, TargetPos(s, t)) > ReachSq(u, TargetRadius(s, t)) ==>
            r == s.(units := s.units[i := u.(pos := step(u.pos, TargetPos(s, t), Abs(u.speed)))]))
  {
  }

  /** The cooldown gate: a unit that has just struck cannot strike again at
      any time not more than its cooldown later. */
  lemma NoSecondStrikeWithinCooldown(s: State, i: nat, now: int, later: int, step: Step)
    requires i < |s.units| && Strikes(s, i, now)
    requires later - now <= s.units[i].cooldown
    ensures !Strikes(UnitAct(s, i, now, step), i, later)
  {
    UnitActEffect(s, i, now, step);
  }

  /** A tower fires when it stands, its fire rate has elapsed and an enemy
      unit is within its range. */
  predicate Fires(s: State, j: nat, now: int)
    requires j < |s.towers|
  {
    var t := s.towers[j];
    t.hp > 0 && now - t.lastShot > t.fireRate && TowerTarget(s.units, t).Some?
  }

  /** A shot takes exactly the tower's damage off its target unit, stamps
      the shot time and emits one long-lived shot; otherwise nothing changes. */
  lemma TowerActEffect(s: State, j: nat, now: int)
    requires j < |s.towers|
    ensures var t := s.towers[j];
      var r := TowerAct(s, j, now);
      Fires(s, j, now) ==>
        var i := TowerTarget(s.units, t).value;
        && r.towers == s.towers[j := t.(lastShot := now)]
        && r.units == s.units[i := s.units[i].(hp := s.units[i].hp - t.damage)]
        && r.projectiles == s.projectiles + [Projectile(s.nextId, t.pos, s.units[i].pos, TowerShotLife)]
        && r.nextId == s.nextId + 1
    ensures !Fires(s, j, now) ==> TowerAct(s, j, now) == s
    ensures TowerAct(s, j, now).p1 == s.p1 && TowerAct(s, j, now).p2 == s.p2
      && TowerAct(s, j, now).playerData == s.playerData && TowerAct(s, j, now).winner == s.winner
  {
  }

  // ---- The tick -------------------------------------------------------------

  /** A phase may only append shots, and never touches slots, economy or the
      winner. */
  ghost predicate CombatFrame(s: State, r: State)
  {
    && r.p1 == s.p1 && r.p2 == s.p2 && r.playerData == s.playerData && r.winner == s.winner
    && |s.projectiles| <= |r.projectiles| && r.projectiles[..|s.projectiles|] == s.projectiles
    && s.nextId <= r.nextId
  }

  lemma CombatFrameTrans(a: State, b: State, c: State)
    requires CombatFrame(a, b) && CombatFrame(b, c)
    ensures CombatFrame(a, c)
  {
    assert c.projectiles[..|a.projectiles|] == c.projectiles[..|b.projectiles|][..|a.projectiles|];
  }

  lemma UnitActFrame(s: State, i: nat, now: int, step: Step)
    requires i < |s.units|
    ensures CombatFrame(s, UnitAct(s, i, now, step))
  {
    UnitActEffect(s, i, now, step);
  }

  lemma TowerActFrame(s: State, j: nat, now: int)
    requires j < |s.towers|
    ensures CombatFrame(s, TowerAct(s, j, now))
  {
    TowerActEffect(s, j, now);
  }

  lemma UnitPhaseStepFrame(s: State, k: nat, now: int, step: Step)
    requires 0 < k <= |s.units|
    ensures CombatFrame(UnitPhase(s, k - 1, now, step), UnitPhase(s, k, now, step))
  {
    UnitActFrame(UnitPhase(s, k - 1, now, step), k - 1, now, step);
  }

  lemma {:induction false} UnitPhaseFrame(s: State, k: nat, now: int, step: Step)
    requires k <= |s.units|
    ensures CombatFrame(s, UnitPhase(s, k, now, step))
  {
    if k > 0 {
      UnitPhaseFrame(s, k - 1, now, step);
      UnitPhaseStepFrame(s, k, now, step);
      CombatFrameTrans(s, UnitPhase(s, k - 1, now, step), UnitPhase(s, k, now, step));
    }
  }

  lemma {:induction false} TowerPhaseFrame(s: State, k: nat, now: int)
    requires k <= |s.towers|
    ensures CombatFrame(s, TowerPhase(s, k, now))
  {
    if k > 0 {
      var a := TowerPhase(s, k - 1, now);
      var b := TowerAct(a, k - 1, now);
      TowerPhaseFrame(s, k - 1, now);
      TowerActFrame(a, k - 1, now);
      CombatFrameTrans(s, a, b);
    }
  }

  /** A decided match is frozen: the tick changes nothing at all. */
  lemma TickFrozen(s: State, now: int, step: Step)
    ensures s.winner.Some? ==> Tick(s, now, step) == s
    ensures Tick(s, now, step).winner.Some? ==> Tick(Tick(s, now, step), now, step) == Tick(s, now, step)
  {
  }

  /** In a live match the tick pays income, keeps the slots, starts the shot
      list with the decayed old shots, keeps every tower, and leaves only
      units with hp > 0. */
  lemma TickOutline(s: State, now: int, step: Step)
    requires s.winner.None?
    ensures var r := Tick(s, now, step);
      && r.p1 == s.p1 && r.p2 == s.p2
      && r.playerData == Income(s.playerData, now)
      && |Decayed(s.projectiles)| <= |r.projectiles|
      && r.projectiles[..|Decayed(s.projectiles)|] == Decayed(s.projectiles)
      && |r.towers| == |s.towers|
      && (forall u :: u in r.units ==> u.hp > 0)
      && r.units == Living(Fought(s, now, step).units)
  {
    var a := Prepared(s, now);
    var b := UnitPhase(a, |a.units|, now, step);
    UnitPhaseFrame(a, |a.units|, now, step);
    TowerPhaseFrame(b, |b.towers|, now);
    CombatFrameTrans(a, b, TowerPhase(b, |b.towers|, now));
    LivingMembers(Fought(s, now, step).units);
  }

  /** The win check: p2 wins when p1 holds its slot and has no standing king;
      failing that p1 wins symmetrically; otherwise the match goes on. */
  lemma TickWinner(s: State, now: int, step: Step)
    requires s.winner.None?
    ensures var r := Tick(s, now, step);
      && (r.winner == Some(Player2) <==> Occupied(s.p1) && !KingAlive(r.towers, P1))
      && (r.winner == Some(Player1) <==>
            !(Occupied(s.p1) && !KingAlive(r.towers, P1)) && Occupied(s.p2) && !KingAlive(r.towers, P2))
      && (r.winner.None? <==>
            (KingAlive(r.towers, P1) || !Occupied(s.p1)) && (KingAlive(r.towers, P2) || !Occupied(s.p2)))
  {
    TickOutline(s, now, step);
  }

  // ---- Attack stamps across a tick ------------------------------------------

  /** Every unit keeps its identity and cooldown, and its attack stamp is
      either kept or renewed to `now`. */
  ghost predicate Restamped(a: seq<Unit>, b: seq<Unit>, now: int)
  {
    |b| == |a| &&
    forall k :: 0 <= k < |a| ==>
      b[k].id == a[k].id && b[k].cooldown == a[k].cooldown
      && (b[k].lastAttack == a[k].lastAttack || b[k].lastAttack == now)
  }

  /** One step of the units' loop: unit `i` may renew its own stamp to
      `now`; every other unit keeps its stamp, and all keep identity and
      cooldown. */
  ghost predicate StampStep(a: seq<Unit>, b: seq<Unit>, i: nat, now: int)
  {
    |b| == |a| &&
    forall k :: 0 <= k < |a| ==>
      b[k].id == a[k].id && b[k].cooldown == a[k].cooldown
      && (b[k].lastAttack == a[k].lastAttack || (k == i && b[k].lastAttack == now))
  }

  /** In a unit turn only the acting unit can renew its stamp. */
  lemma UnitActStamps(s: State, i: nat, now: int, step: Step)
    requires i < |s.units|
    ensures StampStep(s.units, UnitAct(s, i, now, step).units, i, now)
  {
    UnitActEffect(s, i, now, step);
  }

  /** One turn of the units' loop, stated on the loop itself. */
  lemma UnitPhaseStepStamps(s: State, n: nat, now: int, step: Step)
    requires 0 < n <= |s.units|
    ensures StampStep(UnitPhase(s, n - 1, now, step).units, UnitPhase(s, n, now, step).units, n - 1, now)
  {
    UnitActStamps(UnitPhase(s, n - 1, now, step), n - 1, now, step);
  }

  lemma RestampedStep(a: seq<Unit>, b: seq<Unit>, c: seq<Unit>, i: nat, now: int)
    requires Restamped(a, b, now) && StampStep(b, c, i, now)
    ensures Restamped(a, c, now)
  {
  }

  /** Through the units' loop, stamps are kept or renewed to `now`. */
  lemma {:induction false} UnitPhaseRestamps(s: State, n: nat, now: int, step: Step)
    requires n <= |s.units|
    ensures Restamped(s.units, UnitPhase(s, n, now, step).units, now)
  {
    if n > 0 {
      UnitPhaseRestamps(s, n - 1, now, step);
      UnitPhaseStepStamps(s, n, now, step);
      RestampedStep(s.units, UnitPhase(s, n - 1, now, step).units, UnitPhase(s, n, now, step).units, n - 1, now);
    }
  }

  /** A unit that has not yet acted in the loop still has its stamp and
      cooldown from the start of the loop. */
  lemma {:induction false} UnitPhaseKeepsPending(s: State, k: nat, m: nat, now: int, step: Step)
    requires k <= m < |s.units|
    ensures UnitPhase(s, k, now, step).units[m].lastAttack == s.units[m].lastAttack
    ensures UnitPhase(s, k, now, step).units[m].cooldown == s.units[m].cooldown
  {
    if k > 0 {
      UnitPhaseKeepsPending(s, k - 1, m, now, step);
      UnitPhaseStepStamps(s, k, now, step);
    }
  }

  /** Once unit `i` has had its turn, the later turns of the loop leave its
      identity, cooldown and stamp as that turn left them. */
  lemma {:induction false} UnitPhaseKeepsActed(s: State, i: nat, n: nat, now: int, step: Step)
    requires i < n <= |s.units|
    ensures UnitPhase(s, n, now, step).units[i].id == UnitPhase(s, i + 1, now, step).units[i].id
    ensures UnitPhase(s, n, now, step).units[i].cooldown == UnitPhase(s, i + 1, now, step).units[i].cooldown
    ensures UnitPhase(s, n, now, step).units[i].lastAttack == UnitPhase(s, i + 1, now, step).units[i].lastAttack
  {
    if n > i + 1 {
      UnitPhaseKeepsActed(s, i, n - 1, now, step);
      UnitPhaseStepStamps(s, n, now, step);
    }
  }

  /** A tower turn touches no unit's identity, cooldown or stamp. */
  lemma TowerActStamps(s: State, j: nat, now: int)
    requires j < |s.towers|
    ensures var r := TowerAct(s, j, now);
      forall k :: 0 <= k < |s.units| ==>
        r.units[k].id == s.units[k].id && r.units[k].cooldown == s.units[k].cooldown
        && r.units[k].lastAttack == s.units[k].lastAttack
  {
    TowerActEffect(s, j, now);
  }

  /** The towers' loop keeps every unit's identity, cooldown and stamp. */
  lemma {:induction false} TowerPhaseKeepsStamps(s: State, k: nat, now: int)
    requires k <= |s.towers|
    ensures forall m :: 0 <= m < |s.units| ==>
      TowerPhase(s, k, now).units[m].id == s.units[m].id
      && TowerPhase(s, k, now).units[m].cooldown == s.units[m].cooldown
      && TowerPhase(s, k, now).units[m].lastAttack == s.units[m].lastAttack
  {
    if k > 0 {
      TowerPhaseKeepsStamps(s, k - 1, now);
      TowerActStamps(TowerPhase(s, k - 1, now), k - 1, now);
    }
  }

  /** Combat keeps each unit's stamp or renews it to `now`. */
  lemma FoughtRestamps(s: State, now: int, step: Step)
    ensures Restamped(s.units, Fought(s, now, step).units, now)
  {
    var p := Prepared(s, now);
    var b := UnitPhase(p, |p.units|, now, step);
    UnitPhaseRestamps(p, |p.units|, now, step);
    TowerPhaseKeepsStamps(b, |b.towers|, now);
  }

  /** A unit that strikes on its turn comes out of combat stamped `now`,
      with its cooldown unchanged. */
  lemma StrikerStampedAfterFight(s: State, i: nat, now: int, step: Step)
    requires i < |s.units|
    requires Strikes(UnitPhase(Prepared(s, now), i, now, step), i, now)
    ensures Fought(s, now, step).units[i].lastAttack == now
    ensures Fought(s, now, step).units[i].cooldown == s.units[i].cooldown
  {
    var p := Prepared(s, now);
    var n := |p.units|;
    UnitActEffect(UnitPhase(p, i, now, step), i, now, step);
    UnitPhaseKeepsActed(p, i, n, now, step);
    UnitPhaseRestamps(p, n, now, step);
    var b := UnitPhase(p, n, now, step);
    TowerPhaseKeepsStamps(b, |b.towers|, now);
  }

  /** After a tick, every unit left is one that was there before, with the
      same cooldown and either the same stamp or the stamp `now`. */
  lemma TickRestamps(s: State, now: int, step: Step)
    requires s.winner.None?
    ensures forall u :: u in Tick(s, now, step).units ==>
      exists k :: (0 <= k < |s.units| && s.units[k].id == u.id && s.units[k].cooldown == u.cooldown
                   && (u.lastAttack == s.units[k].lastAttack || u.lastAttack == now))
  {
    var c := Fought(s, now, step);
    FoughtRestamps(s, now, step);
    LivingMembers(c.units);
    forall u | u in Tick(s, now, step).units
      ensures exists k :: (0 <= k < |s.units| && s.units[k].id == u.id && s.units[k].cooldown == u.cooldown
                           && (u.lastAttack == s.units[k].lastAttack || u.lastAttack == now))
    {
      var k :| 0 <= k < |c.units| && c.units[k] == u;
    }
  }

  /** In a tick at `later`, a unit whose last attack is not more than its
      cooldown before `later` does not strike on its turn. */
  lemma NoStrikeWithinCooldownInTick(s: State, i: nat, later: int, step: Step)
    requires i < |s.units| && later - s.units[i].lastAttack <= s.units[i].cooldown
    ensures !Strikes(UnitPhase(Prepared(s, later), i, later, step), i, later)
  {
    UnitPhaseKeepsPending(Prepared(s, later), i, i, later, step);
  }
}

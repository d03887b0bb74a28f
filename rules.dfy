/** The rules of the match as functions on a snapshot of the whole state:
    reset, join, player initialisation, leave, spawn, and the tick with its
    six phases in the order the simulation runs them. */
module Rules {
  import opened Entities
  import opened Targeting

  /** A snapshot of the match state. */
  datatype State = State(p1: Option<SocketId>, p2: Option<SocketId>,
                         playerData: map<SocketId, Economy>,
                         units: seq<Unit>, towers: seq<Tower>,
                         projectiles: seq<Projectile>,
                         winner: Option<Winner>, nextId: nat)

  /** What `addPlayer` answers. */
  datatype JoinRole = AsP1 | AsP2 | Spectator

  /** A player slot is taken when it holds a non-empty identifier (an empty
      identifier is falsy, so the slot counts as free). */
  predicate Occupied(slot: Option<SocketId>)
  {
    slot.Some? && slot.value != ""
  }

  /** The empty match; the id counter keeps running across resets. */
  function Initial(nextId: nat): State
  {
    State(None, None, map[], [], [], [], None, nextId)
  }

  /** The three towers of a role: the king on the baseline, two princesses
      on the front line. */
  function RoleTowers(role: Role): seq<Tower>
  {
    var xBase := if role == P1 then 80.0 else 720.0;
    var xFront := if role == P1 then 180.0 else 620.0;
    var k := TowerStatsOf(King);
    var p := TowerStatsOf(Princess);
    [ Tower("king-" + RoleName(role), role, King, Point(xBase, 300.0), k.hp, k.hp, k.range, k.damage, k.fireRate, 0),
      Tower("princess-" + RoleName(role) + "-0", role, Princess, Point(xFront, 100.0), p.hp, p.hp, p.range, p.damage, p.fireRate, 0),
      Tower("princess-" + RoleName(role) + "-1", role, Princess, Point(xFront, 500.0), p.hp, p.hp, p.range, p.damage, p.fireRate, 0) ]
  }

  /** A fresh economy record and the role's three towers. */
  function InitPlayer(s: State, id: SocketId, role: Role, now: int): State
  {
    s.(playerData := s.playerData[id := Economy(role, StartGold, MaxGold, now)],
       towers := s.towers + RoleTowers(role))
  }

  function JoinRoleOf(s: State): JoinRole
  {
    if !Occupied(s.p1) then AsP1
    else if !Occupied(s.p2) then AsP2
    else Spectator
  }

  function Join(s: State, id: SocketId, now: int): State
  {
    match JoinRoleOf(s)
    case AsP1 => InitPlayer(s.(p1 := Some(id)), id, P1, now)
    case AsP2 => InitPlayer(s.(p2 := Some(id)), id, P2, now)
    case Spectator => s
  }

  function Leave(s: State, id: SocketId): State
  {
    s.(p1 := if s.p1 == Some(id) then None else s.p1,
       p2 := if s.p2 == Some(id) then None else s.p2,
       playerData := s.playerData - {id})
  }

  /** Whether `x` lies in the half of the field where `role` may deploy. */
  predicate InOwnHalf(role: Role, x: real)
  {
    match role
    case P1 => x <= GameWidth / 2.0 - SpawnMargin
    case P2 => x >= GameWidth / 2.0 + SpawnMargin
  }

  /** A unit a spawn creates; a zero cooldown in the stats falls back to
      1000 ms. */
  function NewUnit(id: nat, role: Role, kind: string, st: UnitStats, x: real, y: real): Unit
  {
    Unit(id, role, kind, Point(x, y), st.hp, st.hp,
         if role == P1 then st.speed else -st.speed,
         st.damage, st.range, st.radius, if st.cooldown != 0 then st.cooldown else 1000, 0)
  }

  /** All checks of a spawn request pass. */
  predicate SpawnAccepted(s: State, id: SocketId, kind: string, x: real)
  {
    && id in s.playerData
    && s.winner.None?
    && UnitType(kind).Some?
    && s.playerData[id].gold >= UnitType(kind).value.cost
    && InOwnHalf(s.playerData[id].role, x)
  }

  function Spawn(s: State, id: SocketId, kind: string, x: real, y: real): State
  {
    if id !in s.playerData || s.winner.Some? then s
    else
      match UnitType(kind)
      case None => s
      case Some(st) =>
        var e := s.playerData[id];
        if e.gold < st.cost then s
        else if e.role == P1 && x > GameWidth / 2.0 - SpawnMargin then s
        else if e.role == P2 && x < GameWidth / 2.0 + SpawnMargin then s
        else
          s.(playerData := s.playerData[id := e.(gold := e.gold - st.cost)],
             units := s.units + [NewUnit(s.nextId, e.role, kind, st, x, y)],
             nextId := s.nextId + 1)
  }

  // ---- Tick phase 0: projectile decay ------------------------------------

  function Aged(p: Projectile): Projectile
  {
    p.(life := p.life - ProjectileDecay)
  }

  /** The projectiles that survive one tick, aged, in their order. */
  function Decayed(ps: seq<Projectile>): (r: seq<Projectile>)
    ensures |r| <= |ps|
  {
    if ps == [] then []
    else
      var p := Aged(ps[0]);
      (if p.life > 0 then [p] else []) + Decayed(ps[1..])
  }

  // ---- Tick phase 1: passive income --------------------------------------

  function Accrue(e: Economy, now: int): Economy
  {
    if now - e.lastIncome >= IncomeInterval then
      e.(gold := if e.gold < e.maxGold then e.gold + IncomeAmount else e.gold,
         lastIncome := now)
    else e
  }

  function Income(pd: map<SocketId, Economy>, now: int): map<SocketId, Economy>
  {
    map k | k in pd :: Accrue(pd[k], now)
  }

  // ---- Tick phase 2: units ------------------------------------------------

  function ReachSq(u: Unit, radius: real): real
  {
    (u.range + radius) * (u.range + radius)
  }

  /** A unit without a target advances along its lane at its speed. */
  function Advance(s: State, i: nat): (r: State)
    requires i < |s.units|
    ensures |r.units| == |s.units| && |r.towers| == |s.towers|
    ensures r.p1 == s.p1 && r.p2 == s.p2 && r.playerData == s.playerData && r.winner == s.winner
    ensures s.nextId <= r.nextId && |s.projectiles| <= |r.projectiles|
    ensures r.units[i].pos.x - s.units[i].pos.x == Forward(s.units[i].owner) * Abs(s.units[i].speed)
    ensures r.units[i].pos.y == s.units[i].pos.y && r.units[i] == s.units[i].(pos := r.units[i].pos)
    ensures forall k :: 0 <= k < |s.units| && k != i ==> r.units[k] == s.units[k]
    ensures r.towers == s.towers && r.projectiles == s.projectiles && r.nextId == s.nextId
  {
    var u := s.units[i];
    s.(units := s.units[i := u.(pos := Point(u.pos.x + Forward(u.owner) * Abs(u.speed), u.pos.y))])
  }

  /** Unit `i` against unit `j`: strike when in reach and off cooldown, wait
      when only in reach, otherwise step toward it. */
  function EngageUnit(s: State, i: nat, j: nat, now: int, step: Step): (r: State)
    requires i < |s.units| && j < |s.units|
    ensures |r.units| == |s.units| && |r.towers| == |s.towers|
    ensures r.p1 == s.p1 && r.p2 == s.p2 && r.playerData == s.playerData && r.winner == s.winner
    ensures s.nextId <= r.nextId && |s.projectiles| <= |r.projectiles|
  {
    var u := s.units[i];
    var e := s.units[j];
    if DistSq(u.pos, e.pos) <= ReachSq(u, UnitRadius(e)) then
      if now - u.lastAttack > u.cooldown then
        var hit := s.units[j := e.(hp := e.hp - u.damage)];
        s.(units := hit[i := hit[i].(lastAttack := now)],
           projectiles := s.projectiles + [Projectile(s.nextId, u.pos, e.pos, UnitShotLife)],
           nextId := s.nextId + 1)
      else s
    else s.(units := s.units[i := u.(pos := step(u.pos, e.pos, Abs(u.speed)))])
  }

  /** Unit `i` against tower `j`, reach measured to the tower's body. */
  function EngageTower(s: State, i: nat, j: nat, now: int, step: Step): (r: State)
    requires i < |s.units| && j < |s.towers|
    ensures |r.units| == |s.units| && |r.towers| == |s.towers|
    ensures r.p1 == s.p1 && r.p2 == s.p2 && r.playerData == s.playerData && r.winner == s.winner
    ensures s.nextId <= r.nextId && |s.projectiles| <= |r.projectiles|
  {
    var u := s.units[i];
    var t := s.towers[j];
    if DistSq(u.pos, t.pos) <= ReachSq(u, TowerRadius(t.kind)) then
      if now - u.lastAttack > u.cooldown then
        s.(towers := s.towers[j := t.(hp := t.hp - u.damage)],
           units := s.units[i := u.(lastAttack := now)],
           projectiles := s.projectiles + [Projectile(s.nextId, u.pos, t.pos, UnitShotLife)],
           nextId := s.nextId + 1)
      else s
    else s.(units := s.units[i := u.(pos := step(u.pos, t.pos, Abs(u.speed)))])
  }

  /** What unit `i` does in state `s`: attack a target within reach once its
      cooldown has elapsed, step toward a target out of reach, or advance
      along its lane when it has no target. */
  function UnitAct(s: State, i: nat, now: int, step: Step): (r: State)
    requires i < |s.units|
    ensures |r.units| == |s.units| && |r.towers| == |s.towers|
    ensures r.p1 == s.p1 && r.p2 == s.p2 && r.playerData == s.playerData && r.winner == s.winner
    ensures s.nextId <= r.nextId && |s.projectiles| <= |r.projectiles|
  {
    match UnitTarget(s.units, s.towers, s.units[i])
    case NoTarget => Advance(s, i)
    case OnUnit(j) => EngageUnit(s, i, j, now, step)
    case OnTower(j) => EngageTower(s, i, j, now, step)
  }

  /** Units 0 .. k-1 have acted, each seeing the effects of the ones before. */
  function UnitPhase(s: State, k: nat, now: int, step: Step): (r: State)
    requires k <= |s.units|
    ensures |r.units| == |s.units| && |r.towers| == |s.towers|
    ensures r.p1 == s.p1 && r.p2 == s.p2 && r.playerData == s.playerData && r.winner == s.winner
    ensures s.nextId <= r.nextId && |s.projectiles| <= |r.projectiles|
  {
    if k == 0 then s
    else UnitAct(UnitPhase(s, k - 1, now, step), k - 1, now, step)
  }

  // ---- Tick phase 3: towers -----------------------------------------------

  /** Tower `j` shoots unit `i`. */
  function Fire(s: State, j: nat, i: nat, now: int): (r: State)
    requires j < |s.towers| && i < |s.units|
    ensures |r.units| == |s.units| && |r.towers| == |s.towers|
    ensures r.p1 == s.p1 && r.p2 == s.p2 && r.playerData == s.playerData && r.winner == s.winner
    ensures s.nextId <= r.nextId && |s.projectiles| <= |r.projectiles|
  {
    var t := s.towers[j];
    var e := s.units[i];
    s.(units := s.units[i := e.(hp := e.hp - t.damage)],
       towers := s.towers[j := t.(lastShot := now)],
       projectiles := s.projectiles + [Projectile(s.nextId, t.pos, e.pos, TowerShotLife)],
       nextId := s.nextId + 1)
  }

  /** What tower `j` does: a standing tower whose fire rate has elapsed shoots
      its target, if it has one. */
  function TowerAct(s: State, j: nat, now: int): (r: State)
    requires j < |s.towers|
    ensures |r.units| == |s.units| && |r.towers| == |s.towers|
    ensures r.p1 == s.p1 && r.p2 == s.p2 && r.playerData == s.playerData && r.winner == s.winner
    ensures s.nextId <= r.nextId && |s.projectiles| <= |r.projectiles|
  {
    var t := s.towers[j];
    if t.hp <= 0 || now - t.lastShot <= t.fireRate then s
    else
      match TowerTarget(s.units, t)
      case None => s
      case Some(i) => Fire(s, j, i, now)
  }

  function TowerPhase(s: State, k: nat, now: int): (r: State)
    requires k <= |s.towers|
    ensures |r.units| == |s.units| && |r.towers| == |s.towers|
    ensures r.p1 == s.p1 && r.p2 == s.p2 && r.playerData == s.playerData && r.winner == s.winner
    ensures s.nextId <= r.nextId && |s.projectiles| <= |r.projectiles|
  {
    if k == 0 then s
    else TowerAct(TowerPhase(s, k - 1, now), k - 1, now)
  }

  // ---- Tick phase 4: cleanup ----------------------------------------------

  /** The units with hp > 0, in their order. */
  function Living(us: seq<Unit>): (r: seq<Unit>)
    ensures |r| <= |us|
  {
    if us == [] then []
    else (if us[0].hp > 0 then [us[0]] else []) + Living(us[1..])
  }

  // ---- Tick phase 5: win check --------------------------------------------

  predicate IsLivingKing(t: Tower, role: Role)
  {
    t.hp > 0 && t.kind == King && t.owner == role
  }

  predicate KingAlive(towers: seq<Tower>, role: Role)
  {
    exists k :: 0 <= k < |towers| && IsLivingKing(towers[k], role)
  }

  function WinCheck(p1Alive: bool, p2Alive: bool, p1: Option<SocketId>, p2: Option<SocketId>): Option<Winner>
  {
    if !p1Alive && Occupied(p1) then Some(Player2)
    else if !p2Alive && Occupied(p2) then Some(Player1)
    else None
  }

  /** The tower loop of the win check. */
  method KingStatus(towers: seq<Tower>) returns (p1Alive: bool, p2Alive: bool)
    ensures p1Alive == KingAlive(towers, P1)
    ensures p2Alive == KingAlive(towers, P2)
  {
    p1Alive, p2Alive := false, false;
    var k := 0;
    while k < |towers|
      invariant 0 <= k <= |towers|
      invariant p1Alive == exists j :: 0 <= j < k && IsLivingKing(towers[j], P1)
      invariant p2Alive == exists j :: 0 <= j < k && IsLivingKing(towers[j], P2)
    {
      var t := towers[k];
      if t.hp > 0 && t.kind == King {
        if t.owner == P1 { p1Alive := true; }
        if t.owner == P2 { p2Alive := true; }
      }
      k := k + 1;
    }
  }

  // ---- The tick -----------------------------------------------------------

  /** The state after the projectile and income phases. */
  function Prepared(s: State, now: int): State
  {
    s.(projectiles := Decayed(s.projectiles), playerData := Income(s.playerData, now))
  }

  /** The state after units and towers have acted. */
  function Fought(s: State, now: int, step: Step): State
  {
    var a := Prepared(s, now);
    var b := UnitPhase(a, |a.units|, now, step);
    TowerPhase(b, |b.towers|, now)
  }

  /** One tick at time `now`; a decided match does not change. */
  function Tick(s: State, now: int, step: Step): State
  {
    if s.winner.Some? then s
    else
      var c := Fought(s, now, step);
      var d := c.(units := Living(c.units));
      d.(winner := WinCheck(KingAlive(d.towers, P1), KingAlive(d.towers, P2), d.p1, d.p2))
  }
}

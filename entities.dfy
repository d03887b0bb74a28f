/** Entities of a BinaryBastion match: roles, the unit and tower stat tables,
    units, towers, projectiles, economy records and the plane geometry. */
module Entities {

  datatype Option<T> = None | Some(value: T)

  /** A connection (socket) identifier. */
  type SocketId = string

  /** The two competing sides. */
  datatype Role = P1 | P2

  function RoleName(r: Role): string
  {
    match r
    case P1 => "p1"
    case P2 => "p2"
  }

  /** The label written into `winner`. */
  datatype Winner = Player1 | Player2

  // Map geometry and fixed rules.
  const GameWidth: real := 800.0
  const SpawnMargin: real := 20.0
  /** Enemy units strictly closer than 200 take priority; compared squared. */
  const AggroRadiusSq: real := 40000.0
  const StartGold: int := 100
  const MaxGold: int := 100
  const IncomeInterval: int := 1000
  const IncomeAmount: int := 2
  /** Life taken off every projectile on each tick. */
  const ProjectileDecay: int := 20
  const UnitShotLife: int := 100
  const TowerShotLife: int := 200
  /** Fallback collision radius of a target that has none. */
  const DefaultRadius: real := 10.0

  /** Base stats of a unit type. */
  datatype UnitStats = UnitStats(cost: int, hp: int, damage: int, speed: real,
                                 range: real, radius: real, cooldown: int)

  /** The unit table; any other type name is unknown. */
  function UnitType(name: string): Option<UnitStats>
  {
    if name == "GRUNT" then Some(UnitStats(20, 50, 10, 2.5, 30.0, 10.0, 1000))
    else if name == "TANK" then Some(UnitStats(60, 400, 15, 1.5, 30.0, 15.0, 3000))
    else if name == "RANGER" then Some(UnitStats(40, 40, 15, 2.5, 120.0, 8.0, 2000))
    else None
  }

  datatype TowerKind = King | Princess

  datatype TowerStats = TowerStats(hp: int, damage: int, range: real, fireRate: int)

  function TowerStatsOf(k: TowerKind): TowerStats
  {
    match k
    case Princess => TowerStats(350, 10, 150.0, 800)
    case King => TowerStats(1000, 15, 150.0, 1000)
  }

  /** Effective radius of a tower when a unit measures its reach to it. */
  function TowerRadius(k: TowerKind): real
  {
    match k
    case King => 40.0
    case Princess => 30.0
  }

  datatype Point = Point(x: real, y: real)

  /** Squared Euclidean distance; every comparison of the source against a
      (non-negative) distance is made on squares. */
  function DistSq(a: Point, b: Point): real
  {
    (b.x - a.x) * (b.x - a.x) + (b.y - a.y) * (b.y - a.y)
  }

  function Abs(x: real): real
  {
    if x < 0.0 then -x else x
  }

  /** The direction along the x axis in which a role advances. */
  function Forward(r: Role): real
  {
    match r
    case P1 => 1.0
    case P2 => -1.0
  }

  datatype Unit = Unit(id: nat, owner: Role, kind: string, pos: Point,
                       hp: int, maxHp: int, speed: real, damage: int,
                       range: real, radius: real, cooldown: int, lastAttack: int)

  /** The radius a unit presents as a target (0 falls back to the default). */
  function UnitRadius(e: Unit): real
  {
    if e.radius != 0.0 then e.radius else DefaultRadius
  }

  datatype Tower = Tower(id: string, owner: Role, kind: TowerKind, pos: Point,
                         hp: int, maxHp: int, range: real, damage: int,
                         fireRate: int, lastShot: int)

  /** A cosmetic shot trace. */
  datatype Projectile = Projectile(id: nat, start: Point, end: Point, life: int)

  /** A player's economy record. */
  datatype Economy = Economy(role: Role, gold: int, maxGold: int, lastIncome: int)

  /** A movement step toward a point: from, toward, distance to cover. */
  type Step = (Point, Point, real) -> Point
}

/** The invariant every reachable match state keeps, and the proofs that
    every operation keeps it. */
module Invariants {
  import opened Entities
  import opened Targeting
  import opened Rules
  import opened Properties

  /** Gold stays within the cap; it moves in steps of 2 and all costs are
      even, which is what keeps `gold + 2` from passing the cap. */
  predicate EconomyOk(e: Economy)
  {
    e.maxGold == MaxGold && 0 <= e.gold <= e.maxGold && e.gold % 2 == 0
  }

  /** A unit carries the base stats of its type and no more hp than its maximum. */
  predicate UnitOk(u: Unit)
  {
    && UnitType(u.kind).Some?
    && var st := UnitType(u.kind).value;
    && u.maxHp == st.hp && u.damage == st.damage && u.range == st.range
    && u.radius == st.radius && u.cooldown == st.cooldown
    && u.speed == (if u.owner == P1 then st.speed else -st.speed)
    && u.hp <= u.maxHp
  }

  /** A tower carries the stats of its kind and no more hp than its maximum. */
  predicate TowerOk(t: Tower)
  {
    var st := TowerStatsOf(t.kind);
    t.maxHp == st.hp && t.damage == st.damage && t.range == st.range
    && t.fireRate == st.fireRate && t.hp <= t.maxHp
  }

  /** Unit ids increase along the list (so they are distinct) and are below
      the counter (so the next one is fresh). */
  predicate UnitIdsOk(us: seq<Unit>, next: nat)
  {
    && (forall a, b :: 0 <= a < b < |us| ==> us[a].id < us[b].id)
    && (forall k :: 0 <= k < |us| ==> us[k].id < next)
  }

  /** The same for shots, which also all have life left. */
  predicate ShotsOk(ps: seq<Projectile>, next: nat)
  {
    && (forall a, b :: 0 <= a < b < |ps| ==> ps[a].id < ps[b].id)
    && (forall k :: 0 <= k < |ps| ==> ps[k].id < next && ps[k].life > 0)
  }

  predicate ValidState(s: State)
  {
    && (forall k :: k in s.playerData ==> EconomyOk(s.playerData[k]))
    && (forall k :: 0 <= k < |s.units| ==> UnitOk(s.units[k]) && s.units[k].hp > 0)
    && UnitIdsOk(s.units, s.nextId)
    && (forall k :: 0 <= k < |s.towers| ==> TowerOk(s.towers[k]))
    && ShotsOk(s.projectiles, s.nextId)
  }

  // ---- Combat only wears entities down --------------------------------------

  predicate UnitEvolved(a: Unit, b: Unit)
  {
    b == a.(pos := b.pos, hp := b.hp, lastAttack := b.lastAttack) && b.hp <= a.hp
  }

  predicate TowerEvolved(a: Tower, b: Tower)
  {
    b == a.(hp := b.hp, lastShot := b.lastShot) && b.hp <= a.hp
  }

  /** Every entity keeps its identity and stats and gains no hp. */
  ghost predicate Evolved(s: State, r: State)
  {
    && |r.units| == |s.units| && (forall k :: 0 <= k < |s.units| ==> UnitEvolved(s.units[k], r.units[k]))
    && |r.towers| == |s.towers| && (forall k :: 0 <= k < |s.towers| ==> TowerEvolved(s.towers[k], r.towers[k]))
    && s.nextId <= r.nextId
    && (ShotsOk(s.projectiles, s.nextId) ==> ShotsOk(r.projectiles, r.nextId))
  }

  /** Every attacker carries its table stats. */
  ghost predicate Armed(s: State)
  {
    (forall k :: 0 <= k < |s.units| ==> UnitOk(s.units[k]))
    && (forall k :: 0 <= k < |s.towers| ==> TowerOk(s.towers[k]))
  }

  /** No attacker heals what it hits: the one fact about the stats that the
      combat steps need. */
  ghost predicate DamageOk(s: State)
  {
    (forall k :: 0 <= k < |s.units| ==> s.units[k].damage >= 0)
    && (forall k :: 0 <= k < |s.towers| ==> s.towers[k].damage >= 0)
  }

  lemma ArmedDamageOk(s: State)
    requires Armed(s)
    ensures DamageOk(s)
  {
    forall k | 0 <= k < |s.units| ensures s.units[k].damage >= 0 {
      assert UnitOk(s.units[k]);
    }
  }

  lemma EvolvedTrans(a: State, b: State, c: State)
    requires Evolved(a, b) && Evolved(b, c)
    ensures Evolved(a, c)
  {
  }

  lemma EvolvedKeepsArmed(s: State, r: State)
    requires Armed(s) && Evolved(s, r)
    ensures Armed(r)
  {
    forall k | 0 <= k < |r.units| ensures UnitOk(r.units[k]) {
      assert UnitEvolved(s.units[k], r.units[k]);
    }
    forall k | 0 <= k < |r.towers| ensures TowerOk(r.towers[k]) {
      assert TowerEvolved(s.towers[k], r.towers[k]);
    }
  }

  lemma EvolvedKeepsDamage(s: State, r: State)
    requires DamageOk(s) && Evolved(s, r)
    ensures DamageOk(r)
  {
    forall k | 0 <= k < |r.units| ensures r.units[k].damage >= 0 {
      assert UnitEvolved(s.units[k], r.units[k]);
    }
    forall k | 0 <= k < |r.towers| ensures r.towers[k].damage >= 0 {
      assert TowerEvolved(s.towers[k], r.towers[k]);
    }
  }

  lemma ShotsAppend(ps: seq<Projectile>, next: nat, p: Projectile)
    requires ShotsOk(ps, next) && p.id == next && p.life > 0
    ensures ShotsOk(ps + [p], next + 1)
  {
  }

  lemma UnitActEvolves(s: State, i: nat, now: int, step: Step)
    requires i < |s.units| && DamageOk(s)
    ensures Evolved(s, UnitAct(s, i, now, step))
  {
    var u := s.units[i];
    var r := UnitAct(s, i, now, step);
    assert u.damage >= 0;
    UnitActEffect(s, i, now, step);
    if Strikes(s, i, now) {
      var t := UnitTarget(s.units, s.towers, u);
      if ShotsOk(s.projectiles, s.nextId) {
        ShotsAppend(s.projectiles, s.nextId, Projectile(s.nextId, u.pos, TargetPos(s, t), UnitShotLife));
      }
      forall k | 0 <= k < |s.units| ensures UnitEvolved(s.units[k], r.units[k]) {
        if k == i {
          assert r.units[k] == s.units[k].(lastAttack := now);
        } else if t == OnUnit(k) {
          assert r.units[k] == s.units[k].(hp := s.units[k].hp - u.damage);
        } else {
          assert r.units[k] == s.units[k];
        }
      }
    }
  }

  /** One more unit turn keeps the phase evolved from its start. */
  lemma UnitPhaseStep(s: State, k: nat, now: int, step: Step)
    requires 0 < k <= |s.units|
    requires Evolved(s, UnitPhase(s, k - 1, now, step)) && DamageOk(UnitPhase(s, k - 1, now, step))
    ensures Evolved(s, UnitPhase(s, k, now, step)) && DamageOk(UnitPhase(s, k, now, step))
  {
    UnitTurnEvolves(s, k, now, step);
    EvolvedChain(s, UnitPhase(s, k - 1, now, step), UnitPhase(s, k, now, step));
  }

  lemma UnitTurnEvolves(s: State, k: nat, now: int, step: Step)
    requires 0 < k <= |s.units| && DamageOk(UnitPhase(s, k - 1, now, step))
    ensures Evolved(UnitPhase(s, k - 1, now, step), UnitPhase(s, k, now, step))
  {
    UnitActEvolves(UnitPhase(s, k - 1, now, step), k - 1, now, step);
  }

  lemma EvolvedChain(s: State, a: State, b: State)
    requires Evolved(s, a) && DamageOk(a) && Evolved(a, b)
    ensures Evolved(s, b) && DamageOk(b)
  {
    EvolvedTrans(s, a, b);
    EvolvedKeepsDamage(a, b);
  }

  lemma {:induction false} UnitPhaseEvolves(s: State, k: nat, now: int, step: Step)
    requires k <= |s.units| && DamageOk(s)
    ensures Evolved(s, UnitPhase(s, k, now, step))
    ensures DamageOk(UnitPhase(s, k, now, step))
  {
    if k == 0 {
      assert Evolved(s, s);
    } else {
      UnitPhaseEvolves(s, k - 1, now, step);
      UnitPhaseStep(s, k, now, step);
    }
  }

  lemma TowerActEvolves(s: State, j: nat, now: int)
    requires j < |s.towers| && DamageOk(s)
    ensures Evolved(s, TowerAct(s, j, now))
  {
    TowerActEffect(s, j, now);
    if Fires(s, j, now) {
      var t := s.towers[j];
      var i := TowerTarget(s.units, t).value;
      if ShotsOk(s.projectiles, s.nextId) {
        ShotsAppend(s.projectiles, s.nextId, Projectile(s.nextId, t.pos, s.units[i].pos, TowerShotLife));
      }
    }
  }

  /** One more tower turn keeps the phase evolved from its start. */
  lemma TowerPhaseStep(s: State, k: nat, now: int)
    requires 0 < k <= |s.towers|
    requires Evolved(s, TowerPhase(s, k - 1, now)) && DamageOk(TowerPhase(s, k - 1, now))
    ensures Evolved(s, TowerPhase(s, k, now)) && DamageOk(TowerPhase(s, k, now))
  {
    TowerTurnEvolves(s, k, now);
    EvolvedChain(s, TowerPhase(s, k - 1, now), TowerPhase(s, k, now));
  }

  lemma TowerTurnEvolves(s: State, k: nat, now: int)
    requires 0 < k <= |s.towers| && DamageOk(TowerPhase(s, k - 1, now))
    ensures Evolved(TowerPhase(s, k - 1, now), TowerPhase(s, k, now))
  {
    TowerActEvolves(TowerPhase(s, k - 1, now), k - 1, now);
  }

  lemma {:induction false} TowerPhaseEvolves(s: State, k: nat, now: int)
    requires k <= |s.towers| && DamageOk(s)
    ensures Evolved(s, TowerPhase(s, k, now))
    ensures DamageOk(TowerPhase(s, k, now))
  {
    if k == 0 {
      assert Evolved(s, s);
    } else {
      TowerPhaseEvolves(s, k - 1, now);
      TowerPhaseStep(s, k, now);
    }
  }

  /** Units and towers come out of combat with their identity and stats,
      and no more hp than they went in with. */
  lemma FightEvolves(s: State, now: int, step: Step)
    requires ValidState(s)
    ensures Evolved(Prepared(s, now), Fought(s, now, step))
    ensures Armed(Fought(s, now, step))
  {
    var a := Prepared(s, now);
    var b := UnitPhase(a, |a.units|, now, step);
    ArmedDamageOk(a);
    UnitPhaseEvolves(a, |a.units|, now, step);
    TowerPhaseEvolves(b, |b.towers|, now);
    EvolvedTrans(a, b, Fought(s, now, step));
    EvolvedKeepsArmed(a, Fought(s, now, step));
  }

  // ---- Decay, cleanup and income keep the invariant -------------------------

  /** Decay keeps shot ids increasing and within (lo, next), and every
      survivor has life left. */
  lemma {:induction false} DecayedShotsOk(ps: seq<Projectile>, lo: int, next: nat)
    requires forall a, b :: 0 <= a < b < |ps| ==> ps[a].id < ps[b].id
    requires forall k :: 0 <= k < |ps| ==> lo < ps[k].id < next
    ensures ShotsOk(Decayed(ps), next)
    ensures forall k :: 0 <= k < |Decayed(ps)| ==> lo < Decayed(ps)[k].id
  {
    if ps != [] {
      var tail := ps[1..];
      DecayedShotsOk(tail, ps[0].id, next);
      var dt := Decayed(tail);
      if Aged(ps[0]).life > 0 {
        var d := Decayed(ps);
        assert d == [Aged(ps[0])] + dt;
        forall a, b | 0 <= a < b < |d| ensures d[a].id < d[b].id {
          assert d[b] == dt[b - 1];
          if a > 0 {
            assert d[a] == dt[a - 1];
          }
        }
      }
    }
  }

  /** Cleanup keeps unit ids increasing and within (lo, next). */
  lemma {:induction false} LivingIdsOk(us: seq<Unit>, lo: int, next: nat)
    requires UnitIdsOk(us, next)
    requires forall k :: 0 <= k < |us| ==> lo < us[k].id
    ensures UnitIdsOk(Living(us), next)
    ensures forall k :: 0 <= k < |Living(us)| ==> lo < Living(us)[k].id
  {
    if us != [] {
      var tail := us[1..];
      LivingIdsOk(tail, us[0].id, next);
      var dt := Living(tail);
      if us[0].hp > 0 {
        var d := Living(us);
        assert d == [us[0]] + dt;
        forall a, b | 0 <= a < b < |d| ensures d[a].id < d[b].id {
          assert d[b] == dt[b - 1];
          if a > 0 {
            assert d[a] == dt[a - 1];
          }
        }
      }
    }
  }

  /** Income never pushes gold past the cap nor below zero. */
  lemma AccrueKeepsEconomy(e: Economy, now: int)
    requires EconomyOk(e)
    ensures EconomyOk(Accrue(e, now))
  {
  }

  // ---- Every operation keeps the invariant ----------------------------------

  lemma InitialValid(nextId: nat)
    ensures ValidState(Initial(nextId))
  {
  }

  lemma JoinPreservesValid(s: State, id: SocketId, now: int)
    requires ValidState(s)
    ensures ValidState(Join(s, id, now))
  {
    RoleTowersLayout(P1);
    RoleTowersLayout(P2);
  }

  lemma LeavePreservesValid(s: State, id: SocketId)
    requires ValidState(s)
    ensures ValidState(Leave(s, id))
  {
  }

  lemma SpawnPreservesValid(s: State, id: SocketId, kind: string, x: real, y: real)
    requires ValidState(s)
    ensures ValidState(Spawn(s, id, kind, x, y))
  {
    if SpawnAccepted(s, id, kind, x) {
      SpawnEffect(s, id, kind, x, y);
      var r := Spawn(s, id, kind, x, y);
      var u := r.units[|s.units|];
      assert UnitOk(u) && u.hp > 0;
      forall k | 0 <= k < |r.units| ensures UnitOk(r.units[k]) && r.units[k].hp > 0 {
        if k < |s.units| {
          assert r.units[k] == s.units[k];
        }
      }
    }
  }

  lemma TickPreservesValid(s: State, now: int, step: Step)
    requires ValidState(s)
    ensures ValidState(Tick(s, now, step))
  {
    if s.winner.None? {
      var a := Prepared(s, now);
      var c := Fought(s, now, step);
      var r := Tick(s, now, step);
      DecayedShotsOk(s.projectiles, -1, s.nextId);
      FightEvolves(s, now, step);
      TickOutline(s, now, step);
      forall k | k in r.playerData ensures EconomyOk(r.playerData[k]) {
        AccrueKeepsEconomy(s.playerData[k], now);
      }
      assert UnitIdsOk(c.units, c.nextId) by {
        forall x, y | 0 <= x < y < |c.units| ensures c.units[x].id < c.units[y].id {
          assert UnitEvolved(a.units[x], c.units[x]) && UnitEvolved(a.units[y], c.units[y]);
        }
        forall x | 0 <= x < |c.units| ensures c.units[x].id < c.nextId {
          assert UnitEvolved(a.units[x], c.units[x]);
        }
      }
      LivingIdsOk(c.units, -1, c.nextId);
      LivingMembers(c.units);
      forall k | 0 <= k < |r.units| ensures UnitOk(r.units[k]) && r.units[k].hp > 0 {
        assert r.units[k] in c.units;
      }
    }
  }

  // ---- Consequences -----------------------------------------------------------

  /** Towers are never removed: each keeps its identity and stats and only
      loses hp. */
  lemma TowersNeverRemoved(s: State, now: int, step: Step)
    requires ValidState(s)
    ensures |Tick(s, now, step).towers| == |s.towers|
    ensures forall k :: 0 <= k < |s.towers| ==> TowerEvolved(s.towers[k], Tick(s, now, step).towers[k])
  {
    if s.winner.None? {
      FightEvolves(s, now, step);
    }
  }

  /** A fallen king of an occupying player ends the match on the next tick,
      and the match then stays decided. */
  lemma KingDownEndsMatch(s: State, now: int, step: Step)
    requires ValidState(s) && s.winner.None?
    requires Occupied(s.p1)
    requires forall k :: 0 <= k < |s.towers| && s.towers[k].kind == King && s.towers[k].owner == P1 ==> s.towers[k].hp <= 0
    ensures Tick(s, now, step).winner == Some(Player2)
    ensures Tick(Tick(s, now, step), now, step) == Tick(s, now, step)
  {
    var r := Tick(s, now, step);
    TowersNeverRemoved(s, now, step);
    forall k | 0 <= k < |r.towers| ensures !IsLivingKing(r.towers[k], P1) {
      assert TowerEvolved(s.towers[k], r.towers[k]);
    }
    TickWinner(s, now, step);
  }

  /** A unit that strikes on its turn in the tick at `now` leaves that tick
      stamped `now`, and in a following tick at a time `later` within its
      cooldown it does not strike again: two ticks within the cooldown take
      its damage off a target at most once. */
  lemma StrikeOncePerCooldown(s: State, i: nat, now: int, later: int, step: Step)
    requires ValidState(s) && s.winner.None? && i < |s.units|
    requires Strikes(UnitPhase(Prepared(s, now), i, now, step), i, now)
    requires later - now <= s.units[i].cooldown
    ensures var s1 := Tick(s, now, step);
      forall j :: 0 <= j < |s1.units| && s1.units[j].id == s.units[i].id ==>
        && s1.units[j].lastAttack == now
        && (s1.winner.None? ==> !Strikes(UnitPhase(Prepared(s1, later), j, later, step), j, later))
  {
    StrikerStampedAfterFight(s, i, now, step);
    FoughtRestamps(s, now, step);
    var c := Fought(s, now, step);
    var s1 := Tick(s, now, step);
    LivingMembers(c.units);
    forall j | 0 <= j < |s1.units| && s1.units[j].id == s.units[i].id
      ensures s1.units[j].lastAttack == now
      ensures s1.winner.None? ==> !Strikes(UnitPhase(Prepared(s1, later), j, later, step), j, later)
    {
      assert s1.units[j] in c.units;
      var k :| 0 <= k < |c.units| && c.units[k] == s1.units[j];
      assert c.units[k].id == s.units[k].id;
      assert k == i;
      if s1.winner.None? {
        NoStrikeWithinCooldownInTick(s1, j, later, step);
      }
    }
  }
}

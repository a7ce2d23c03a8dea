/** shoot_at of war_simulator/services/game_service.py, both as the code is
    written and as it is evidently meant to work. */
module Shots {
  import opened Wrappers
  import opened Search
  import opened Fleet
  import opened Players
  import opened Games

  /** `v.id == vessel_id and v.can_shoot()` */
  function Armed(m: Mechanics, vid: int): Vessel -> bool {
    (v: Vessel) => v.id == Some(vid) && m.canShoot(v)
  }

  /** `v.coord_x == x and v.coord_y == y and v.coord_z == z` */
  function Targets(x: int, y: int, z: int): Vessel -> bool {
    (v: Vessel) => v.At(x, y, z)
  }

  /** The checks at the head of shoot_at: the game exists, a player has the
      shooter's name, the first such player owns a vessel with that id that can
      shoot, and the target is within range of the first such vessel. On
      success, the indices of that player and that vessel. */
  function Aim(m: Mechanics, st: Store, gid: int, shooter: string, vid: int,
               x: int, y: int, z: int): (r: Option<(nat, nat)>)
    ensures r.Some? ==> gid in st.games
    ensures r.Some? ==> var ps := st.games[gid].players;
      && FirstNamed(ps, shooter, r.value.0)
      && r.value.1 < |ps[r.value.0].battlefield.vessels|
      && var v := ps[r.value.0].battlefield.vessels[r.value.1];
         v.id == Some(vid) && m.canShoot(v) && m.inRange(v, x, y, z)
    ensures r.Some? ==> var vs := st.games[gid].players[r.value.0].battlefield.vessels;
      forall j :: 0 <= j < r.value.1 ==> !(vs[j].id == Some(vid) && m.canShoot(vs[j]))
  {
    if gid !in st.games then None
    else
      var ps := st.games[gid].players;
      match Find(ps, Named(shooter))
      case None => None
      case Some(i) =>
        var vs := ps[i].battlefield.vessels;
        match Find(vs, Armed(m, vid))
        case None => None
        case Some(j) => if m.inRange(vs[j], x, y, z) then Some((i, j)) else None
  }

  /** An unknown shooter, a shooter without a vessel of that id able to shoot,
      or a target out of that vessel's range: no aim. */
  lemma AimRefused(m: Mechanics, st: Store, gid: int, shooter: string, vid: int,
                   x: int, y: int, z: int, i: int)
    requires gid in st.games && FirstNamed(st.games[gid].players, shooter, i)
    ensures var vs := st.games[gid].players[i].battlefield.vessels;
      (forall j :: 0 <= j < |vs| ==> !(vs[j].id == Some(vid) && m.canShoot(vs[j])))
        ==> Aim(m, st, gid, shooter, vid, x, y, z).None?
    ensures var vs := st.games[gid].players[i].battlefield.vessels;
      forall j :: 0 <= j < |vs| && vs[j].id == Some(vid) && m.canShoot(vs[j]) && !m.inRange(vs[j], x, y, z) &&
        (forall k :: 0 <= k < j ==> !(vs[k].id == Some(vid) && m.canShoot(vs[k])))
        ==> Aim(m, st, gid, shooter, vid, x, y, z).None?
  {
  }

  /** The converse of Aim's postcondition: when the game exists, `i` is the
      first player named like the shooter, `j` is that player's first vessel
      with the id that can shoot, and the target is within its range, the
      aim is exactly (i, j). */
  lemma AimSucceeds(m: Mechanics, st: Store, gid: int, shooter: string, vid: int,
                    x: int, y: int, z: int, i: nat, j: nat)
    requires gid in st.games && FirstNamed(st.games[gid].players, shooter, i)
    requires var vs := st.games[gid].players[i].battlefield.vessels;
      && j < |vs| && vs[j].id == Some(vid) && m.canShoot(vs[j]) && m.inRange(vs[j], x, y, z)
      && forall j' :: 0 <= j' < j ==> !(vs[j'].id == Some(vid) && m.canShoot(vs[j']))
    ensures Aim(m, st, gid, shooter, vid, x, y, z) == Some((i, j))
  {
    var ps := st.games[gid].players;
    FindIsFirst(ps, Named(shooter), i);
    FindIsFirst(ps[i].battlefield.vessels, Armed(m, vid), j);
  }

  /** shoot_at as written. The reply is `Some(false)` for `return False` and
      None for the value a Python function without `return` yields. Inside
      the loop over the players, a found target leaves the loop by `break`
      before `vessel.fire_at(target)` and a missing one returns False, so
      no vessel is ever fired at and the store is never changed. */
  function ShootAt(m: Mechanics, st: Store, gid: int, shooter: string, vid: int,
                   x: int, y: int, z: int): (r: (Option<bool>, Store))
    ensures r.1 == st
    ensures r.0 != Some(true)
    ensures Aim(m, st, gid, shooter, vid, x, y, z).None? ==> r.0 == Some(false)
  {
    match Aim(m, st, gid, shooter, vid, x, y, z)
    case None => (Some(false), st)
    case Some(_) =>
      var ps := st.games[gid].players;
      match Find(ps, Other(shooter))
      case None => (None, st)
      case Some(k) =>
        if Find(ps[k].battlefield.vessels, Targets(x, y, z)).Some? then (None, st)
        else (Some(false), st)
  }

  /** Once aimed, only the first player with another name is examined: the
      reply is False exactly when that player has no vessel at (x, y, z). */
  lemma ShootAtExaminesFirstOpponent(m: Mechanics, st: Store, gid: int, shooter: string, vid: int,
                                     x: int, y: int, z: int, k: int)
    requires Aim(m, st, gid, shooter, vid, x, y, z).Some?
    requires var ps := st.games[gid].players;
      0 <= k < |ps| && ps[k].name != shooter && forall k' :: 0 <= k' < k ==> ps[k'].name == shooter
    ensures var vs := st.games[gid].players[k].battlefield.vessels;
      ShootAt(m, st, gid, shooter, vid, x, y, z).0 == Some(false) <==>
        forall t :: 0 <= t < |vs| ==> !vs[t].At(x, y, z)
  {
  }

  /** Once aimed, a game whose players all bear the shooter's name lets the
      loop run to its end: the reply is None and nothing changes. */
  lemma ShootAtWithoutOpponent(m: Mechanics, st: Store, gid: int, shooter: string, vid: int,
                               x: int, y: int, z: int)
    requires Aim(m, st, gid, shooter, vid, x, y, z).Some?
    requires var ps := st.games[gid].players; forall k :: 0 <= k < |ps| ==> ps[k].name == shooter
    ensures ShootAt(m, st, gid, shooter, vid, x, y, z) == (None, st)
  {
  }

  // ---------------------------------------------------------------------
  // The evidently intended shot

  /** The first vessel at (x, y, z) on the battlefield of a player whose name
      differs from `shooter`, scanning players in roster order: the target the
      loop of shoot_at looks for. */
  function FirstTarget(ps: seq<Player>, shooter: string, x: int, y: int, z: int): (r: Option<(nat, nat)>)
    ensures r.Some? ==> r.value.0 < |ps| && ps[r.value.0].name != shooter
    ensures r.Some? ==> r.value.1 < |ps[r.value.0].battlefield.vessels|
                        && ps[r.value.0].battlefield.vessels[r.value.1].At(x, y, z)
    ensures r.None? <==> forall k, t :: 0 <= k < |ps| && ps[k].name != shooter && 0 <= t < |ps[k].battlefield.vessels|
                                        ==> !ps[k].battlefield.vessels[t].At(x, y, z)
    ensures r.Some? ==> forall k, t :: 0 <= k < r.value.0 && ps[k].name != shooter && 0 <= t < |ps[k].battlefield.vessels|
                                       ==> !ps[k].battlefield.vessels[t].At(x, y, z)
    ensures r.Some? ==> forall t :: 0 <= t < r.value.1 ==> !ps[r.value.0].battlefield.vessels[t].At(x, y, z)
  {
    if ps == [] then None
    else if ps[0].name != shooter && Find(ps[0].battlefield.vessels, Targets(x, y, z)).Some? then
      Some((0, Find(ps[0].battlefield.vessels, Targets(x, y, z)).value))
    else
      match FirstTarget(ps[1..], shooter, x, y, z)
      case None =>
        assert forall t :: 0 <= t < |ps[0].battlefield.vessels| && ps[0].name != shooter ==>
          !Targets(x, y, z)(ps[0].battlefield.vessels[t]);
        None
      case Some((k, t)) => Some((k + 1, t))
  }

  /** `after` is `before` with vessel `t` of player `k` replaced by `v`. */
  predicate Struck(before: Game, after: Game, k: int, t: int, v: Vessel) {
    && 0 <= k < |before.players|
    && 0 <= t < |before.players[k].battlefield.vessels|
    && var b := before.players[k].battlefield;
       after == before.(players := before.players[k := before.players[k].(battlefield := b.(vessels := b.vessels[t := v]))])
  }

  /** shoot_at as evidently intended: after the same checks, fire the aimed
      vessel at the opponent vessel standing exactly at (x, y, z), report True,
      and report False when there is none. */
  function ShootIntended(m: Mechanics, st: Store, gid: int, shooter: string, vid: int,
                         x: int, y: int, z: int): (r: (bool, Store))
    ensures !r.0 ==> r.1 == st
    ensures r.0 <==> Aim(m, st, gid, shooter, vid, x, y, z).Some?
                     && FirstTarget(st.games[gid].players, shooter, x, y, z).Some?
    ensures r.0 ==> r.1.nextId == st.nextId && r.1.games.Keys == st.games.Keys
    ensures r.0 ==> forall g :: g in st.games && g != gid ==> r.1.games[g] == st.games[g]
    ensures r.0 ==>
      var ps := st.games[gid].players;
      var (i, j) := Aim(m, st, gid, shooter, vid, x, y, z).value;
      var (k, t) := FirstTarget(ps, shooter, x, y, z).value;
      && ps[k].name != shooter && ps[k].battlefield.vessels[t].At(x, y, z)
      && Struck(st.games[gid], r.1.games[gid], k, t,
                m.fireAt(ps[i].battlefield.vessels[j], ps[k].battlefield.vessels[t]))
  {
    match Aim(m, st, gid, shooter, vid, x, y, z)
    case None => (false, st)
    case Some((i, j)) =>
      var game := st.games[gid];
      match FirstTarget(game.players, shooter, x, y, z)
      case None => (false, st)
      case Some((k, t)) =>
        var p := game.players[k];
        var b := p.battlefield;
        var hit := m.fireAt(game.players[i].battlefield.vessels[j], b.vessels[t]);
        var p' := p.(battlefield := b.(vessels := b.vessels[t := hit]));
        (true, Store(st.games[gid := game.(players := game.players[k := p'])], st.nextId))
  }

  /** The intended shot changes no vessel but one standing exactly at
      (x, y, z) on the battlefield of a player not named like the shooter. */
  lemma IntendedShotHitsOnlyTheTarget(m: Mechanics, st: Store, gid: int, shooter: string, vid: int,
                                      x: int, y: int, z: int, k: int, t: int)
    requires gid in st.games
    requires 0 <= k < |st.games[gid].players| && 0 <= t < |st.games[gid].players[k].battlefield.vessels|
    ensures var after := ShootIntended(m, st, gid, shooter, vid, x, y, z).1.games[gid];
      && |after.players| == |st.games[gid].players|
      && |after.players[k].battlefield.vessels| == |st.games[gid].players[k].battlefield.vessels|
      && (after.players[k].battlefield.vessels[t] != st.games[gid].players[k].battlefield.vessels[t]
          ==> st.games[gid].players[k].name != shooter && st.games[gid].players[k].battlefield.vessels[t].At(x, y, z))
  {
  }

  /** The discrepancy: in a game of at most two players, whenever the intended
      shot would fire, the code as written answers None and leaves the store
      as it was. */
  lemma AsWrittenNeverFires(m: Mechanics, st: Store, gid: int, shooter: string, vid: int,
                            x: int, y: int, z: int)
    requires gid in st.games && |st.games[gid].players| <= 2
    requires ShootIntended(m, st, gid, shooter, vid, x, y, z).0
    ensures ShootAt(m, st, gid, shooter, vid, x, y, z) == (None, st)
  {
  }

  /** Rules for a concrete instance: every vessel with hits left can shoot and
      reaches everywhere, and firing takes one hit off the target. */
  function DemoMechanics(): Mechanics {
    Mechanics(2, (k: string) => 1, (k: string) => Weapon(1, 10, k),
              (v: Vessel) => v.hitsToBeDestroyed > 0,
              (v: Vessel, x: int, y: int, z: int) => true,
              (s: Vessel, t: Vessel) => t.(hitsToBeDestroyed := t.hitsToBeDestroyed - 1),
              (b: Battlefield) => false, (b: Battlefield, v: Vessel) => true)
  }

  /** alice's vessel 7 at (0, 0, 0); bob's vessel 8 at (1, 1, 0), one hit left. */
  function DemoStore(): Store {
    var gun := Weapon(1, 10, "canon");
    var alice := Player(None, "alice", Battlefield(0, 5, 0, 5, 0, 0, 2, [Vessel(Some(7), 0, 0, 0, "canon", 1, gun)]));
    var bob := Player(None, "bob", Battlefield(0, 5, 0, 5, 0, 0, 2, [Vessel(Some(8), 1, 1, 0, "canon", 1, gun)]));
    Store(map[1 := Game(Some(1), [alice, bob])], 2)
  }

  lemma DemoAim()
    ensures Aim(DemoMechanics(), DemoStore(), 1, "alice", 7, 1, 1, 0) == Some((0, 0))
  {
  }

  lemma DemoTarget()
    ensures FirstTarget(DemoStore().games[1].players, "alice", 1, 1, 0) == Some((1, 0))
  {
    var ps := DemoStore().games[1].players;
    assert ps[1..][0] == ps[1];
    assert Targets(1, 1, 0)(ps[1].battlefield.vessels[0]);
    FindIsFirst(ps[1].battlefield.vessels, Targets(1, 1, 0), 0);
    assert FirstTarget(ps[1..][1..], "alice", 1, 1, 0) == None;
    assert FirstTarget(ps[1..], "alice", 1, 1, 0) == Some((0, 0));
  }

  /** The intended shot hits bob's vessel, which loses its last hit, and
      changes nothing else. */
  lemma DemoIntendedHits()
    ensures ShootIntended(DemoMechanics(), DemoStore(), 1, "alice", 7, 1, 1, 0).0
    ensures Struck(DemoStore().games[1], ShootIntended(DemoMechanics(), DemoStore(), 1, "alice", 7, 1, 1, 0).1.games[1],
                   1, 0, Vessel(Some(8), 1, 1, 0, "canon", 0, Weapon(1, 10, "canon")))
  {
    DemoAim();
    DemoTarget();
  }

  /** A concrete instance of the discrepancy: alice fires vessel 7 at
      (1, 1, 0). The intended shot hits bob's vessel there; the code as
      written answers None and changes nothing. */
  lemma WrittenShotLeavesTargetIntact()
    ensures ShootAt(DemoMechanics(), DemoStore(), 1, "alice", 7, 1, 1, 0) == (None, DemoStore())
    ensures ShootIntended(DemoMechanics(), DemoStore(), 1, "alice", 7, 1, 1, 0).1 != DemoStore()
  {
  }
}

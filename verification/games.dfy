/** The game-rule layer of war_simulator/services/game_service.py (and of its
    older copy services/game_service.py) as functions over an in-memory store:
    creating a game, joining it and placing a vessel. The service classes in
    service.dfy and legacy_service.dfy run these steps imperatively and are
    proved equal to them. */
module Games {
  import opened Wrappers
  import opened Search
  import opened Fleet
  import opened Players

  /** A match and its roster, in joining order; `id` is the persistence key. */
  datatype Game = Game(id: Option<int>, players: seq<Player>)
  {
    /** `game.add_player(player)` */
    function AddPlayer(p: Player): Game {
      this.(players := players + [p])
    }
  }

  /** The in-memory stand-in for GameDao: games by id, and the id the next
      created game receives (SQLite integer keys start at 1). */
  datatype Store = Store(games: map<int, Game>, nextId: int)

  const EmptyStore := Store(map[], 1)

  /** `p.name == name`, the filter of the player lookups. */
  function Named(name: string): Player -> bool {
    (p: Player) => p.name == name
  }

  /** `p.name != name`, the filter that picks an opponent. */
  function Other(name: string): Player -> bool {
    (p: Player) => p.name != name
  }

  /** `i` is the player that `next(p for p in players if p.name == name)` picks. */
  predicate FirstNamed(ps: seq<Player>, name: string, i: int) {
    0 <= i < |ps| && ps[i].name == name && forall k :: 0 <= k < i ==> ps[k].name != name
  }

  // ---------------------------------------------------------------------
  // What every stored game satisfies when only the service changes the store

  /** Placement keeps a battlefield within its capacity and its bounds. */
  predicate FieldOk(b: Battlefield) {
    && (|b.vessels| == 0 || |b.vessels| <= b.maxHits)
    && forall j :: 0 <= j < |b.vessels| ==> b.Contains(b.vessels[j].x, b.vessels[j].y, b.vessels[j].z)
  }

  /** One or two players, every battlefield mirroring the first one's bounds. */
  predicate GameOk(g: Game) {
    && 1 <= |g.players| <= 2
    && (forall i :: 0 <= i < |g.players| ==> g.players[i].battlefield.SameBounds(g.players[0].battlefield))
    && (forall i :: 0 <= i < |g.players| ==> FieldOk(g.players[i].battlefield))
  }

  predicate Inv(st: Store) {
    forall gid :: gid in st.games ==> gid < st.nextId && GameOk(st.games[gid])
  }

  // ---------------------------------------------------------------------
  // create_game

  /** create_game: a new game holding one player on a battlefield with the six
      given bounds, stored under a fresh id which is returned. */
  function CreateGame(m: Mechanics, st: Store, name: string, minX: int, maxX: int,
                      minY: int, maxY: int, minZ: int, maxZ: int): (r: (int, Store))
    ensures r.0 == st.nextId && r.1.nextId == st.nextId + 1
    ensures r.1.games.Keys == st.games.Keys + {r.0}
    ensures forall gid :: gid in st.games && gid != r.0 ==> r.1.games[gid] == st.games[gid]
    ensures |r.1.games[r.0].players| == 1
    ensures var p := r.1.games[r.0].players[0];
      && p.id == None && p.name == name
      && p.battlefield.minX == minX && p.battlefield.maxX == maxX
      && p.battlefield.minY == minY && p.battlefield.maxY == maxY
      && p.battlefield.minZ == minZ && p.battlefield.maxZ == maxZ
      && p.battlefield.maxHits == m.defaultMaxHits && p.battlefield.vessels == []
  {
    var battlefield := NewBattlefield(m, minX, maxX, minY, maxY, minZ, maxZ);
    var game := Game(None, []).AddPlayer(NewPlayer(name, battlefield));
    (st.nextId, Store(st.games[st.nextId := game], st.nextId + 1))
  }

  lemma CreateGameKeepsInv(m: Mechanics, st: Store, name: string, minX: int, maxX: int,
                           minY: int, maxY: int, minZ: int, maxZ: int)
    requires Inv(st)
    ensures CreateGame(m, st, name, minX, maxX, minY, maxY, minZ, maxZ).0 !in st.games
    ensures Inv(CreateGame(m, st, name, minX, maxX, minY, maxY, minZ, maxZ).1)
  {
  }

  // ---------------------------------------------------------------------
  // join_game

  /** `after` is `before` with one more player, named `name`, on an empty
      battlefield of the default capacity whose bounds copy the first player's. */
  predicate Joined(before: Game, after: Game, name: string, capacity: int) {
    && before.players != []
    && after.id == before.id
    && |after.players| == |before.players| + 1
    && after.players[..|before.players|] == before.players
    && var p := after.players[|before.players|];
       && p.id == None && p.name == name
       && p.battlefield.SameBounds(before.players[0].battlefield)
       && p.battlefield.maxHits == capacity && p.battlefield.vessels == []
  }

  /** join_game: refused for a missing game and for a game that already has two
      players; otherwise the joiner is appended. A stored game always has a
      first player, whose bounds the joiner copies. */
  function JoinGame(m: Mechanics, st: Store, gid: int, name: string): (r: (bool, Store))
    requires gid in st.games ==> st.games[gid].players != []
    ensures r.0 <==> gid in st.games && |st.games[gid].players| < 2
    ensures !r.0 ==> r.1 == st
    ensures r.0 ==> r.1.nextId == st.nextId && r.1.games.Keys == st.games.Keys
    ensures r.0 ==> forall g :: g in st.games && g != gid ==> r.1.games[g] == st.games[g]
    ensures r.0 ==> Joined(st.games[gid], r.1.games[gid], name, m.defaultMaxHits)
  {
    if gid !in st.games then (false, st)
    else
      var game := st.games[gid];
      if |game.players| >= 2 then (false, st)
      else
        var first := game.players[0].battlefield;
        var battlefield := NewBattlefield(m, first.minX, first.maxX, first.minY,
                                          first.maxY, first.minZ, first.maxZ);
        (true, Store(st.games[gid := game.AddPlayer(NewPlayer(name, battlefield))], st.nextId))
  }

  lemma JoinGameKeepsInv(m: Mechanics, st: Store, gid: int, name: string)
    requires Inv(st)
    ensures Inv(JoinGame(m, st, gid, name).1)
  {
  }

  /** A full game turns every joiner away and stays as it is. */
  lemma JoinFullGameRefused(m: Mechanics, st: Store, gid: int, name: string)
    requires gid in st.games && |st.games[gid].players| >= 2
    ensures JoinGame(m, st, gid, name) == (false, st)
  {
  }

  /** Once joined, the two battlefields agree on all six bounds. */
  lemma JoinMirrorsBounds(m: Mechanics, st: Store, gid: int, name: string)
    requires gid in st.games && |st.games[gid].players| == 1
    ensures var r := JoinGame(m, st, gid, name);
      && r.0 && |r.1.games[gid].players| == 2
      && r.1.games[gid].players[0] == st.games[gid].players[0]
      && r.1.games[gid].players[1].battlefield.SameBounds(r.1.games[gid].players[0].battlefield)
  {
  }

  // ---------------------------------------------------------------------
  // add_vessel

  /** The checks add_vessel makes on the chosen player's battlefield, in order:
      the position lies inside the bounds, there is room left below `max_hits`,
      and the battlefield's own insertion succeeds. */
  predicate CanPlace(m: Mechanics, b: Battlefield, v: Vessel) {
    && b.Contains(v.x, v.y, v.z)
    && |b.vessels| < b.maxHits
    && m.accepts(b, v)
  }

  /** `after` is `before` with `v` appended to the battlefield of player `i`,
      everything else unchanged. */
  predicate Placed(before: Game, after: Game, i: int, v: Vessel) {
    && 0 <= i < |before.players|
    && var b := before.players[i].battlefield;
       after == before.(players := before.players[i := before.players[i].(battlefield := b.(vessels := b.vessels + [v]))])
  }

  /** add_vessel: succeeds only when the game exists, a player has that name and
      the first such player's battlefield passes every check; the new vessel
      then lands on that battlefield and nowhere else. */
  function AddVessel(m: Mechanics, st: Store, gid: int, name: string, kind: string,
                     x: int, y: int, z: int): (r: (bool, Store))
    ensures !r.0 ==> r.1 == st
    ensures r.0 ==> gid in st.games && r.1.nextId == st.nextId && r.1.games.Keys == st.games.Keys
    ensures r.0 ==> forall g :: g in st.games && g != gid ==> r.1.games[g] == st.games[g]
    ensures r.0 ==> Find(st.games[gid].players, Named(name)).Some?
    ensures r.0 ==> var i := Find(st.games[gid].players, Named(name)).value;
      && CanPlace(m, st.games[gid].players[i].battlefield, NewVessel(m, x, y, z, kind))
      && Placed(st.games[gid], r.1.games[gid], i, NewVessel(m, x, y, z, kind))
  {
    if gid !in st.games then (false, st)
    else
      var game := st.games[gid];
      match Find(game.players, Named(name))
      case None => (false, st)
      case Some(i) =>
        var player := game.players[i];
        var b := player.battlefield;
        var vessel := NewVessel(m, x, y, z, kind);
        if !CanPlace(m, b, vessel) then (false, st)
        else
          var player' := player.(battlefield := b.(vessels := b.vessels + [vessel]));
          (true, Store(st.games[gid := game.(players := game.players[i := player'])], st.nextId))
  }

  /** Unknown game or unknown player name: refused, nothing changes. */
  lemma AddVesselRejectsUnknownPlayer(m: Mechanics, st: Store, gid: int, name: string,
                                      kind: string, x: int, y: int, z: int)
    requires gid !in st.games || forall k :: 0 <= k < |st.games[gid].players| ==> st.games[gid].players[k].name != name
    ensures AddVessel(m, st, gid, name, kind, x, y, z) == (false, st)
  {
  }

  /** Whether the call succeeds is decided on the first player with that name:
      it succeeds exactly when that battlefield passes all three checks. */
  lemma AddVesselSucceedsIff(m: Mechanics, st: Store, gid: int, name: string, kind: string,
                             x: int, y: int, z: int, i: int)
    requires gid in st.games && FirstNamed(st.games[gid].players, name, i)
    ensures var b := st.games[gid].players[i].battlefield;
      AddVessel(m, st, gid, name, kind, x, y, z).0 <==>
        b.Contains(x, y, z) && |b.vessels| < b.maxHits && m.accepts(b, NewVessel(m, x, y, z, kind))
    ensures AddVessel(m, st, gid, name, kind, x, y, z).0
      ==> Placed(st.games[gid], AddVessel(m, st, gid, name, kind, x, y, z).1.games[gid], i, NewVessel(m, x, y, z, kind))
  {
  }

  /** A coordinate below the minimum or above the maximum on its axis is
      refused, and nothing changes. */
  lemma AddVesselRejectsOutOfBounds(m: Mechanics, st: Store, gid: int, name: string, kind: string,
                                    x: int, y: int, z: int, i: int)
    requires gid in st.games && FirstNamed(st.games[gid].players, name, i)
    requires var b := st.games[gid].players[i].battlefield;
      x < b.minX || x > b.maxX || y < b.minY || y > b.maxY || z < b.minZ || z > b.maxZ
    ensures AddVessel(m, st, gid, name, kind, x, y, z) == (false, st)
  {
  }

  /** A battlefield holding `max_hits` vessels or more takes no other. */
  lemma AddVesselRejectsWhenFull(m: Mechanics, st: Store, gid: int, name: string, kind: string,
                                 x: int, y: int, z: int, i: int)
    requires gid in st.games && FirstNamed(st.games[gid].players, name, i)
    requires |st.games[gid].players[i].battlefield.vessels| >= st.games[gid].players[i].battlefield.maxHits
    ensures AddVessel(m, st, gid, name, kind, x, y, z) == (false, st)
  {
  }

  lemma AddVesselKeepsInv(m: Mechanics, st: Store, gid: int, name: string, kind: string,
                          x: int, y: int, z: int)
    requires Inv(st)
    ensures Inv(AddVessel(m, st, gid, name, kind, x, y, z).1)
  {
  }
}

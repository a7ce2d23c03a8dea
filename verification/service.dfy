/** war_simulator/services/game_service.py: GameService over an in-memory
    store standing in for GameDao. Each method performs the source's steps in
    order and is proved to end in the state, and with the answer, that the
    matching function of Games or Shots describes. */
module Service {
  import opened Wrappers
  import opened Search
  import opened Fleet
  import opened Players
  import opened Games
  import opened Shots

  class GameService {
    /** The behaviour of the model classes the service calls into. */
    const mechanics: Mechanics
    /** GameDao's table of games, by id. */
    var games: map<int, Game>
    /** The id GameDao hands to the next created game. */
    var nextId: int

    function State(): Store
      reads this
    {
      Store(games, nextId)
    }

    ghost predicate Valid()
      reads this
    {
      Inv(State())
    }

    constructor (m: Mechanics)
      ensures Valid() && mechanics == m && State() == EmptyStore
    {
      mechanics := m;
      games := map[];
      nextId := 1;
    }

    /** GameDao.find_game, with None for a missing id. */
    method FindGame(gid: int) returns (g: Option<Game>)
      ensures g.Some? <==> gid in games
      ensures g.Some? ==> g.value == games[gid]
    {
      if gid in games {
        g := Some(games[gid]);
      } else {
        g := None;
      }
    }

    method CreateGame(name: string, minX: int, maxX: int, minY: int, maxY: int,
                      minZ: int, maxZ: int) returns (gid: int)
      requires Valid()
      modifies this
      ensures Valid()
      ensures (gid, State()) == Games.CreateGame(mechanics, old(State()), name, minX, maxX, minY, maxY, minZ, maxZ)
    {
      CreateGameKeepsInv(mechanics, State(), name, minX, maxX, minY, maxY, minZ, maxZ);
      var game := Game(None, []);
      var battlefield := NewBattlefield(mechanics, minX, maxX, minY, maxY, minZ, maxZ);
      game := game.AddPlayer(NewPlayer(name, battlefield));
      // GameDao.create_game
      gid := nextId;
      games := games[gid := game];
      nextId := nextId + 1;
    }

    method JoinGame(gid: int, name: string) returns (ok: bool)
      requires Valid()
      modifies this
      ensures Valid()
      ensures (ok, State()) == Games.JoinGame(mechanics, old(State()), gid, name)
    {
      JoinGameKeepsInv(mechanics, State(), gid, name);
      var found := FindGame(gid);
      if found.None? {
        return false;
      }
      var game := found.value;
      if |game.players| >= 2 {
        return false;
      }
      var first := game.players[0].battlefield;
      var battlefield := NewBattlefield(mechanics, first.minX, first.maxX, first.minY,
                                        first.maxY, first.minZ, first.maxZ);
      game := game.AddPlayer(NewPlayer(name, battlefield));
      // GameDao.update_game
      games := games[gid := game];
      ok := true;
    }

    method AddVessel(gid: int, name: string, kind: string, x: int, y: int, z: int) returns (ok: bool)
      requires Valid()
      modifies this
      ensures Valid()
      ensures (ok, State()) == Games.AddVessel(mechanics, old(State()), gid, name, kind, x, y, z)
    {
      AddVesselKeepsInv(mechanics, State(), gid, name, kind, x, y, z);
      var found := FindGame(gid);
      if found.None? {
        return false;
      }
      var game := found.value;
      var index := Find(game.players, Named(name));
      if index.None? {
        return false;
      }
      var player := game.players[index.value];
      var b := player.battlefield;
      if x < b.minX || x > b.maxX || y < b.minY || y > b.maxY || z < b.minZ || z > b.maxZ {
        return false;
      }
      if |b.vessels| >= b.maxHits {
        return false;
      }
      var vessel := NewVessel(mechanics, x, y, z, kind);
      if !mechanics.accepts(b, vessel) {
        return false;
      }
      player := player.(battlefield := b.(vessels := b.vessels + [vessel]));
      // db_session.merge(player)
      games := games[gid := game.(players := game.players[index.value := player])];
      ok := true;
    }

    /** shoot_at as written: it changes nothing, so it has no frame, and its
        reply is never True. */
    method ShootAt(gid: int, shooter: string, vid: int, x: int, y: int, z: int) returns (r: Option<bool>)
      ensures r == Shots.ShootAt(mechanics, State(), gid, shooter, vid, x, y, z).0
      ensures r != Some(true)
    {
      var found := FindGame(gid);
      if found.None? {
        return Some(false);
      }
      var game := found.value;
      var s := Find(game.players, Named(shooter));
      if s.None? {
        return Some(false);
      }
      var vessels := game.players[s.value].battlefield.vessels;
      var v := Find(vessels, Armed(mechanics, vid));
      if v.None? {
        return Some(false);
      }
      if !mechanics.inRange(vessels[v.value], x, y, z) {
        return Some(false);
      }
      var i := 0;
      while i < |game.players|
        invariant 0 <= i <= |game.players|
        invariant forall k :: 0 <= k < i ==> game.players[k].name == shooter
      {
        var p := game.players[i];
        if p.name != shooter {
          var target := Find(p.battlefield.vessels, Targets(x, y, z));
          if target.Some? {
            FindIsFirst(game.players, Other(shooter), i);
            break;
          }
          FindIsFirst(game.players, Other(shooter), i);
          return Some(false);
        }
        i := i + 1;
      }
      // db_session.merge(shooter) has no effect on the in-memory store
      r := None;
    }
  }
}

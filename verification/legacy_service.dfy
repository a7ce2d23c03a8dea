/** services/game_service.py: the older copy of GameService. Its
    create_game, join_game and add_vessel take the same steps as the
    war_simulator copy (the player's field is spelled `battle_field` there),
    so its methods are proved against the same functions of Games; it has no
    shoot_at and no get_game_status. */
module LegacyService {
  import opened Wrappers
  import opened Search
  import opened Fleet
  import opened Players
  import opened Games

  class GameService {
    /** The behaviour of the model classes the service calls into. */
    const mechanics: Mechanics
    /** GameDao's table of games, by id. */
    var games: map<int, Game>
    /** The id GameDao hands to the next created game. */
    var nextId: int

    function State(): Store
      reads this
    {
      Store(games, nextId)
    }

    ghost predicate Valid()
      reads this
    {
      Inv(State())
    }

    constructor (m: Mechanics)
      ensures Valid() && mechanics == m && State() == EmptyStore
    {
      mechanics := m;
      games := map[];
      nextId := 1;
    }

    /** GameDao.find_game, with None for a missing id. */
    method FindGame(gid: int) returns (g: Option<Game>)
      ensures g.Some? <==> gid in games
      ensures g.Some? ==> g.value == games[gid]
    {
      if gid in games {
        g := Some(games[gid]);
      } else {
        g := None;
      }
    }

    method CreateGame(name: string, minX: int, maxX: int, minY: int, maxY: int,
                      minZ: int, maxZ: int) returns (gid: int)
      requires Valid()
      modifies this
      ensures Valid()
      ensures (gid, State()) == Games.CreateGame(mechanics, old(State()), name, minX, maxX, minY, maxY, minZ, maxZ)
    {
      CreateGameKeepsInv(mechanics, State(), name, minX, maxX, minY, maxY, minZ, maxZ);
      var game := Game(None, []);
      var battlefield := NewBattlefield(mechanics, minX, maxX, minY, maxY, minZ, maxZ);
      game := game.AddPlayer(NewPlayer(name, battlefield));
      // GameDao.create_game
      gid := nextId;
      games := games[gid := game];
      nextId := nextId + 1;
    }

    method JoinGame(gid: int, name: string) returns (ok: bool)
      requires Valid()
      modifies this
      ensures Valid()
      ensures (ok, State()) == Games.JoinGame(mechanics, old(State()), gid, name)
    {
      JoinGameKeepsInv(mechanics, State(), gid, name);
      var found := FindGame(gid);
      if found.None? {
        return false;
      }
      var game := found.value;
      if |game.players| >= 2 {
        return false;
      }
      var first := game.players[0].battlefield;
      var battlefield := NewBattlefield(mechanics, first.minX, first.maxX, first.minY,
                                        first.maxY, first.minZ, first.maxZ);
      game := game.AddPlayer(NewPlayer(name, battlefield));
      // GameDao.update_game
      games := games[gid := game];
      ok := true;
    }

    method AddVessel(gid: int, name: string, kind: string, x: int, y: int, z: int) returns (ok: bool)
      requires Valid()
      modifies this
      ensures Valid()
      ensures (ok, State()) == Games.AddVessel(mechanics, old(State()), gid, name, kind, x, y, z)
    {
      AddVesselKeepsInv(mechanics, State(), gid, name, kind, x, y, z);
      var found := FindGame(gid);
      if found.None? {
        return false;
      }
      var game := found.value;
      var index := Find(game.players, Named(name));
      if index.None? {
        return false;
      }
      var player := game.players[index.value];
      var b := player.battlefield;
      if x < b.minX || x > b.maxX || y < b.minY || y > b.maxY || z < b.minZ || z > b.maxZ {
        return false;
      }
      if |b.vessels| >= b.maxHits {
        return false;
      }
      var vessel := NewVessel(mechanics, x, y, z, kind);
      if !mechanics.accepts(b, vessel) {
        return false;
      }
      player := player.(battlefield := b.(vessels := b.vessels + [vessel]));
      // db_session.merge(player)
      games := games[gid := game.(players := game.players[index.value := player])];
      ok := true;
    }
  }
}

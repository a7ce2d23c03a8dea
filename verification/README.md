# Naval battle game service — a Dafny model

This project models the game-rule layer of a two-player 3-D naval battle game:
the `GameService` class. A player creates a game on a battlefield bounded on
three axes, a second player joins with a battlefield of the same bounds, each
places vessels inside the bounds up to the battlefield's `max_hits` capacity,
players shoot at coordinates, and each player can ask whether they have lost
(`PERDU`), won (`GAGNE`) or the game is in progress (`ENCOURS`).

The service exists twice in the repository: `war_simulator/services/game_service.py`
(create, join, add vessel, shoot, status) and an older `services/game_service.py`
whose create, join and add-vessel code is the same apart from the field
spelling `battle_field`. Both are modelled as classes (`Service.GameService`,
`LegacyService.GameService`) whose methods are proved equal to one set of
functions.

Layout, leaves first:

- `wrappers.dfy` — `Option`.
- `search.dfy` — `Search.Find`, the first-match search written in Python as
  `next((e for e in s if cond(e)), None)`.
- `fleet.dfy` — minimal state of the model classes whose code is not part of
  this model (Weapon, Vessel, Battlefield). `Mechanics` holds what their
  methods decide, as uninterpreted values: `can_shoot`, `in_range`, `fire_at`,
  `all_vessels_destroyed`, whether `Battlefield.add_vessel` succeeds, the
  default `max_hits`, and what a new vessel of a given type is equipped with.
- `player.dfy` — the `Player` record of `war_simulator/model/player.py`.
- `games.dfy` — the in-memory store that stands in for `GameDao` (a map from
  game id to `Game` plus the next id), and create/join/add-vessel as functions
  over it. It also holds the store invariant `Inv`: each game has one or two
  players, every battlefield has the first one's bounds, and no battlefield
  holds more than `max_hits` vessels or a vessel outside its bounds.
- `shots.dfy` — `shoot_at` as written, and as evidently intended (see Findings).
- `status.dfy` — `get_game_status`.
- `traces.dfy` — any sequence of service calls from an empty store keeps `Inv`.
- `service.dfy`, `legacy_service.dfy` — the two service classes. Each method
  takes the source's steps in order on the class's `games` and `nextId`
  fields, and its postcondition equals the matching function.

## Model

| member | source | states |
|---|---|---|
| `Search.Find` | war_simulator/services/game_service.py:45 | The index of the first element that matches, or None exactly when no element matches. |
| `Players.NewPlayer` | war_simulator/model/player.py:5-8 | A new player has no id and stores the given name and battlefield unchanged. |
| `Players.Player.GetName` | war_simulator/model/player.py:10-11 | Returns the stored name. |
| `Players.Player.GetBattlefield` | war_simulator/model/player.py:13-14 | Returns the stored battlefield. |
| `Players.AccessorsReturnConstructorArguments` | war_simulator/model/player.py:4-14 | The getters give back exactly the constructor's arguments, and the id is None. |
| `Games.CreateGame` | war_simulator/services/game_service.py:12-17 | The new game is stored under a fresh id, which is returned; it has exactly one player, with the given name and no id. That player's battlefield has the six bounds in the order (min_x, max_x, min_y, max_y, min_z, max_z), no vessels and the default capacity. Other games are unchanged. |
| `Games.CreateGameKeepsInv` | war_simulator/services/game_service.py:14-17 | The returned id was not in use, and the store invariant still holds. |
| `Games.JoinGame` | war_simulator/services/game_service.py:19-34 | Succeeds exactly when the game exists and has fewer than two players; a refusal changes nothing. On success exactly one player is appended, with the given name and an empty battlefield whose six bounds equal players[0]'s. The earlier players and the other games are unchanged. |
| `Games.JoinFullGameRefused` | war_simulator/services/game_service.py:24-25 | A game with two or more players returns False and stays as it was. |
| `Games.JoinMirrorsBounds` | war_simulator/services/game_service.py:27-31 | Joining a one-player game gives two players: the first unchanged, the second on the same bounds. |
| `Games.JoinGameKeepsInv` | war_simulator/services/game_service.py:19-34 | Joining keeps at most two players and the shared bounds. |
| `Games.AddVessel` | war_simulator/services/game_service.py:39-62 | A refusal changes nothing. A success means the game exists, some player has the name, and the first such player's battlefield passes the bounds, capacity and insertion checks. The new vessel is then appended to that battlefield only. |
| `Games.AddVesselRejectsUnknownPlayer` | war_simulator/services/game_service.py:41-47 | An unknown game or player name returns False and changes nothing. |
| `Games.AddVesselRejectsOutOfBounds` | services/game_service.py:48-52 | Any coordinate below the minimum or above the maximum on its axis returns False and changes nothing. |
| `Games.AddVesselRejectsWhenFull` | war_simulator/services/game_service.py:53-55 | A battlefield that already holds `max_hits` vessels or more returns False and changes nothing. |
| `Games.AddVesselSucceedsIff` | services/game_service.py:54-62 | Success holds exactly when the position is inside the bounds (inclusive), fewer than `max_hits` vessels are placed, and the insertion succeeds. The vessel then lands on the first matching player's battlefield. |
| `Games.AddVesselKeepsInv` | war_simulator/services/game_service.py:49-60 | Placement never takes a battlefield above `max_hits` vessels and never places a vessel outside the bounds. |
| `Shots.Aim` | war_simulator/services/game_service.py:64-79 | When the guards pass, the shooter is the first player with that name. The chosen vessel is that player's first vessel with the given id that can shoot, and it has the target in range. |
| `Shots.AimSucceeds` | war_simulator/services/game_service.py:64-79 | The converse: when the game exists and the first player with the shooter's name has a first vessel with the id that can shoot and has the target in range, the aim is exactly that player and that vessel. |
| `Shots.AimRefused` | war_simulator/services/game_service.py:73-79 | There is no aim when the shooter has no vessel with that id that can shoot. There is none either when the first such vessel does not have the target in range. |
| `Shots.ShootAt` | war_simulator/services/game_service.py:64-96 | Never returns True and never changes the store. A failed guard returns False. |
| `Shots.ShootAtWithoutOpponent` | war_simulator/services/game_service.py:81-96 | Once aimed, when every player bears the shooter's name the loop skips them all: the answer is None and nothing changes. |
| `Shots.ShootAtExaminesFirstOpponent` | war_simulator/services/game_service.py:81-92 | Once aimed, only the first player with another name is examined. The answer is False exactly when that player has no vessel at (x, y, z); otherwise it is None. |
| `Shots.FirstTarget` | war_simulator/services/game_service.py:81-87 | The first vessel standing exactly at (x, y, z) on a battlefield of a player whose name differs from the shooter's: no earlier such player, and no earlier vessel of that player, stands there. None exactly when there is no such vessel. |
| `Shots.ShootIntended` | war_simulator/services/game_service.py:81-96 | Corrected shot: True exactly when the guards pass and some opponent vessel stands at (x, y, z). Exactly that vessel is then replaced by its state after `fire_at`; False changes nothing. |
| `Shots.IntendedShotHitsOnlyTheTarget` | war_simulator/services/game_service.py:84-94 | A vessel changed by the corrected shot belongs to a player named differently from the shooter and stands exactly at (x, y, z). |
| `Shots.AsWrittenNeverFires` | war_simulator/services/game_service.py:86-96 | In a game of at most two players, whenever the corrected shot fires, the code as written returns None and leaves the store unchanged. |
| `Shots.WrittenShotLeavesTargetIntact` | war_simulator/services/game_service.py:81-96 | A concrete two-player game in which the written code returns None and changes nothing, while the corrected shot changes the target vessel. |
| `Status.GetGameStatus` | war_simulator/services/game_service.py:98-117 | Any answer other than ENCOURS names an existing game and a player of it. GAGNE also requires a player with another name. |
| `Status.UnknownIsInProgress` | war_simulator/services/game_service.py:99-106 | An unknown game or player gets ENCOURS (fail-open). |
| `Status.LostIff` | war_simulator/services/game_service.py:108-110 | PERDU exactly when the player's own battlefield is all destroyed. This is checked before the opponent's, so it takes precedence. |
| `Status.WonIff` | war_simulator/services/game_service.py:112-115 | GAGNE exactly when the player's own battlefield is not all destroyed and that of the first player with another name is. |
| `Status.OpponentsSeeOppositeOutcomes` | war_simulator/services/game_service.py:98-117 | With two differently named players, one player's GAGNE is the other's PERDU. A PERDU is the other's GAGNE unless both battlefields are destroyed. |
| `Traces.Step` | war_simulator/services/game_service.py:12-96 | Each service call keeps the store invariant. |
| `Traces.Run` | war_simulator/services/game_service.py:12-96 | Any sequence of calls keeps the store invariant. |
| `Traces.ServiceKeepsGameRules` | war_simulator/services/game_service.py:24-55 | From an empty store, every game has one or two players on identical bounds. No battlefield ever holds more than `max_hits` vessels or a vessel outside its bounds. |
| `Service.GameService.constructor` | war_simulator/services/game_service.py:9-10 | The service starts with an empty store. |
| `Service.GameService.FindGame` | war_simulator/services/game_service.py:36-37 | Returns the stored game for the id, or None when there is none. |
| `Service.GameService.CreateGame` | war_simulator/services/game_service.py:12-17 | Builds the battlefield and the player and stores the game. Ends in the state and with the id `Games.CreateGame` gives, and keeps the invariant. |
| `Service.GameService.JoinGame` | war_simulator/services/game_service.py:19-34 | The guarded steps of join_game, ending as `Games.JoinGame` says. |
| `Service.GameService.AddVessel` | war_simulator/services/game_service.py:39-62 | The guarded steps of add_vessel, ending as `Games.AddVessel` says. |
| `Service.GameService.ShootAt` | war_simulator/services/game_service.py:64-96 | The guards and the loop over the players. Has no frame (changes nothing), returns what `Shots.ShootAt` gives, and never returns True. |
| `LegacyService.GameService.constructor` | services/game_service.py:9-10 | The older service starts with an empty store. |
| `LegacyService.GameService.FindGame` | services/game_service.py:36-37 | Returns the stored game for the id, or None. |
| `LegacyService.GameService.CreateGame` | services/game_service.py:12-17 | One-player game with the six bounds in argument order, as `Games.CreateGame` says. |
| `LegacyService.GameService.JoinGame` | services/game_service.py:19-34 | Returns False, changing nothing, for a missing game or one with two or more players. Otherwise adds one player whose `battle_field` bounds copy players[0]'s, as `Games.JoinGame` says. |
| `LegacyService.GameService.AddVessel` | services/game_service.py:39-62 | Refused for an unknown name (first match), out-of-bounds position or full battlefield. True only after every check and the insertion, as `Games.AddVessel` says. |

## Left out

- Persistence (`GameDao`, the SQLAlchemy entities, the SQLite engine and session) is I/O. It is replaced by an in-memory map from game id to game. A missing id gives None here; the real `find_game` raises, because it calls `.one()` (war_simulator/dao/game_dao.py:81). The DAO's own defects, such as `map_to_game_entity` returning the class (war_simulator/dao/game_dao.py:90-92), are not modelled.
- `db_session.merge(...)` and `update_game` (war_simulator/services/game_service.py:33, 61, 96) have no effect beyond the in-memory update. Ids assigned by the database are not modelled: players and new vessels keep the id None. As a consequence, no vessel has an id in any store that the service reaches from `EmptyStore`. So `Shots.Aim` is always None there and shoot_at returns False in every such trace. Firing happens only in stores built by hand, such as `Shots.DemoStore`.
- The code of Game, Battlefield, Vessel and Weapon is not part of this model. Their methods are uninterpreted fields of `Mechanics`. This covers the range metric, the damage `fire_at` does, `can_shoot`, `all_vessels_destroyed`, the default `max_hits` and per-type equipment. Any effect of `fire_at` on the firing vessel (such as spent ammunition) is not modelled; only the target's new state is.
- `Battlefield.add_vessel(vessel)` is called on the class, not on the player's battlefield (war_simulator/services/game_service.py:59). It is modelled as an insertion that may fail. On success it appends to the battlefield of the player found by name. A literal Python call on the class would not reach that battlefield.
- join_game on a stored game with no players would fail at `players[0]`. `Games.JoinGame` requires a first player, which every game the service creates has.
- The FastAPI controller and its schemas are HTTP transport.
- Per-game locking and concurrent requests are outside a sequential model.
- `get_game_status` is modelled as the pure function `Status.GetGameStatus` over the service's store (`GameService.State()`), with no method on the class.
- Whether an empty battlefield counts as destroyed is decided by `all_vessels_destroyed` alone, which is uninterpreted here. `create_game` does not validate the bounds, and neither does `Games.CreateGame`. A shot at a cell with no opponent vessel returns False.

## Findings

| source | as written | input that shows it | evidently intended | confidence | as-written member | corrected member |
|---|---|---|---|---|---|---|
| war_simulator/services/game_service.py:81-96 | The target check and `vessel.fire_at(target)` are indented inside the loop over the players. A found target leaves the loop by `break` before the call, and a missing one returns False. So `fire_at` is never reached, and the success path returns None. | alice owns vessel 7 at (0, 0, 0), which can shoot and has everything in range; bob has a vessel at (1, 1, 0). Alice fires vessel 7 at (1, 1, 0): the answer is None and bob's vessel is unchanged. | After scanning the opponents: return False when no opponent vessel stands at (x, y, z); otherwise fire at it and return True. | high; not executed | `Shots.WrittenShotLeavesTargetIntact` | `Shots.ShootIntended` |

The service classes keep the code as written (`Shots.ShootAt`). `Shots.ShootIntended` sits beside it with its property proved in `Shots.IntendedShotHitsOnlyTheTarget`, and `Shots.AsWrittenNeverFires` states for all inputs how the two differ.

/** Any sequence of service calls starting from an empty store keeps the
    rules that create_game, join_game and add_vessel enforce one call at a
    time. */
module Traces {
  import opened Fleet
  import opened Games
  import opened Shots

  /** One state-changing call to the service, with its arguments. */
  datatype Call =
    | Create(name: string, minX: int, maxX: int, minY: int, maxY: int, minZ: int, maxZ: int)
    | Join(gid: int, name: string)
    | Place(gid: int, name: string, kind: string, x: int, y: int, z: int)
    | Shoot(gid: int, name: string, vid: int, x: int, y: int, z: int)

  /** The store after one call; each call keeps the invariant. */
  function Step(m: Mechanics, st: Store, c: Call): (st': Store)
    requires Inv(st)
    ensures Inv(st')
  {
    match c
    case Create(name, minX, maxX, minY, maxY, minZ, maxZ) =>
      CreateGameKeepsInv(m, st, name, minX, maxX, minY, maxY, minZ, maxZ);
      CreateGame(m, st, name, minX, maxX, minY, maxY, minZ, maxZ).1
    case Join(gid, name) =>
      JoinGameKeepsInv(m, st, gid, name);
      JoinGame(m, st, gid, name).1
    case Place(gid, name, kind, x, y, z) =>
      AddVesselKeepsInv(m, st, gid, name, kind, x, y, z);
      AddVessel(m, st, gid, name, kind, x, y, z).1
    case Shoot(gid, name, vid, x, y, z) =>
      ShootAt(m, st, gid, name, vid, x, y, z).1
  }

  /** The store after the calls, in order. */
  function Run(m: Mechanics, st: Store, calls: seq<Call>): (st': Store)
    requires Inv(st)
    ensures Inv(st')
    decreases |calls|
  {
    if calls == [] then st else Run(m, Step(m, st, calls[0]), calls[1..])
  }

  /** Through the service, a game never has more than two players nor fewer
      than one, both battlefields keep the same bounds, and no battlefield
      holds more than `max_hits` vessels or a vessel outside its bounds. */
  lemma ServiceKeepsGameRules(m: Mechanics, calls: seq<Call>, gid: int)
    requires gid in Run(m, EmptyStore, calls).games
    ensures var g := Run(m, EmptyStore, calls).games[gid];
      && 1 <= |g.players| <= 2
      && forall i :: 0 <= i < |g.players| ==>
           var b := g.players[i].battlefield;
           && b.SameBounds(g.players[0].battlefield)
           && (|b.vessels| == 0 || |b.vessels| <= b.maxHits)
           && forall j :: 0 <= j < |b.vessels| ==> b.Contains(b.vessels[j].x, b.vessels[j].y, b.vessels[j].z)
  {
  }
}

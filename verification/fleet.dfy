/** Minimal abstract state of the model classes the services use but whose
    code is not part of this model: Weapon, Vessel and Battlefield, plus the
    behaviour of their methods, gathered in `Mechanics`. The stored columns
    follow the persistence entities (war_simulator/dao/game_dao.py:30-67). */
module Fleet {
  import opened Wrappers

  datatype Weapon = Weapon(ammunitions: int, range: int, kind: string)

  /** A vessel occupies one cell. Its `id` is given by the persistence layer,
      so a vessel built by the service has none yet. */
  datatype Vessel = Vessel(id: Option<int>, x: int, y: int, z: int, kind: string,
                           hitsToBeDestroyed: int, weapon: Weapon)
  {
    /** `coord_x == x and coord_y == y and coord_z == z` */
    predicate At(x': int, y': int, z': int) {
      x == x' && y == y' && z == z'
    }
  }

  /** A player's bounded 3-D volume and the vessels placed in it, in placement
      order; `maxHits` is the most vessels it may hold. */
  datatype Battlefield = Battlefield(minX: int, maxX: int, minY: int, maxY: int,
                                     minZ: int, maxZ: int, maxHits: int,
                                     vessels: seq<Vessel>)
  {
    /** The position lies inside the bounds on every axis, bounds included. */
    predicate Contains(x: int, y: int, z: int) {
      minX <= x <= maxX && minY <= y <= maxY && minZ <= z <= maxZ
    }

    predicate SameBounds(other: Battlefield) {
      && minX == other.minX && maxX == other.maxX
      && minY == other.minY && maxY == other.maxY
      && minZ == other.minZ && maxZ == other.maxZ
    }
  }

  /** What the unseen classes decide, left uninterpreted:
      - `defaultMaxHits`: the `max_hits` a new Battlefield starts with;
      - `hitsOf`, `weaponOf`: what `Vessel(x, y, z, vessel_type)` equips by type;
      - `canShoot`: `Vessel.can_shoot()`;
      - `inRange`: `Vessel.in_range(x, y, z)`;
      - `fireAt`: the target's new state after `shooter.fire_at(target)`;
      - `allVesselsDestroyed`: `Battlefield.all_vessels_destroyed()`;
      - `accepts`: whether `Battlefield.add_vessel(vessel)` reports success. */
  datatype Mechanics = Mechanics(
    defaultMaxHits: int,
    hitsOf: string -> int,
    weaponOf: string -> Weapon,
    canShoot: Vessel -> bool,
    inRange: (Vessel, int, int, int) -> bool,
    fireAt: (Vessel, Vessel) -> Vessel,
    allVesselsDestroyed: Battlefield -> bool,
    accepts: (Battlefield, Vessel) -> bool)

  /** `Battlefield(min_x, max_x, min_y, max_y, min_z, max_z)`: the six bounds in
      that order, no vessels, the default capacity. */
  function NewBattlefield(m: Mechanics, minX: int, maxX: int, minY: int, maxY: int,
                          minZ: int, maxZ: int): Battlefield
  {
    Battlefield(minX, maxX, minY, maxY, minZ, maxZ, m.defaultMaxHits, [])
  }

  /** `Vessel(x, y, z, vessel_type)` */
  function NewVessel(m: Mechanics, x: int, y: int, z: int, kind: string): Vessel
  {
    Vessel(None, x, y, z, kind, m.hitsOf(kind), m.weaponOf(kind))
  }
}

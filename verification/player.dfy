/** war_simulator/model/player.py: a player is a name bound to one battlefield. */
module Players {
  import opened Wrappers
  import opened Fleet

  /** `id` stays None until the persistence layer assigns one. */
  datatype Player = Player(id: Option<int>, name: string, battlefield: Battlefield)
  {
    function GetName(): (n: string)
      ensures n == name
    {
      name
    }

    function GetBattlefield(): (b: Battlefield)
      ensures b == battlefield
    {
      battlefield
    }
  }

  /** `Player(name, battlefield)` */
  function NewPlayer(name: string, battlefield: Battlefield): (p: Player)
    ensures p.id == None
    ensures p.name == name && p.battlefield == battlefield
  {
    Player(None, name, battlefield)
  }

  /** The accessors give back exactly what the constructor stored. */
  lemma AccessorsReturnConstructorArguments(name: string, battlefield: Battlefield)
    ensures NewPlayer(name, battlefield).GetName() == name
    ensures NewPlayer(name, battlefield).GetBattlefield() == battlefield
    ensures NewPlayer(name, battlefield).id == None
  {
  }
}

/** get_game_status of war_simulator/services/game_service.py: a read-only
    chain of guarded answers, from one player's point of view. */
module Status {
  import opened Wrappers
  import opened Search
  import opened Fleet
  import opened Players
  import opened Games

  /** The three answers, with the strings the service returns. */
  datatype GameStatus = Lost | Won | InProgress
  {
    function Text(): string {
      match this
      case Lost => "PERDU"
      case Won => "GAGNE"
      case InProgress => "ENCOURS"
    }
  }

  /** get_game_status: in progress for an unknown game or player (fail-open);
      lost when the first player with that name has all vessels destroyed;
      won when the first player with another name has; otherwise in progress.
      Any answer but in progress names a real player of a real game. */
  function GetGameStatus(m: Mechanics, st: Store, gid: int, name: string): (s: GameStatus)
    ensures s != InProgress ==> gid in st.games && Find(st.games[gid].players, Named(name)).Some?
    ensures s == Won ==> Find(st.games[gid].players, Other(name)).Some?
  {
    if gid !in st.games then InProgress
    else
      var ps := st.games[gid].players;
      match Find(ps, Named(name))
      case None => InProgress
      case Some(i) =>
        if m.allVesselsDestroyed(ps[i].battlefield) then Lost
        else match Find(ps, Other(name))
          case None => InProgress
          case Some(k) => if m.allVesselsDestroyed(ps[k].battlefield) then Won else InProgress
  }

  /** `k` is the player that `next(p for p in players if p.name != name)` picks. */
  predicate FirstOther(ps: seq<Player>, name: string, k: int) {
    0 <= k < |ps| && ps[k].name != name && forall j :: 0 <= j < k ==> ps[j].name == name
  }

  lemma UnknownIsInProgress(m: Mechanics, st: Store, gid: int, name: string)
    requires gid !in st.games || forall k :: 0 <= k < |st.games[gid].players| ==> st.games[gid].players[k].name != name
    ensures GetGameStatus(m, st, gid, name) == InProgress
  {
  }

  /** Lost is decided on the player's own battlefield alone, before the
      opponent's is looked at: it takes precedence over Won. */
  lemma LostIff(m: Mechanics, st: Store, gid: int, name: string, i: int)
    requires gid in st.games && FirstNamed(st.games[gid].players, name, i)
    ensures GetGameStatus(m, st, gid, name) == Lost <==> m.allVesselsDestroyed(st.games[gid].players[i].battlefield)
  {
  }

  lemma WonIff(m: Mechanics, st: Store, gid: int, name: string, i: int, k: int)
    requires gid in st.games && FirstNamed(st.games[gid].players, name, i)
    requires FirstOther(st.games[gid].players, name, k)
    ensures GetGameStatus(m, st, gid, name) == Won <==>
      !m.allVesselsDestroyed(st.games[gid].players[i].battlefield)
      && m.allVesselsDestroyed(st.games[gid].players[k].battlefield)
  {
  }

  /** Between two players with different names, a win seen by one is a loss
      seen by the other, and a loss is a win for the other unless both
      battlefields are destroyed. */
  lemma OpponentsSeeOppositeOutcomes(m: Mechanics, st: Store, gid: int)
    requires gid in st.games && |st.games[gid].players| == 2
    requires st.games[gid].players[0].name != st.games[gid].players[1].name
    ensures var ps := st.games[gid].players;
      GetGameStatus(m, st, gid, ps[0].name) == Won ==> GetGameStatus(m, st, gid, ps[1].name) == Lost
    ensures var ps := st.games[gid].players;
      GetGameStatus(m, st, gid, ps[1].name) == Won ==> GetGameStatus(m, st, gid, ps[0].name) == Lost
    ensures var ps := st.games[gid].players;
      GetGameStatus(m, st, gid, ps[0].name) == Lost && !m.allVesselsDestroyed(ps[1].battlefield) ==>
        GetGameStatus(m, st, gid, ps[1].name) == Won
    ensures var ps := st.games[gid].players;
      GetGameStatus(m, st, gid, ps[1].name) == Lost && !m.allVesselsDestroyed(ps[0].battlefield) ==>
        GetGameStatus(m, st, gid, ps[0].name) == Won
  {
  }
}

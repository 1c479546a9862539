/** The multiplayer session service: sessions keyed by id (ordinal, case-sensitive), each
    holding a case-insensitive set of players it updates in place. An empty session is removed
    the next time a player leaves it. Session ids and creation times are parameters. */
module Sessions {
  import opened Wrappers
  import opened Text
  import opened Sorting

  datatype SessionDescriptor = SessionDescriptor(id: string, name: string, playerCount: int, createdAt: int)

  datatype SessionError = BlankArgument(parameter: string)

  /** One session: its name and creation time, and the players (folded) who joined it. */
  class SessionState {
    const name: string
    const createdAt: int
    var players: set<string>

    constructor(name: string, createdAt: int)
      ensures this.name == name && this.createdAt == createdAt && players == {}
    {
      this.name := name;
      this.createdAt := createdAt;
      players := {};
    }

    /** Join: adding a player already present ignoring case changes nothing. */
    method Join(playerId: string)
      modifies this
      ensures players == old(players) + {Fold(playerId)}
    {
      players := players + {Fold(playerId)};
    }

    /** Leave: removing a player who is not present changes nothing. */
    method Leave(playerId: string)
      modifies this
      ensures players == old(players) - {Fold(playerId)}
    {
      players := players - {Fold(playerId)};
    }

    /** Describe: the session under the given id, with its current head count. */
    function Describe(id: string): (r: SessionDescriptor)
      reads this
      ensures r.id == id && r.name == name && r.createdAt == createdAt && r.playerCount == |players|
      ensures r.playerCount == 0 <==> players == {}
    {
      SessionDescriptor(id, name, |players|, createdAt)
    }
  }

  /** Snapshot's order: more players first, then the newer session first. */
  predicate BusierFirst(a: SessionDescriptor, b: SessionDescriptor)
  {
    a.playerCount > b.playerCount || (a.playerCount == b.playerCount && a.createdAt >= b.createdAt)
  }

  lemma BusierFirstTotalPreorder()
    ensures TotalPreorder(BusierFirst)
  {
  }

  class SessionService {
    var sessions: map<string, SessionState>

    /** Every id holds its own state object. */
    ghost predicate Valid()
      reads this
    {
      forall a, b | a in sessions && b in sessions && a != b :: sessions[a] != sessions[b]
    }

    constructor()
      ensures Valid() && sessions == map[]
    {
      sessions := map[];
    }

    /** CreateSessionAsync: a blank name is refused. The generated id is a parameter; when a
        session already has that id it is described unchanged, otherwise a new empty session
        is added under it. */
    method CreateSession(name: string, id: string, now: int) returns (r: Result<SessionDescriptor, SessionError>)
      requires Valid()
      modifies this
      ensures Valid()
      ensures IsBlank(name) ==> r == Err(BlankArgument("name")) && sessions == old(sessions)
      ensures !IsBlank(name) && id in old(sessions) ==> sessions == old(sessions) && r == Ok(sessions[id].Describe(id))
      ensures !IsBlank(name) && id !in old(sessions) ==>
                sessions.Keys == old(sessions.Keys) + {id} && fresh(sessions[id]) && sessions[id].players == {}
                && (forall k | k in old(sessions) :: sessions[k] == old(sessions[k]))
                && r == Ok(SessionDescriptor(id, name, 0, now))
    {
      if IsBlank(name) {
        return Err(BlankArgument("name"));
      }
      if id !in sessions {
        var state := new SessionState(name, now);
        sessions := sessions[id := state];
      }
      r := Ok(sessions[id].Describe(id));
    }

    /** JoinSessionAsync: blank arguments are refused; an unknown session gives false and
        changes nothing; otherwise the player joins it and the answer is true. */
    method JoinSession(sessionId: string, playerId: string) returns (r: Result<bool, SessionError>)
      requires Valid()
      modifies sessions.Values
      ensures Valid() && sessions == old(sessions)
      ensures IsBlank(sessionId) ==> r == Err(BlankArgument("sessionId"))
      ensures !IsBlank(sessionId) && IsBlank(playerId) ==> r == Err(BlankArgument("playerId"))
      ensures !IsBlank(sessionId) && !IsBlank(playerId) ==> r == Ok(sessionId in sessions)
      ensures forall k | k in sessions ::
                sessions[k].players == if r == Ok(true) && k == sessionId then old(sessions[k].players) + {Fold(playerId)}
                                       else old(sessions[k].players)
    {
      if IsBlank(sessionId) {
        return Err(BlankArgument("sessionId"));
      }
      if IsBlank(playerId) {
        return Err(BlankArgument("playerId"));
      }
      if sessionId !in sessions {
        return Ok(false);
      }
      sessions[sessionId].Join(playerId);
      r := Ok(true);
    }

    /** LeaveSessionAsync: an unknown session gives false and changes nothing; otherwise the
        player leaves it, the session is dropped once nobody is left, and the answer is true. */
    method LeaveSession(sessionId: string, playerId: string) returns (r: bool)
      requires Valid()
      modifies this, sessions.Values
      ensures Valid()
      ensures r <==> sessionId in old(sessions)
      ensures !r ==> sessions == old(sessions) && forall k | k in sessions :: sessions[k].players == old(sessions[k].players)
      ensures r ==> var left := old(sessions[sessionId].players) - {Fold(playerId)};
                    old(sessions[sessionId]).players == left
                    && sessions == if left == {} then old(sessions) - {sessionId} else old(sessions)
      ensures forall k | k in old(sessions) && k != sessionId :: sessions[k].players == old(sessions[k].players)
    {
      if sessionId !in sessions {
        return false;
      }
      var state := sessions[sessionId];
      state.Leave(playerId);
      if |state.players| == 0 {
        sessions := sessions - {sessionId};
      }
      r := true;
    }

    /** The description of every session. */
    ghost function Descriptors(): set<SessionDescriptor>
      reads this, sessions.Values
    {
      set k | k in sessions :: sessions[k].Describe(k)
    }

    /** Snapshot: at most `take` sessions (none when take is not positive), busiest first and
        newest first among equals; every session listed ranks no lower than any left out. */
    method Snapshot(take: int) returns (r: seq<SessionDescriptor>)
      ensures |r| == if take <= 0 then 0 else if take < |sessions| then take else |sessions|
      ensures forall d | d in r :: d in Descriptors()
      ensures Distinct(r) && Sorted(r, BusierFirst)
      ensures forall d, e | d in r && e in Descriptors() && e !in r :: BusierFirst(d, e)
    {
      if take <= 0 {
        return [];
      }
      var listed := ListDescriptors();
      BusierFirstTotalPreorder();
      var sorted := Sort(listed, BusierFirst);
      SortSorted(listed, BusierFirst);
      assert forall d :: d in sorted <==> d in multiset(listed);
      PermutationDistinct(listed, sorted);
      var n := if take < |sorted| then take else |sorted|;
      r := sorted[..n];
      assert forall d | d in r :: d in sorted;
      PrefixFirst(sorted, n, BusierFirst);
    }

    /** The descriptors in the dictionary's enumeration order, each once. */
    method ListDescriptors() returns (listed: seq<SessionDescriptor>)
      ensures |listed| == |sessions|
      ensures forall d :: d in listed <==> d in Descriptors()
      ensures Distinct(listed)
    {
      var keys := Enumerate(sessions.Keys);
      var described := map k | k in sessions :: sessions[k].Describe(k);
      listed := seq(|keys|, i requires 0 <= i < |keys| && keys[i] in described => described[keys[i]]);
      forall d | d in Descriptors() ensures d in listed {
        var k :| k in sessions && d == sessions[k].Describe(k);
        var i :| 0 <= i < |keys| && keys[i] == k;
        assert listed[i] == d;
      }
      forall i, j | 0 <= i < j < |listed| ensures listed[i] != listed[j] {
        assert listed[i].id == keys[i] && listed[j].id == keys[j];
      }
    }
  }

  /** One player's lifecycle: a new session is created empty, the player joins it, and on
      leaving the now empty session is removed, so the service holds no session afterwards. */
  method LifecycleRemovesEmptySession(id: string, now: int)
    returns (created: Result<SessionDescriptor, SessionError>, joined: Result<bool, SessionError>,
             left: bool, remaining: nat)
    requires !IsBlank(id)
    ensures created == Ok(SessionDescriptor(id, "echo-lab", 0, now))
    ensures joined == Ok(true) && left && remaining == 0
  {
    var service := new SessionService();
    var name := "echo-lab";
    var player := "pilot-01";
    assert !IsWhiteSpace(name[0]) && !IsWhiteSpace(player[0]);
    created := service.CreateSession(name, id, now);
    assert service.sessions.Keys == {id} && service.sessions[id].players == {};
    joined := service.JoinSession(id, player);
    assert service.sessions.Keys == {id} && service.sessions[id].players == {Fold(player)};
    left := service.LeaveSession(id, player);
    remaining := |service.sessions|;
  }

  /** Joining a session id that does not exist answers false. */
  method JoinMissingSession() returns (joined: Result<bool, SessionError>)
    ensures joined == Ok(false)
  {
    var service := new SessionService();
    var missing := "missing";
    var player := "pilot-02";
    assert !IsWhiteSpace(missing[0]) && !IsWhiteSpace(player[0]);
    joined := service.JoinSession(missing, player);
  }
}

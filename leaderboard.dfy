/** The in-memory leaderboard: one entry per player, kept in rank order (higher scores
    first, ties broken by the ordinal order of player ids). */
module Leaderboards {
  import opened Text
  import opened Sorting

  datatype LeaderboardEntry = LeaderboardEntry(playerId: string, displayName: string, score: real, timestamp: int)

  /** LeaderboardComparer: `a` ranks no lower than `b`. */
  predicate Ranks(a: LeaderboardEntry, b: LeaderboardEntry)
  {
    a.score > b.score || (a.score == b.score && OrdinalLe(a.playerId, b.playerId))
  }

  lemma RanksTotalPreorder()
    ensures TotalPreorder(Ranks)
  {
    OrdinalLeTotalOrder();
  }

  /** The comparer returns zero exactly for entries with the same score and player id. */
  lemma RanksEquivalent(a: LeaderboardEntry, b: LeaderboardEntry)
    ensures Equivalent(a, b, Ranks) <==> a.score == b.score && a.playerId == b.playerId
  {
    OrdinalLeTotalOrder();
  }

  /** The sorted set's contents: strictly in rank order and at most one entry per player. */
  ghost predicate Ranked(entries: seq<LeaderboardEntry>)
  {
    StrictlySorted(entries, Ranks)
    && forall a, b | a in entries && b in entries && a.playerId == b.playerId :: a == b
  }

  /** The entries RemoveWhere keeps: those of other players. */
  function OtherPlayers(playerId: string): LeaderboardEntry -> bool
  {
    (e: LeaderboardEntry) => e.playerId != playerId
  }

  /** ReportAsync's update: every entry of the player is removed, then the new one is added at
      its rank. */
  function Reported(entries: seq<LeaderboardEntry>, entry: LeaderboardEntry): (r: seq<LeaderboardEntry>)
    requires Ranked(entries)
    ensures Ranked(r)
    ensures forall e :: e in r <==> e == entry || (e in entries && e.playerId != entry.playerId)
  {
    ReportedContents(entries, entry);
    ReportedSorted(entries, entry);
    Insert(entry, Filter(entries, OtherPlayers(entry.playerId)), Ranks)
  }

  lemma ReportedContents(entries: seq<LeaderboardEntry>, entry: LeaderboardEntry)
    ensures var r := Insert(entry, Filter(entries, OtherPlayers(entry.playerId)), Ranks);
            forall e :: e in r <==> e == entry || (e in entries && e.playerId != entry.playerId)
  {
    var others := Filter(entries, OtherPlayers(entry.playerId));
    var r := Insert(entry, others, Ranks);
    assert forall e :: e in r <==> e in multiset(others) + multiset{entry};
  }

  lemma ReportedSorted(entries: seq<LeaderboardEntry>, entry: LeaderboardEntry)
    requires StrictlySorted(entries, Ranks)
    ensures StrictlySorted(Insert(entry, Filter(entries, OtherPlayers(entry.playerId)), Ranks), Ranks)
  {
    var others := Filter(entries, OtherPlayers(entry.playerId));
    FilterStrictlySorted(entries, OtherPlayers(entry.playerId), Ranks);
    RanksTotalPreorder();
    forall i | 0 <= i < |others| ensures !Equivalent(others[i], entry, Ranks) {
      RanksEquivalent(others[i], entry);
    }
    InsertStrictlySorted(entry, others, Ranks);
  }

  /** Snapshot(take): the first `take` entries in rank order (none when take is not positive);
      every entry listed outranks every entry left out. */
  function Top(entries: seq<LeaderboardEntry>, take: int): (r: seq<LeaderboardEntry>)
    ensures |r| == if take <= 0 then 0 else if take < |entries| then take else |entries|
    ensures r == entries[..|r|]
    ensures Ranked(entries) ==>
              forall i, j | 0 <= i < |r| <= j < |entries| :: Ranks(r[i], entries[j]) && !Ranks(entries[j], r[i])
  {
    if take <= 0 then [] else if take < |entries| then entries[..take] else entries
  }

  class Leaderboard {
    var entries: seq<LeaderboardEntry>

    ghost predicate Valid()
      reads this
    {
      Ranked(entries)
    }

    constructor()
      ensures Valid() && entries == []
    {
      entries := [];
    }

    /** ReportAsync: the entry replaces whatever the player had on the board. */
    method Report(entry: LeaderboardEntry)
      requires Valid()
      modifies this
      ensures Valid() && entries == Reported(old(entries), entry)
    {
      entries := Reported(entries, entry);
    }

    /** Snapshot: the top `take` entries. */
    function Snapshot(take: int): (r: seq<LeaderboardEntry>)
      reads this
      ensures r == Top(entries, take)
    {
      Top(entries, take)
    }
  }

  /** A report leaves exactly one entry for the player: the reported one. */
  lemma ReportedKeepsOnePerPlayer(entries: seq<LeaderboardEntry>, entry: LeaderboardEntry, e: LeaderboardEntry)
    requires Ranked(entries) && e in Reported(entries, entry) && e.playerId == entry.playerId
    ensures e == entry
  {
  }

  /** After reports of 10 000 for Alpha and 12 000 for Beta, Beta leads the board. */
  lemma HigherScoreLeads()
    ensures var alpha := LeaderboardEntry("alpha", "Alpha", 10000.0, 0);
            var beta := LeaderboardEntry("beta", "Beta", 12000.0, 0);
            var board := Reported(Reported([], alpha), beta);
            |board| == 2 && board[0] == beta && board[1] == alpha
  {
    var alpha := LeaderboardEntry("alpha", "Alpha", 10000.0, 0);
    var beta := LeaderboardEntry("beta", "Beta", 12000.0, 0);
    var one := Reported([], alpha);
    assert one == [alpha] by {
      assert forall e :: e in one <==> e == alpha;
    }
    var board := Reported(one, beta);
    assert beta in board && alpha in board;
    assert Ranks(beta, alpha) && !Ranks(alpha, beta);
  }
}

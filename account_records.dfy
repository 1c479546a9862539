/** The records the account services keep, their errors, the e-mail rules, and the effect of
    the wallet operations on the character ledger (the character dictionary together with the
    per-universe rosters) written as functions. */
module AccountRecords {
  import opened Wrappers
  import opened Text
  import opened Numeric
  import opened Sorting
  import opened Wallet
  import opened Rulebook

  datatype User = User(id: string, email: string, displayName: string, createdAt: int)

  datatype Universe = Universe(id: string, userId: string, name: string, createdAt: int)

  datatype Character = Character(
    id: string,
    universeId: string,
    name: string,
    createdAt: int,
    baseCurrency: int,
    premiumCurrency: int,
    equipment: EquipmentSlots,
    spriteAssetId: string)

  datatype ValidationReason = InvalidEmail | EmailTaken | NegativeGrant

  datatype AccountError =
    | BlankArgument
    | ValidationFailed(reason: ValidationReason)
    | UserNotFound
    | UniverseNotFound
    | CharacterNotFound
    | UniverseLimit
    | CharacterLimit
    | WalletUnavailable

  /** Both balances within their bounds. */
  predicate BalancesInRange(c: Character)
  {
    0 <= c.baseCurrency <= MaxBaseCurrency && 0 <= c.premiumCurrency <= MaxPremiumCurrency
  }

  // ---------------------------------------------------------------- e-mail

  /** The key under which credentials are stored: trimmed and upper-cased. */
  function NormalizeEmail(email: string): string
  {
    Fold(Trim(email))
  }

  /** The only check the services make: an '@' and a '.' somewhere. */
  predicate IsValidEmail(email: string)
  {
    '@' in email && '.' in email
  }

  lemma {:induction false} FoldKeepsChar(s: string, c: char)
    requires Upper(c) == c && !('A' <= c <= 'Z')
    ensures c in Fold(s) <==> c in s
  {
    if c in s {
      var i :| 0 <= i < |s| && s[i] == c;
      assert Fold(s)[i] == c;
    }
    if c in Fold(s) {
      var i :| 0 <= i < |Fold(s)| && Fold(s)[i] == c;
      assert Upper(s[i]) == c;
    }
  }

  /** An address is accepted exactly when its trimmed text holds an '@' and a '.': the case
      fold neither adds nor removes either character. */
  lemma EmailValidity(email: string)
    ensures IsValidEmail(NormalizeEmail(email)) <==> '@' in Trim(email) && '.' in Trim(email)
  {
    FoldKeepsChar(Trim(email), '@');
    FoldKeepsChar(Trim(email), '.');
  }

  /** Normalising an already normalised address changes nothing. */
  lemma NormalizeEmailIdempotent(email: string)
    ensures NormalizeEmail(NormalizeEmail(email)) == NormalizeEmail(email)
  {
    var t := Trim(email);
    var x := Fold(t);
    TrimProperties(email);
    if x != [] {
      assert IsWhiteSpace(Upper(t[0])) <==> IsWhiteSpace(t[0]);
      assert IsWhiteSpace(Upper(t[|t| - 1])) <==> IsWhiteSpace(t[|t| - 1]);
    }
    TrimOfUntrimmed(x);
    FoldIdempotent(t);
  }

  // ---------------------------------------------------------------- new characters

  /** The name a new character gets: the requested name trimmed, or "Character n" for the
      n-th character of its universe when none is given. */
  function CharacterName(requested: Option<string>, ordinal: nat): string
  {
    if requested.None? || IsBlank(requested.value) then "Character " + NatToString(ordinal) else Trim(requested.value)
  }

  /** A new character's name is never blank and never has whitespace at either end. */
  lemma CharacterNameIsClean(requested: Option<string>, ordinal: nat)
    ensures var n := CharacterName(requested, ordinal);
            !IsBlank(n) && !IsWhiteSpace(n[0]) && !IsWhiteSpace(n[|n| - 1])
  {
    var n := CharacterName(requested, ordinal);
    if requested.None? || IsBlank(requested.value) {
      var digits := NatToString(ordinal);
      assert n[0] == 'C';
      assert n[|n| - 1] == digits[|digits| - 1];
    } else {
      TrimProperties(requested.value);
    }
  }

  /** The sprite a new character gets: the requested one, or the rulebook's default. */
  function SpriteOrDefault(requested: Option<string>, fallback: string): (r: string)
    ensures !IsBlank(fallback) ==> !IsBlank(r)
    ensures r == fallback || (requested.Some? && r == requested.value)
  {
    if requested.None? || IsBlank(requested.value) then fallback else requested.value
  }

  // ---------------------------------------------------------------- the ledger

  /** A read through GetOrAdd: the list stored under the key, or the empty one it would add. */
  function Bucket<V>(m: map<string, seq<V>>, key: string): seq<V>
  {
    if Fold(key) in m then m[Fold(key)] else []
  }

  /** OrderByDescending(CreatedAt): a record goes before every strictly older one. */
  predicate UniverseNotOlder(a: Universe, b: Universe)
  {
    a.createdAt >= b.createdAt
  }

  predicate CharacterNotOlder(a: Character, b: Character)
  {
    a.createdAt >= b.createdAt
  }

  lemma NewestFirstIsPreorder()
    ensures TotalPreorder(UniverseNotOlder) && TotalPreorder(CharacterNotOlder)
  {
  }

  /** The character dictionary and the rosters keyed by universe id, both case-insensitive. */
  datatype Ledger = Ledger(characters: map<string, Character>, rosters: map<string, seq<Character>>)

  /** A universe's roster as ListCharactersAsync returns it: newest first. */
  function Roster(l: Ledger, universeId: string): seq<Character>
  {
    Sort(Bucket(l.rosters, universeId), CharacterNotOlder)
  }

  /** The record with both balances credited and clamped. */
  function Credited(c: Character, baseDelta: int, premiumDelta: int): (r: Character)
    ensures BalancesInRange(r)
    ensures r.(baseCurrency := c.baseCurrency, premiumCurrency := c.premiumCurrency) == c
  {
    CreditProperties(c.baseCurrency, baseDelta, MaxBaseCurrency);
    CreditProperties(c.premiumCurrency, premiumDelta, MaxPremiumCurrency);
    c.(baseCurrency := Credit(c.baseCurrency, baseDelta, MaxBaseCurrency),
       premiumCurrency := Credit(c.premiumCurrency, premiumDelta, MaxPremiumCurrency))
  }

  /** The roster's Update: the first entry with the record's id (ignoring case) is replaced. */
  function ReplaceFirst(roster: seq<Character>, c: Character): (r: seq<Character>)
    ensures |r| == |roster|
    ensures forall i :: 0 <= i < |r| ==> r[i] == roster[i] || r[i] == c
  {
    if roster == [] then []
    else if EqualsIgnoreCase(roster[0].id, c.id) then [c] + roster[1..]
    else [roster[0]] + ReplaceFirst(roster[1..], c)
  }

  /** ReplaceFirst writes exactly the first matching position and keeps every other entry;
      a roster without the id is left as it was. */
  lemma {:induction false} ReplaceFirstAt(roster: seq<Character>, c: Character, i: nat)
    requires i < |roster| && EqualsIgnoreCase(roster[i].id, c.id)
    requires forall j :: 0 <= j < i ==> !EqualsIgnoreCase(roster[j].id, c.id)
    ensures ReplaceFirst(roster, c) == roster[i := c]
  {
    if i > 0 {
      ReplaceFirstAt(roster[1..], c, i - 1);
      assert roster[1..][i - 1 := c] == roster[i := c][1..];
    }
  }

  lemma {:induction false} ReplaceFirstAbsent(roster: seq<Character>, c: Character)
    requires forall j :: 0 <= j < |roster| ==> !EqualsIgnoreCase(roster[j].id, c.id)
    ensures ReplaceFirst(roster, c) == roster
  {
    if roster != [] {
      ReplaceFirstAbsent(roster[1..], c);
    }
  }

  /** UpdateCharacterWallet's writes: the dictionary entry and the roster entry. */
  function Store(l: Ledger, updated: Character): Ledger
  {
    var key := Fold(updated.universeId);
    Ledger(l.characters[Fold(updated.id) := updated],
           if key in l.rosters then l.rosters[key := ReplaceFirst(l.rosters[key], updated)] else l.rosters)
  }

  function UpdateWallet(l: Ledger, c: Character, baseDelta: int, premiumDelta: int): Ledger
  {
    Store(l, Credited(c, baseDelta, premiumDelta))
  }

  /** Updating a wallet writes the credited record under its id, and changes no other
      dictionary entry and no roster but its own. */
  lemma UpdateWalletEffect(l: Ledger, c: Character, baseDelta: int, premiumDelta: int)
    ensures var r := UpdateWallet(l, c, baseDelta, premiumDelta);
            r.characters.Keys == l.characters.Keys + {Fold(c.id)}
            && r.characters[Fold(c.id)] == Credited(c, baseDelta, premiumDelta)
            && (forall k :: k in l.characters && k != Fold(c.id) ==> r.characters[k] == l.characters[k])
            && r.rosters.Keys == l.rosters.Keys
            && (forall k :: k in l.rosters && k != Fold(c.universeId) ==> r.rosters[k] == l.rosters[k])
  {
  }

  /** DistributeAcrossCharacters: target i receives allocation i of each currency; a target
      whose two allocations are both zero is skipped. */
  function Distribute(l: Ledger, targets: seq<Character>, baseShares: seq<int>, premiumShares: seq<int>): Ledger
    requires |baseShares| == |targets| && |premiumShares| == |targets|
    decreases |targets|
  {
    if targets == [] then l
    else
      var next := if baseShares[0] == 0 && premiumShares[0] == 0 then l
                  else UpdateWallet(l, targets[0], baseShares[0], premiumShares[0]);
      Distribute(next, targets[1..], baseShares[1..], premiumShares[1..])
  }

  /** One step of the distribution from position i: credit target i its shares (unless both
      are zero), then distribute the rest. */
  lemma DistributeStep(l: Ledger, targets: seq<Character>, baseShares: seq<int>, premiumShares: seq<int>, i: nat)
    requires |baseShares| == |targets| && |premiumShares| == |targets| && i < |targets|
    ensures Distribute(l, targets[i..], baseShares[i..], premiumShares[i..])
         == Distribute(if baseShares[i] == 0 && premiumShares[i] == 0 then l
                       else UpdateWallet(l, targets[i], baseShares[i], premiumShares[i]),
                       targets[i + 1..], baseShares[i + 1..], premiumShares[i + 1..])
  {
    assert targets[i..][0] == targets[i] && targets[i..][1..] == targets[i + 1..];
    assert baseShares[i..][1..] == baseShares[i + 1..] && premiumShares[i..][1..] == premiumShares[i + 1..];
  }

  /** No two targets share an id, ignoring case. */
  predicate DistinctIds(targets: seq<Character>)
  {
    forall i, j :: 0 <= i < j < |targets| ==> Fold(targets[i].id) != Fold(targets[j].id)
  }

  /** A dictionary entry no target names is left as it was. */
  lemma {:induction false} DistributeElsewhere(l: Ledger, targets: seq<Character>, baseShares: seq<int>,
                                               premiumShares: seq<int>, k: string)
    requires |baseShares| == |targets| && |premiumShares| == |targets|
    requires forall i :: 0 <= i < |targets| ==> Fold(targets[i].id) != k
    ensures var r := Distribute(l, targets, baseShares, premiumShares);
            (k in r.characters <==> k in l.characters) && (k in l.characters ==> r.characters[k] == l.characters[k])
    decreases |targets|
  {
    if targets != [] {
      var next := if baseShares[0] == 0 && premiumShares[0] == 0 then l
                  else UpdateWallet(l, targets[0], baseShares[0], premiumShares[0]);
      DistributeElsewhere(next, targets[1..], baseShares[1..], premiumShares[1..], k);
    }
  }

  /** With distinct ids, target i ends up credited with exactly its own allocations, or
      untouched when both are zero. */
  lemma {:induction false} DistributeCredits(l: Ledger, targets: seq<Character>, baseShares: seq<int>,
                                             premiumShares: seq<int>, i: nat)
    requires |baseShares| == |targets| && |premiumShares| == |targets|
    requires DistinctIds(targets) && i < |targets|
    ensures var r := Distribute(l, targets, baseShares, premiumShares);
            var k := Fold(targets[i].id);
            (baseShares[i] != 0 || premiumShares[i] != 0 ==>
               k in r.characters && r.characters[k] == Credited(targets[i], baseShares[i], premiumShares[i]))
            && (baseShares[i] == 0 && premiumShares[i] == 0 ==>
               (k in r.characters <==> k in l.characters) && (k in l.characters ==> r.characters[k] == l.characters[k]))
    decreases |targets|
  {
    var next := if baseShares[0] == 0 && premiumShares[0] == 0 then l
                else UpdateWallet(l, targets[0], baseShares[0], premiumShares[0]);
    assert Distribute(l, targets, baseShares, premiumShares)
        == Distribute(next, targets[1..], baseShares[1..], premiumShares[1..]);
    if i == 0 {
      forall j | 0 <= j < |targets[1..]| ensures Fold(targets[1..][j].id) != Fold(targets[0].id) {
        assert targets[1..][j] == targets[j + 1];
      }
      DistributeElsewhere(next, targets[1..], baseShares[1..], premiumShares[1..], Fold(targets[0].id));
    } else {
      assert targets[1..][i - 1] == targets[i];
      assert DistinctIds(targets[1..]) by {
        forall a, b | 0 <= a < b < |targets[1..]| ensures Fold(targets[1..][a].id) != Fold(targets[1..][b].id) {
          assert targets[1..][a] == targets[a + 1] && targets[1..][b] == targets[b + 1];
        }
      }
      DistributeCredits(next, targets[1..], baseShares[1..], premiumShares[1..], i - 1);
      assert Fold(targets[0].id) != Fold(targets[i].id);
    }
  }

  /** The top-up of one roster: each character is raised to the targets, and one already at
      or above both is skipped. */
  function TopUpRoster(l: Ledger, roster: seq<Character>, baseTarget: int, premiumTarget: int): Ledger
    decreases |roster|
  {
    if roster == [] then l
    else
      var c := roster[0];
      var baseDelta := TopUpDelta(baseTarget, c.baseCurrency);
      var premiumDelta := TopUpDelta(premiumTarget, c.premiumCurrency);
      var next := if baseDelta > 0 || premiumDelta > 0 then UpdateWallet(l, c, baseDelta, premiumDelta) else l;
      TopUpRoster(next, roster[1..], baseTarget, premiumTarget)
  }

  /** TopUpUserWalletAsync over the user's universes, each roster read when its turn comes. */
  function TopUpUniverses(l: Ledger, universes: seq<Universe>, baseTarget: int, premiumTarget: int): Ledger
    decreases |universes|
  {
    if universes == [] then l
    else TopUpUniverses(TopUpRoster(l, Roster(l, universes[0].id), baseTarget, premiumTarget),
                        universes[1..], baseTarget, premiumTarget)
  }

  /** A topped-up character's balances are what the per-character rule gives. */
  lemma TopUpCredit(c: Character, baseTarget: int, premiumTarget: int)
    requires BalancesInRange(c)
    ensures var r := Credited(c, TopUpDelta(baseTarget, c.baseCurrency), TopUpDelta(premiumTarget, c.premiumCurrency));
            r.baseCurrency >= c.baseCurrency && r.premiumCurrency >= c.premiumCurrency
            && (baseTarget <= MaxBaseCurrency ==> r.baseCurrency == MaxInt(baseTarget, c.baseCurrency))
            && (premiumTarget <= MaxPremiumCurrency ==> r.premiumCurrency == MaxInt(premiumTarget, c.premiumCurrency))
  {
    TopUpReachesTarget(baseTarget, c.baseCurrency, MaxBaseCurrency);
    TopUpReachesTarget(premiumTarget, c.premiumCurrency, MaxPremiumCurrency);
  }

  // ---------------------------------------------------------------- wallet snapshots

  datatype CharacterWallet = CharacterWallet(
    characterId: string, characterName: string, universeId: string, universeName: string, wallet: WalletBreakdown)

  datatype UniverseWallet = UniverseWallet(universeId: string, universeName: string, wallet: WalletBreakdown)

  datatype AccountWalletSnapshot = AccountWalletSnapshot(
    account: WalletBreakdown, universes: seq<UniverseWallet>, characters: seq<CharacterWallet>)

  function Plus(a: WalletBreakdown, b: WalletBreakdown): WalletBreakdown
  {
    a.Add(b.baseCurrency, b.premiumCurrency)
  }

  /** The wallet of a roster: both balances summed. */
  function RosterWallet(roster: seq<Character>): WalletBreakdown
    decreases |roster|
  {
    if roster == [] then EmptyWallet
    else Plus(WalletBreakdown(roster[0].baseCurrency, roster[0].premiumCurrency), RosterWallet(roster[1..]))
  }

  /** One row per character of the roster, tagged with its universe. */
  function CharacterWallets(roster: seq<Character>, u: Universe): (r: seq<CharacterWallet>)
    ensures |r| == |roster|
    decreases |roster|
  {
    if roster == [] then []
    else [CharacterWallet(roster[0].id, roster[0].name, u.id, u.name,
                          WalletBreakdown(roster[0].baseCurrency, roster[0].premiumCurrency))]
         + CharacterWallets(roster[1..], u)
  }

  /** The rosters of the given universes, in order, each as ListCharactersAsync lists it. */
  function Rosters(universes: seq<Universe>, l: Ledger): (r: seq<seq<Character>>)
    ensures |r| == |universes|
    ensures forall i :: 0 <= i < |universes| ==> r[i] == Roster(l, universes[i].id)
  {
    seq(|universes|, i requires 0 <= i < |universes| => Roster(l, universes[i].id))
  }

  /** The figures BuildWalletSnapshot reports for the given universes and their rosters, in
      order. */
  function SnapshotOf(universes: seq<Universe>, rosters: seq<seq<Character>>): AccountWalletSnapshot
    requires |rosters| == |universes|
    decreases |universes|
  {
    if universes == [] then AccountWalletSnapshot(EmptyWallet, [], [])
    else
      var u := universes[0];
      var rest := SnapshotOf(universes[1..], rosters[1..]);
      AccountWalletSnapshot(Plus(RosterWallet(rosters[0]), rest.account),
                            [UniverseWallet(u.id, u.name, RosterWallet(rosters[0]))] + rest.universes,
                            CharacterWallets(rosters[0], u) + rest.characters)
  }

  /** The snapshot of a user's universes: each with its roster newest first. */
  function WalletSnapshot(universes: seq<Universe>, l: Ledger): AccountWalletSnapshot
  {
    SnapshotOf(universes, Rosters(universes, l))
  }

  function UniverseTotal(s: seq<UniverseWallet>): WalletBreakdown
    decreases |s|
  {
    if s == [] then EmptyWallet else Plus(s[0].wallet, UniverseTotal(s[1..]))
  }

  function CharacterTotal(s: seq<CharacterWallet>): WalletBreakdown
    decreases |s|
  {
    if s == [] then EmptyWallet else Plus(s[0].wallet, CharacterTotal(s[1..]))
  }

  lemma {:induction false} CharacterTotalAppend(a: seq<CharacterWallet>, b: seq<CharacterWallet>)
    ensures CharacterTotal(a + b) == Plus(CharacterTotal(a), CharacterTotal(b))
    decreases |a|
  {
    if a == [] {
      assert a + b == b;
    } else {
      assert (a + b)[0] == a[0] && (a + b)[1..] == a[1..] + b;
      CharacterTotalAppend(a[1..], b);
    }
  }

  lemma {:induction false} CharacterWalletsTotal(roster: seq<Character>, u: Universe)
    ensures CharacterTotal(CharacterWallets(roster, u)) == RosterWallet(roster)
    decreases |roster|
  {
    if roster != [] {
      var w := CharacterWallets(roster, u);
      assert w[0].wallet == WalletBreakdown(roster[0].baseCurrency, roster[0].premiumCurrency);
      assert w[1..] == CharacterWallets(roster[1..], u);
      CharacterWalletsTotal(roster[1..], u);
    }
  }

  /** The account wallet equals the sum of the universe wallets, which equals the sum of the
      character wallets; there is one universe row per universe. */
  lemma {:induction false} SnapshotTotals(universes: seq<Universe>, rosters: seq<seq<Character>>)
    requires |rosters| == |universes|
    ensures var s := SnapshotOf(universes, rosters);
            s.account == UniverseTotal(s.universes) && s.account == CharacterTotal(s.characters)
            && |s.universes| == |universes|
    decreases |universes|
  {
    if universes != [] {
      var u := universes[0];
      var rest := SnapshotOf(universes[1..], rosters[1..]);
      var s := SnapshotOf(universes, rosters);
      SnapshotTotals(universes[1..], rosters[1..]);
      assert s.universes[0] == UniverseWallet(u.id, u.name, RosterWallet(rosters[0]));
      assert s.universes[1..] == rest.universes;
      CharacterTotalAppend(CharacterWallets(rosters[0], u), rest.characters);
      CharacterWalletsTotal(rosters[0], u);
    }
  }

  /** The rosters one after the other, as the user-wide deposit collects them. */
  function Flatten(rosters: seq<seq<Character>>): seq<Character>
    decreases |rosters|
  {
    if rosters == [] then [] else rosters[0] + Flatten(rosters[1..])
  }

  /** The characters of the given universes, roster after roster. */
  function AllCharacters(universes: seq<Universe>, l: Ledger): seq<Character>
  {
    Flatten(Rosters(universes, l))
  }
}

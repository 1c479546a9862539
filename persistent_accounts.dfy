/** The database-backed account service: characters are tracked entities whose balances the
    wallet operations change in place, queries are filters over the stored rows, and the
    wallet snapshot groups the loaded characters by universe. */
module PersistentAccounts {
  import opened Wrappers
  import opened Text
  import opened Numeric
  import opened Wallet
  import opened AccountRecords
  import Accounts
  import Sorting

  /** A tracked character row: the balances change in place, every other column stays as
      loaded. */
  class CharacterEntity {
    const id: string
    const universeId: string
    const name: string
    const createdAt: int
    const equipment: Rulebook.EquipmentSlots
    const spriteAssetId: string
    var baseCurrency: int
    var premiumCurrency: int

    constructor(record: Character)
      ensures Record() == record
    {
      id, universeId, name, createdAt := record.id, record.universeId, record.name, record.createdAt;
      equipment, spriteAssetId := record.equipment, record.spriteAssetId;
      baseCurrency, premiumCurrency := record.baseCurrency, record.premiumCurrency;
    }

    /** ToRecord: the entity as a character record. */
    function Record(): Character
      reads this
    {
      Character(id, universeId, name, createdAt, baseCurrency, premiumCurrency, equipment, spriteAssetId)
    }
  }

  /** No entity occurs twice: a query materialises each row as one tracked entity. */
  predicate Distinct(cs: seq<CharacterEntity>)
  {
    forall i, j :: 0 <= i < j < |cs| ==> cs[i] != cs[j]
  }

  function Records(cs: seq<CharacterEntity>): (r: seq<Character>)
    reads set c | c in cs
    ensures |r| == |cs| && forall i :: 0 <= i < |cs| ==> r[i] == cs[i].Record()
  {
    seq(|cs|, i requires 0 <= i < |cs| reads cs => cs[i].Record())
  }

  // ---------------------------------------------------------------- the wallet helpers

  /** UpdateCharacterWallet: both balances credited and clamped, in place. */
  method UpdateCharacterWallet(c: CharacterEntity, baseDelta: int, premiumDelta: int)
    modifies c
    ensures c.Record() == Credited(old(c.Record()), baseDelta, premiumDelta)
  {
    c.baseCurrency := Credit(c.baseCurrency, baseDelta, MaxBaseCurrency);
    c.premiumCurrency := Credit(c.premiumCurrency, premiumDelta, MaxPremiumCurrency);
  }

  /** A target's record after DistributeAcrossCharacters: credited with its two shares, or left
      untouched when both are zero. */
  function Settled(c: Character, baseShare: int, premiumShare: int): Character
  {
    if baseShare == 0 && premiumShare == 0 then c else Credited(c, baseShare, premiumShare)
  }

  /** Settling keeps balances in range, never lowers them for non-negative shares, and adds a
      share exactly when it fits under the maximum. */
  lemma SettledProperties(c: Character, baseShare: int, premiumShare: int)
    requires BalancesInRange(c) && baseShare >= 0 && premiumShare >= 0
    ensures var r := Settled(c, baseShare, premiumShare);
            BalancesInRange(r)
            && r.baseCurrency >= c.baseCurrency && r.premiumCurrency >= c.premiumCurrency
            && (c.baseCurrency + baseShare <= MaxBaseCurrency ==> r.baseCurrency == c.baseCurrency + baseShare)
            && (c.premiumCurrency + premiumShare <= MaxPremiumCurrency ==> r.premiumCurrency == c.premiumCurrency + premiumShare)
            && r.(baseCurrency := c.baseCurrency, premiumCurrency := c.premiumCurrency) == c
  {
    CreditProperties(c.baseCurrency, baseShare, MaxBaseCurrency);
    CreditProperties(c.premiumCurrency, premiumShare, MaxPremiumCurrency);
  }

  /** DistributeAcrossCharacters: target i is settled with allocation i of each grant. */
  method DistributeAcrossCharacters(cs: seq<CharacterEntity>, baseCurrency: int, premiumCurrency: int)
    requires Distinct(cs)
    modifies set c | c in cs
    ensures forall i :: 0 <= i < |cs| ==>
              cs[i].Record() == Settled(old(cs[i].Record()), Shares(baseCurrency, |cs|)[i], Shares(premiumCurrency, |cs|)[i])
  {
    if |cs| == 0 {
      return;
    }
    var baseAllocations := SplitAmount(baseCurrency, |cs|);
    var premiumAllocations := SplitAmount(premiumCurrency, |cs|);
    SettleShares(cs, baseAllocations[..], premiumAllocations[..]);
  }

  /** The loop of DistributeAcrossCharacters: target i settled with share i of each grant. */
  method SettleShares(cs: seq<CharacterEntity>, baseShares: seq<int>, premiumShares: seq<int>)
    requires Distinct(cs) && |baseShares| == |cs| && |premiumShares| == |cs|
    modifies set c | c in cs
    ensures forall i :: 0 <= i < |cs| ==> cs[i].Record() == Settled(old(cs[i].Record()), baseShares[i], premiumShares[i])
  {
    for i := 0 to |cs|
      invariant forall k :: 0 <= k < i ==> cs[k].Record() == Settled(old(cs[k].Record()), baseShares[k], premiumShares[k])
      invariant forall k :: i <= k < |cs| ==> cs[k].Record() == old(cs[k].Record())
    {
      if baseShares[i] == 0 && premiumShares[i] == 0 {
        continue;
      }
      UpdateCharacterWallet(cs[i], baseShares[i], premiumShares[i]);
    }
  }

  /** A character's record after the top-up: raised by the shortfall below each target when
      either shortfall is positive, untouched otherwise. */
  function ToppedUp(c: Character, baseTarget: int, premiumTarget: int): Character
  {
    var baseDelta := TopUpDelta(baseTarget, c.baseCurrency);
    var premiumDelta := TopUpDelta(premiumTarget, c.premiumCurrency);
    if baseDelta > 0 || premiumDelta > 0 then Credited(c, baseDelta, premiumDelta) else c
  }

  /** The top-up never lowers a balance, and raises each one to its target when the target is
      within the bound. */
  lemma ToppedUpProperties(c: Character, baseTarget: int, premiumTarget: int)
    requires BalancesInRange(c)
    ensures var r := ToppedUp(c, baseTarget, premiumTarget);
            BalancesInRange(r)
            && r.baseCurrency >= c.baseCurrency && r.premiumCurrency >= c.premiumCurrency
            && (baseTarget <= MaxBaseCurrency ==> r.baseCurrency == MaxInt(baseTarget, c.baseCurrency))
            && (premiumTarget <= MaxPremiumCurrency ==> r.premiumCurrency == MaxInt(premiumTarget, c.premiumCurrency))
  {
    TopUpCredit(c, baseTarget, premiumTarget);
  }

  /** The loop of TopUpUserWalletAsync over the loaded characters. */
  method TopUpCharacters(cs: seq<CharacterEntity>, baseTarget: int, premiumTarget: int)
    requires Distinct(cs)
    modifies set c | c in cs
    ensures forall i :: 0 <= i < |cs| ==> cs[i].Record() == ToppedUp(old(cs[i].Record()), baseTarget, premiumTarget)
  {
    for i := 0 to |cs|
      invariant forall k :: 0 <= k < i ==> cs[k].Record() == ToppedUp(old(cs[k].Record()), baseTarget, premiumTarget)
      invariant forall k :: i <= k < |cs| ==> cs[k].Record() == old(cs[k].Record())
    {
      var c := cs[i];
      var baseDelta := MaxInt(0, baseTarget - c.baseCurrency);
      var premiumDelta := MaxInt(0, premiumTarget - c.premiumCurrency);
      if baseDelta > 0 || premiumDelta > 0 {
        UpdateCharacterWallet(c, baseDelta, premiumDelta);
      }
    }
  }

  // ---------------------------------------------------------------- the grouped snapshot

  function Without(keys: seq<string>, k: string): (r: seq<string>)
    ensures forall x :: x in r <==> x in keys && x != k
    ensures |r| <= |keys|
  {
    if keys == [] then [] else (if keys[0] == k then [] else [keys[0]]) + Without(keys[1..], k)
  }

  /** The keys of GroupBy(c => c.UniverseId, OrdinalIgnoreCase): the folded universe ids in
      order of first appearance. */
  function GroupKeys(cs: seq<Character>): seq<string>
  {
    if cs == [] then [] else [Fold(cs[0].universeId)] + Without(GroupKeys(cs[1..]), Fold(cs[0].universeId))
  }

  predicate Unique(keys: seq<string>)
  {
    forall i, j :: 0 <= i < j < |keys| ==> keys[i] != keys[j]
  }

  lemma {:induction false} WithoutUnique(keys: seq<string>, k: string)
    requires Unique(keys)
    ensures Unique(Without(keys, k))
  {
    if keys != [] {
      WithoutUnique(keys[1..], k);
      var rest := Without(keys[1..], k);
      assert keys[0] !in rest by {
        assert forall j :: 1 <= j < |keys| ==> keys[j] != keys[0];
      }
    }
  }

  /** Every group key is the folded universe id of some character, every character's folded
      universe id is a key, and no key occurs twice. */
  lemma {:induction false} GroupKeysExact(cs: seq<Character>)
    ensures Unique(GroupKeys(cs))
    ensures forall k :: k in GroupKeys(cs) <==> exists c :: c in cs && Fold(c.universeId) == k
  {
    if cs != [] {
      var k0 := Fold(cs[0].universeId);
      GroupKeysExact(cs[1..]);
      WithoutUnique(GroupKeys(cs[1..]), k0);
      var w := Without(GroupKeys(cs[1..]), k0);
      var keys := [k0] + w;
      assert GroupKeys(cs) == keys;
      forall i, j | 0 <= i < j < |keys|
        ensures keys[i] != keys[j]
      {
        assert keys[j] == w[j - 1] && w[j - 1] in w;
        if i > 0 {
          assert keys[i] == w[i - 1];
        }
      }
      forall k
        ensures k in GroupKeys(cs) <==> exists c :: c in cs && Fold(c.universeId) == k
      {
        if k != k0 && k in GroupKeys(cs) {
          var c :| c in cs[1..] && Fold(c.universeId) == k;
          assert c in cs;
        }
        if exists c :: c in cs && Fold(c.universeId) == k {
          var c :| c in cs && Fold(c.universeId) == k;
          if k != k0 {
            assert c in cs[1..];
          }
        }
      }
    }
  }

  /** The group of one key: the characters with that folded universe id, in order. */
  function Members(cs: seq<Character>, key: string): (r: seq<Character>)
    ensures forall c :: c in r <==> c in cs && Fold(c.universeId) == key
  {
    if cs == [] then []
    else (if Fold(cs[0].universeId) == key then [cs[0]] else []) + Members(cs[1..], key)
  }

  /** universeLookup.TryGetValue: the universe whose id folds to the key. */
  function FindUniverse(universes: seq<Universe>, key: string): (r: Option<Universe>)
    ensures r.Some? ==> r.value in universes && Fold(r.value.id) == key
    ensures r.None? ==> forall u :: u in universes ==> Fold(u.id) != key
  {
    if universes == [] then None
    else if Fold(universes[0].id) == key then Some(universes[0])
    else FindUniverse(universes[1..], key)
  }

  /** The universes of the keys that have one, in key order. */
  function KeptUniverses(universes: seq<Universe>, keys: seq<string>): seq<Universe>
  {
    if keys == [] then []
    else
      var found := FindUniverse(universes, keys[0]);
      (if found.Some? then [found.value] else []) + KeptUniverses(universes, keys[1..])
  }

  /** The groups of the keys that have a universe, in key order. */
  function KeptGroups(universes: seq<Universe>, cs: seq<Character>, keys: seq<string>): (r: seq<seq<Character>>)
    ensures |r| == |KeptUniverses(universes, keys)|
  {
    if keys == [] then []
    else
      var found := FindUniverse(universes, keys[0]);
      (if found.Some? then [Members(cs, keys[0])] else []) + KeptGroups(universes, cs, keys[1..])
  }

  /** BuildWalletSnapshot's figures: one row per group whose universe is known, characters of
      unknown universes skipped. */
  function GroupedSnapshot(universes: seq<Universe>, cs: seq<Character>): AccountWalletSnapshot
  {
    var keys := GroupKeys(cs);
    SnapshotOf(KeptUniverses(universes, keys), KeptGroups(universes, cs, keys))
  }

  /** Each universe wallet is the sum of its characters and the account wallet is the sum of
      the universe wallets, and every key with a known universe contributes exactly one row. */
  lemma GroupedSnapshotTotals(universes: seq<Universe>, cs: seq<Character>)
    ensures var s := GroupedSnapshot(universes, cs);
            s.account == UniverseTotal(s.universes) && s.account == CharacterTotal(s.characters)
            && |s.universes| == |KeptUniverses(universes, GroupKeys(cs))|
  {
    var keys := GroupKeys(cs);
    SnapshotTotals(KeptUniverses(universes, keys), KeptGroups(universes, cs, keys));
  }

  /** BuildWalletSnapshot: groups the loaded characters by universe, looks each group's
      universe up, and summarises the groups whose universe is known. */
  method BuildWalletSnapshot(universes: seq<Universe>, characters: seq<Character>) returns (s: AccountWalletSnapshot)
    ensures s == GroupedSnapshot(universes, characters)
  {
    var keys := GroupKeys(characters);
    var listed := KeptUniverses(universes, keys);
    var groups := KeptGroups(universes, characters, keys);
    s := Accounts.SummariseUniverses(listed, groups);
  }

  // ---------------------------------------------------------------- the queries

  /** The first universe with exactly this id (the database compares ids as stored). */
  function UniverseById(universes: seq<Universe>, id: string): (r: Option<Universe>)
    ensures r.Some? ==> r.value in universes && r.value.id == id
    ensures r.None? ==> forall u :: u in universes ==> u.id != id
  {
    if universes == [] then None
    else if universes[0].id == id then Some(universes[0])
    else UniverseById(universes[1..], id)
  }

  function CharacterById(cs: seq<CharacterEntity>, id: string): (r: Option<CharacterEntity>)
    ensures r.Some? ==> r.value in cs && r.value.id == id
    ensures r.None? ==> forall c :: c in cs ==> c.id != id
  {
    if cs == [] then None
    else if cs[0].id == id then Some(cs[0])
    else CharacterById(cs[1..], id)
  }

  /** The universes of a user, as stored. */
  function OwnedUniverses(universes: seq<Universe>, userId: string): (r: seq<Universe>)
    ensures forall u :: u in r <==> u in universes && u.userId == userId
  {
    if universes == [] then []
    else (if universes[0].userId == userId then [universes[0]] else []) + OwnedUniverses(universes[1..], userId)
  }

  /** Characters.Where(c => c.UniverseId == universeId). */
  function InUniverse(cs: seq<CharacterEntity>, universeId: string): (r: seq<CharacterEntity>)
    ensures forall c | c in r :: c in cs && c.universeId == universeId
    ensures forall c | c in cs && c.universeId == universeId :: c in r
    ensures Distinct(cs) ==> Distinct(r)
  {
    if cs == [] then []
    else
      var rest := InUniverse(cs[1..], universeId);
      assert Distinct(cs) ==> cs[0] !in cs[1..];
      (if cs[0].universeId == universeId then [cs[0]] else []) + rest
  }

  /** The universe row with this id exists and belongs to the user. */
  predicate OwnedBy(universes: seq<Universe>, universeId: string, userId: string)
  {
    var u := UniverseById(universes, universeId);
    u.Some? && u.value.userId == userId
  }

  /** Characters.Where(c => c.Universe.UserId == userId): the characters whose universe row
      belongs to the user. */
  function OfUser(cs: seq<CharacterEntity>, universes: seq<Universe>, userId: string): (r: seq<CharacterEntity>)
    ensures forall c | c in r :: c in cs && OwnedBy(universes, c.universeId, userId)
    ensures forall c | c in cs && OwnedBy(universes, c.universeId, userId) :: c in r
    ensures Distinct(cs) ==> Distinct(r)
  {
    if cs == [] then []
    else
      var rest := OfUser(cs[1..], universes, userId);
      assert Distinct(cs) ==> cs[0] !in cs[1..];
      (if OwnedBy(universes, cs[0].universeId, userId) then [cs[0]] else []) + rest
  }

  /** Characters.Where(c => universeIds.Contains(c.UniverseId)). */
  function InAnyOf(cs: seq<CharacterEntity>, universes: seq<Universe>): (r: seq<CharacterEntity>)
    ensures forall c | c in r :: c in cs && UniverseById(universes, c.universeId).Some?
    ensures forall c | c in cs && UniverseById(universes, c.universeId).Some? :: c in r
  {
    if cs == [] then []
    else
      (if UniverseById(universes, cs[0].universeId).Some? then [cs[0]] else []) + InAnyOf(cs[1..], universes)
  }

  /** The stored users, universes and characters of the database-backed service. */
  class AccountDatabase {
    const users: seq<User>
    const universes: seq<Universe>
    const characters: seq<CharacterEntity>

    ghost predicate Valid()
      reads this
    {
      Distinct(characters)
    }

    /** The rows as loaded; each character row is one tracked entity. */
    constructor(users: seq<User>, universes: seq<Universe>, characters: seq<CharacterEntity>)
      requires Distinct(characters)
      ensures Valid() && this.users == users && this.universes == universes && this.characters == characters
    {
      this.users, this.universes, this.characters := users, universes, characters;
    }

    predicate UserExists(userId: string)
      reads this
    {
      exists u :: u in users && u.id == userId
    }

    /** GetWalletSnapshotInternalAsync: the user's universes and their characters, grouped. */
    function Snapshot(userId: string): AccountWalletSnapshot
      reads this, set c | c in characters
    {
      var owned := OwnedUniverses(universes, userId);
      GroupedSnapshot(owned, Records(InAnyOf(characters, owned)))
    }

    /** The user's universes, newest first. */
    function UniversesOf(userId: string): seq<Universe>
      reads this
    {
      Sorting.Sort(OwnedUniverses(universes, userId), UniverseNotOlder)
    }

    /** Each listed universe's characters, newest first. */
    function SortedRosters(listed: seq<Universe>): (r: seq<seq<Character>>)
      reads this, set c | c in characters
      ensures |r| == |listed|
    {
      seq(|listed|, i requires 0 <= i < |listed| reads this, set c | c in characters =>
        Sorting.Sort(Records(InUniverse(characters, listed[i].id)), CharacterNotOlder))
    }

    /** GetWalletSnapshotAsync: the user's universes newest first, each with its characters
        newest first, summed universe by universe. */
    method GetWalletSnapshot(userId: string) returns (r: Result<AccountWalletSnapshot, AccountError>)
      ensures IsBlank(userId) ==> r == Err(BlankArgument)
      ensures !IsBlank(userId) && !UserExists(userId) ==> r == Err(UserNotFound)
      ensures !IsBlank(userId) && UserExists(userId) ==>
                r == Ok(SnapshotOf(UniversesOf(userId), SortedRosters(UniversesOf(userId))))
    {
      if IsBlank(userId) {
        return Err(BlankArgument);
      }
      if !(exists u :: u in users && u.id == userId) {
        return Err(UserNotFound);
      }
      var listed := UniversesOf(userId);
      var s := Accounts.SummariseUniverses(listed, SortedRosters(listed));
      r := Ok(s);
    }

    /** The request passes the argument checks: a non-blank user id and non-negative grants. */
    predicate Admitted(userId: string, baseCurrency: int, premiumCurrency: int)
    {
      !IsBlank(userId) && baseCurrency >= 0 && premiumCurrency >= 0
    }

    /** DepositCurrencyAsync: validates the grant, then credits one character, one universe's
        characters or all of the user's characters. */
    method Deposit(userId: string, universeId: Option<string>, characterId: Option<string>,
                   baseCurrency: int, premiumCurrency: int)
      returns (r: Result<AccountWalletSnapshot, AccountError>)
      requires Valid()
      modifies set c | c in characters
      ensures IsBlank(userId) ==> r == Err(BlankArgument)
      ensures !IsBlank(userId) && (baseCurrency < 0 || premiumCurrency < 0) ==> r == Err(ValidationFailed(NegativeGrant))
      ensures Admitted(userId, baseCurrency, premiumCurrency) && !UserExists(userId) ==> r == Err(UserNotFound)
      ensures r.Err? ==> forall c | c in characters :: c.Record() == old(c.Record())
      ensures r.Ok? ==> r.value == Snapshot(userId)
      ensures Admitted(userId, baseCurrency, premiumCurrency) && UserExists(userId) ==>
                if characterId.Some? && !IsBlank(characterId.value) then
                  CreditedOne(userId, characterId.value, baseCurrency, premiumCurrency, r)
                else if universeId.Some? && !IsBlank(universeId.value) then
                  var u := UniverseById(universes, universeId.value);
                  (u.None? || !EqualsIgnoreCase(u.value.userId, userId) ==> r == Err(UniverseNotFound))
                  && (u.Some? && EqualsIgnoreCase(u.value.userId, userId) ==>
                        SettledAllOf(InUniverse(characters, u.value.id), baseCurrency, premiumCurrency, r))
                else
                  SettledAllOf(OfUser(characters, universes, userId), baseCurrency, premiumCurrency, r)
    {
      if IsBlank(userId) {
        return Err(BlankArgument);
      }
      if baseCurrency < 0 || premiumCurrency < 0 {
        return Err(ValidationFailed(NegativeGrant));
      }
      if !(exists u :: u in users && u.id == userId) {
        return Err(UserNotFound);
      }
      if characterId.Some? && !IsBlank(characterId.value) {
        r := DepositToCharacter(userId, characterId.value, baseCurrency, premiumCurrency);
        return;
      }
      var targets;
      if universeId.Some? && !IsBlank(universeId.value) {
        var universe := UniverseById(universes, universeId.value);
        if universe.None? || !EqualsIgnoreCase(universe.value.userId, userId) {
          return Err(UniverseNotFound);
        }
        targets := InUniverse(characters, universe.value.id);
      } else {
        targets := OfUser(characters, universes, userId);
      }
      r := DepositToTargets(userId, targets, baseCurrency, premiumCurrency);
    }

    /** The character path's outcome: an unknown character or one in a universe the user does
        not own is refused, otherwise that character alone is credited. */
    twostate predicate CreditedOne(userId: string, characterId: string, baseCurrency: int, premiumCurrency: int,
                                   new r: Result<AccountWalletSnapshot, AccountError>)
      reads this, set c | c in characters
    {
      var found := CharacterById(characters, characterId);
      (found.None? ==> r == Err(CharacterNotFound))
      && (found.Some? ==>
            var u := UniverseById(universes, found.value.universeId);
            (u.None? || !EqualsIgnoreCase(u.value.userId, userId) ==> r == Err(UniverseNotFound))
            && (u.Some? && EqualsIgnoreCase(u.value.userId, userId) ==>
                  r.Ok? && found.value in characters
                  && found.value.Record() == Credited(old(found.value.Record()), baseCurrency, premiumCurrency)
                  && forall c | c in characters && c != found.value :: c.Record() == old(c.Record())))
    }

    /** The universe and user paths' outcome: no targets is refused, otherwise target i is
        settled with share i of each grant and every other character is untouched. */
    twostate predicate SettledAllOf(targets: seq<CharacterEntity>, baseCurrency: int, premiumCurrency: int,
                                    new r: Result<AccountWalletSnapshot, AccountError>)
      reads this, set c | c in characters, set c | c in targets
    {
      (targets == [] ==> r == Err(WalletUnavailable))
      && (targets != [] ==>
            r.Ok?
            && (forall i :: 0 <= i < |targets| ==>
                  targets[i].Record() == Settled(old(targets[i].Record()), Shares(baseCurrency, |targets|)[i],
                                                 Shares(premiumCurrency, |targets|)[i]))
            && (forall c | c in characters && c !in targets :: c.Record() == old(c.Record())))
    }

    method DepositToCharacter(userId: string, characterId: string, baseCurrency: int, premiumCurrency: int)
      returns (r: Result<AccountWalletSnapshot, AccountError>)
      requires Valid()
      modifies set c | c in characters
      ensures CreditedOne(userId, characterId, baseCurrency, premiumCurrency, r)
      ensures r.Err? ==> forall c | c in characters :: c.Record() == old(c.Record())
      ensures r.Ok? ==> r.value == Snapshot(userId)
    {
      var found := CharacterById(characters, characterId);
      if found.None? {
        return Err(CharacterNotFound);
      }
      var character := found.value;
      var universe := UniverseById(universes, character.universeId);
      if universe.None? || !EqualsIgnoreCase(universe.value.userId, userId) {
        return Err(UniverseNotFound);
      }
      UpdateCharacterWallet(character, baseCurrency, premiumCurrency);
      r := Ok(Snapshot(userId));
    }

    method DepositToTargets(userId: string, targets: seq<CharacterEntity>, baseCurrency: int, premiumCurrency: int)
      returns (r: Result<AccountWalletSnapshot, AccountError>)
      requires Valid() && Distinct(targets) && forall c | c in targets :: c in characters
      modifies set c | c in characters
      ensures SettledAllOf(targets, baseCurrency, premiumCurrency, r)
      ensures r.Err? ==> forall c | c in characters :: c.Record() == old(c.Record())
      ensures r.Ok? ==> r.value == Snapshot(userId)
    {
      if |targets| == 0 {
        return Err(WalletUnavailable);
      }
      DistributeAcrossCharacters(targets, baseCurrency, premiumCurrency);
      r := Ok(Snapshot(userId));
    }

    /** TopUpUserWalletAsync: raises every character of the user to the target balances. */
    method TopUp(userId: string, baseTarget: int, premiumTarget: int) returns (r: Result<(), AccountError>)
      requires Valid()
      modifies set c | c in characters
      ensures IsBlank(userId) ==> r == Err(BlankArgument)
      ensures !IsBlank(userId) && (baseTarget < 0 || premiumTarget < 0) ==> r == Err(ValidationFailed(NegativeGrant))
      ensures !IsBlank(userId) && baseTarget >= 0 && premiumTarget >= 0 && !UserExists(userId) ==> r == Err(UserNotFound)
      ensures !IsBlank(userId) && baseTarget >= 0 && premiumTarget >= 0 && UserExists(userId) ==> r.Ok?
      ensures r.Err? ==> forall c | c in characters :: c.Record() == old(c.Record())
      ensures r.Ok? ==>
                var owned := OfUser(characters, universes, userId);
                (forall c | c in owned :: c.Record() == ToppedUp(old(c.Record()), baseTarget, premiumTarget))
                && (forall c | c in characters && c !in owned :: c.Record() == old(c.Record()))
    {
      if IsBlank(userId) {
        return Err(BlankArgument);
      }
      if baseTarget < 0 || premiumTarget < 0 {
        return Err(ValidationFailed(NegativeGrant));
      }
      if !(exists u :: u in users && u.id == userId) {
        return Err(UserNotFound);
      }
      var owned := OfUser(characters, universes, userId);
      TopUpCharacters(owned, baseTarget, premiumTarget);
      return Ok(());
    }
  }
}

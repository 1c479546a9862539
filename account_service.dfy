/** The in-memory account service: users with their credentials, the universes each user owns,
    the characters of each universe, and the wallet operations over them. */
module Accounts {
  import opened Wrappers
  import opened Text
  import opened Numeric
  import opened Sorting
  import opened Wallet
  import opened Rulebook
  import opened AccountRecords

  // ---------------------------------------------------------------- the service's invariant

  /** Every user is stored under its folded id. */
  ghost predicate UsersKeyed(users: map<string, User>)
  {
    forall k | k in users :: Fold(users[k].id) == k
  }

  /** Every universe is stored under its folded id. */
  ghost predicate UniversesKeyed(universes: map<string, Universe>)
  {
    forall k | k in universes :: Fold(universes[k].id) == k
  }

  /** Every character is stored under its folded id, with its balances in range. */
  ghost predicate CharactersKeyed(characters: map<string, Character>)
  {
    forall k | k in characters :: Fold(characters[k].id) == k && BalancesInRange(characters[k])
  }

  /** A user's universe list: universes of that user, each of them stored. */
  ghost predicate ListFiled(list: seq<Universe>, key: string, universes: map<string, Universe>)
  {
    forall j | 0 <= j < |list| :: Fold(list[j].userId) == key && Fold(list[j].id) in universes
  }

  ghost predicate ListsFiled(lists: map<string, seq<Universe>>, universes: map<string, Universe>)
  {
    forall k | k in lists :: ListFiled(lists[k], k, universes)
  }

  /** A universe's roster: characters of that universe, with their balances in range. */
  ghost predicate RosterFiled(roster: seq<Character>, key: string)
  {
    forall j | 0 <= j < |roster| :: Fold(roster[j].universeId) == key && BalancesInRange(roster[j])
  }

  ghost predicate RostersFiled(rosters: map<string, seq<Character>>)
  {
    forall k | k in rosters :: RosterFiled(rosters[k], k)
  }

  lemma UsersKeyedInsert(users: map<string, User>, u: User)
    requires UsersKeyed(users)
    ensures UsersKeyed(users[Fold(u.id) := u])
  {
  }

  lemma UniversesKeyedInsert(universes: map<string, Universe>, u: Universe)
    requires UniversesKeyed(universes)
    ensures UniversesKeyed(universes[Fold(u.id) := u])
  {
  }

  lemma CharactersKeyedInsert(characters: map<string, Character>, c: Character)
    requires CharactersKeyed(characters) && BalancesInRange(c)
    ensures CharactersKeyed(characters[Fold(c.id) := c])
  {
  }

  lemma ListsFiledInsert(lists: map<string, seq<Universe>>, universes: map<string, Universe>, key: string, list: seq<Universe>)
    requires ListsFiled(lists, universes) && ListFiled(list, key, universes)
    ensures ListsFiled(lists[key := list], universes)
  {
  }

  /** Storing one more universe keeps every list filed, and the new universe may join its
      owner's list. */
  lemma ListsFiledAdd(lists: map<string, seq<Universe>>, universes: map<string, Universe>, u: Universe)
    requires ListsFiled(lists, universes)
    ensures var grown := universes[Fold(u.id) := u];
            ListsFiled(lists, grown)
            && (forall list | ListFiled(list, Fold(u.userId), universes) :: ListFiled(list + [u], Fold(u.userId), grown))
  {
    var grown := universes[Fold(u.id) := u];
    forall k | k in lists
      ensures ListFiled(lists[k], k, grown)
    {
      assert ListFiled(lists[k], k, universes);
    }
    forall list | ListFiled(list, Fold(u.userId), universes)
      ensures ListFiled(list + [u], Fold(u.userId), grown)
    {
      forall j | 0 <= j < |list + [u]|
        ensures Fold((list + [u])[j].userId) == Fold(u.userId) && Fold((list + [u])[j].id) in grown
      {
        if j < |list| {
          assert (list + [u])[j] == list[j];
        }
      }
    }
  }

  lemma RostersFiledInsert(rosters: map<string, seq<Character>>, key: string, roster: seq<Character>)
    requires RostersFiled(rosters) && RosterFiled(roster, key)
    ensures RostersFiled(rosters[key := roster])
  {
  }

  lemma RosterFiledAppend(roster: seq<Character>, key: string, c: Character)
    requires RosterFiled(roster, key) && Fold(c.universeId) == key && BalancesInRange(c)
    ensures RosterFiled(roster + [c], key)
  {
    forall j | 0 <= j < |roster + [c]|
      ensures Fold((roster + [c])[j].universeId) == key && BalancesInRange((roster + [c])[j])
    {
      if j < |roster| {
        assert (roster + [c])[j] == roster[j];
      }
    }
  }

  lemma RosterFiledReplace(roster: seq<Character>, key: string, c: Character)
    requires RosterFiled(roster, key) && Fold(c.universeId) == key && BalancesInRange(c)
    ensures RosterFiled(ReplaceFirst(roster, c), key)
  {
    var r := ReplaceFirst(roster, c);
    forall j | 0 <= j < |r|
      ensures Fold(r[j].universeId) == key && BalancesInRange(r[j])
    {
      assert r[j] == roster[j] || r[j] == c;
    }
  }

  /** The wallet rows of one roster: its total and one row per character. */
  method SummariseRoster(roster: seq<Character>, universe: Universe) returns (wallet: WalletBreakdown, rows: seq<CharacterWallet>)
    ensures wallet == RosterWallet(roster) && rows == CharacterWallets(roster, universe)
  {
    wallet, rows := EmptyWallet, [];
    var j := 0;
    while j < |roster|
      invariant 0 <= j <= |roster|
      invariant Plus(wallet, RosterWallet(roster[j..])) == RosterWallet(roster)
      invariant rows + CharacterWallets(roster[j..], universe) == CharacterWallets(roster, universe)
    {
      var c := roster[j];
      assert roster[j..][0] == c && roster[j..][1..] == roster[j + 1..];
      wallet := wallet.Add(c.baseCurrency, c.premiumCurrency);
      rows := rows + [CharacterWallet(c.id, c.name, universe.id, universe.name,
                                      WalletBreakdown(c.baseCurrency, c.premiumCurrency))];
      j := j + 1;
    }
    assert roster[j..] == [];
  }

  /** The loop of BuildWalletSnapshot: per universe, in order, the roster's wallet and rows,
      and the account wallet as the sum of the universe wallets. */
  method SummariseUniverses(listed: seq<Universe>, rosters: seq<seq<Character>>) returns (s: AccountWalletSnapshot)
    requires |rosters| == |listed|
    ensures s == SnapshotOf(listed, rosters)
  {
    var accountWallet := EmptyWallet;
    var universeRows: seq<UniverseWallet> := [];
    var characterRows: seq<CharacterWallet> := [];
    ghost var full := SnapshotOf(listed, rosters);
    var i := 0;
    while i < |listed|
      invariant 0 <= i <= |listed|
      invariant Plus(accountWallet, SnapshotOf(listed[i..], rosters[i..]).account) == full.account
      invariant universeRows + SnapshotOf(listed[i..], rosters[i..]).universes == full.universes
      invariant characterRows + SnapshotOf(listed[i..], rosters[i..]).characters == full.characters
    {
      var universe := listed[i];
      var universeWallet, rows := SummariseRoster(rosters[i], universe);
      var row := UniverseWallet(universe.id, universe.name, universeWallet);
      ghost var rest := SnapshotOf(listed[i + 1..], rosters[i + 1..]);
      assert SnapshotOf(listed[i..], rosters[i..])
          == AccountWalletSnapshot(Plus(universeWallet, rest.account), [row] + rest.universes, rows + rest.characters) by {
        assert listed[i..][0] == universe && listed[i..][1..] == listed[i + 1..];
        assert rosters[i..][0] == rosters[i] && rosters[i..][1..] == rosters[i + 1..];
      }
      assert (universeRows + [row]) + rest.universes == universeRows + ([row] + rest.universes);
      assert (characterRows + rows) + rest.characters == characterRows + (rows + rest.characters);
      characterRows := characterRows + rows;
      universeRows := universeRows + [row];
      accountWallet := accountWallet.Add(universeWallet.baseCurrency, universeWallet.premiumCurrency);
      i := i + 1;
    }
    assert listed[i..] == [];
    s := AccountWalletSnapshot(accountWallet, universeRows, characterRows);
  }

  /** The loop of the user-wide deposit that collects every roster's characters. */
  method Concatenate(rosters: seq<seq<Character>>) returns (targets: seq<Character>)
    ensures targets == Flatten(rosters)
  {
    targets := [];
    var i := 0;
    while i < |rosters|
      invariant 0 <= i <= |rosters|
      invariant targets + Flatten(rosters[i..]) == Flatten(rosters)
    {
      assert rosters[i..][0] == rosters[i] && rosters[i..][1..] == rosters[i + 1..];
      assert (targets + rosters[i]) + Flatten(rosters[i + 1..]) == targets + (rosters[i] + Flatten(rosters[i + 1..]));
      targets := targets + rosters[i];
      i := i + 1;
    }
    assert rosters[i..] == [];
  }

  class AccountService {
    const rulebook: AccountRulebook
    /** Every dictionary of the service is case-insensitive: each is keyed by the folded id. */
    var users: map<string, User>
    /** Normalised e-mail to user id (the password hash and salt are not modelled); a
        normalised e-mail is already upper-case, so it is its own folded key. */
    var credentials: map<string, string>
    var universes: map<string, Universe>
    var characters: map<string, Character>
    var universesByUser: map<string, seq<Universe>>
    var charactersByUniverse: map<string, seq<Character>>

    /** Every record is stored under its own folded id, every universe list belongs to the user
        it is filed under and names stored universes, every roster holds characters of the
        universe it is filed under, and every balance is within its bounds. */
    ghost predicate Valid()
      reads this, rulebook
    {
      rulebook.Valid()
      && UsersKeyed(users) && UniversesKeyed(universes) && CharactersKeyed(characters)
      && ListsFiled(universesByUser, universes) && RostersFiled(charactersByUniverse)
    }

    /** The character dictionary and the rosters, the state every wallet operation changes. */
    ghost function Wallets(): Ledger
      reads this
    {
      Ledger(characters, charactersByUniverse)
    }

    /** A user's universes as ListUniversesAsync returns them: newest first. */
    ghost function UniversesOf(userId: string): seq<Universe>
      reads this
    {
      Sort(Bucket(universesByUser, userId), UniverseNotOlder)
    }

    constructor(rulebook: AccountRulebook)
      requires rulebook.Valid()
      ensures Valid() && this.rulebook == rulebook
      ensures users == map[] && credentials == map[] && universes == map[] && characters == map[]
      ensures universesByUser == map[] && charactersByUniverse == map[]
    {
      this.rulebook := rulebook;
      users, credentials, universes := map[], map[], map[];
      characters, universesByUser, charactersByUniverse := map[], map[], map[];
    }

    /** RegisterUserAsync with the generated id and the clock reading as parameters; the id is
        one no user has yet. */
    method RegisterUser(email: string, password: string, displayName: string, id: string, now: int)
      returns (r: Result<User, AccountError>)
      requires Valid() && Fold(id) !in users
      modifies this`users, this`credentials, this`universesByUser
      ensures Valid()
      ensures IsBlank(email) || IsBlank(password) || IsBlank(displayName) ==> r == Err(BlankArgument)
      ensures !IsBlank(email) && !IsBlank(password) && !IsBlank(displayName) ==>
                (!IsValidEmail(NormalizeEmail(email)) ==> r == Err(ValidationFailed(InvalidEmail)))
                && (IsValidEmail(NormalizeEmail(email)) && NormalizeEmail(email) in old(credentials) ==>
                      r == Err(ValidationFailed(EmailTaken)))
                && (IsValidEmail(NormalizeEmail(email)) && NormalizeEmail(email) !in old(credentials) ==> r.Ok?)
      ensures r.Err? ==> users == old(users) && credentials == old(credentials) && universesByUser == old(universesByUser)
      ensures r.Ok? ==>
                r.value == User(id, NormalizeEmail(email), Trim(displayName), now)
                && users == old(users)[Fold(id) := r.value]
                && credentials == old(credentials)[NormalizeEmail(email) := id]
                && universesByUser == if Fold(id) in old(universesByUser) then old(universesByUser)
                                      else old(universesByUser)[Fold(id) := []]
    {
      if IsBlank(email) || IsBlank(password) || IsBlank(displayName) {
        return Err(BlankArgument);
      }
      var normalizedEmail := NormalizeEmail(email);
      if !IsValidEmail(normalizedEmail) {
        return Err(ValidationFailed(InvalidEmail));
      }
      if normalizedEmail in credentials {
        return Err(ValidationFailed(EmailTaken));
      }
      var record := User(id, normalizedEmail, Trim(displayName), now);
      UsersKeyedInsert(users, record);
      ListsFiledInsert(universesByUser, universes, Fold(id), []);
      users := users[Fold(id) := record];
      credentials := credentials[normalizedEmail := id];
      if Fold(id) !in universesByUser {
        universesByUser := universesByUser[Fold(id) := []];
      }
      return Ok(record);
    }

    /** ListUniversesAsync: the user's universes, newest first. */
    method ListUniverses(userId: string) returns (r: Result<seq<Universe>, AccountError>)
      requires Valid()
      ensures IsBlank(userId) ==> r == Err(BlankArgument)
      ensures !IsBlank(userId) && Fold(userId) !in users ==> r == Err(UserNotFound)
      ensures !IsBlank(userId) && Fold(userId) in users ==> r.Ok?
      ensures r.Ok? ==> Sorted(r.value, UniverseNotOlder)
                        && multiset(r.value) == multiset(Bucket(universesByUser, userId))
                        && r.value == UniversesOf(userId)
    {
      if IsBlank(userId) {
        return Err(BlankArgument);
      }
      if Fold(userId) !in users {
        return Err(UserNotFound);
      }
      var listed := Sort(Bucket(universesByUser, userId), UniverseNotOlder);
      NewestFirstIsPreorder();
      SortSorted(Bucket(universesByUser, userId), UniverseNotOlder);
      return Ok(listed);
    }

    /** ListCharactersAsync: the universe's roster, newest first. */
    method ListCharacters(universeId: string) returns (r: Result<seq<Character>, AccountError>)
      requires Valid()
      ensures IsBlank(universeId) ==> r == Err(BlankArgument)
      ensures !IsBlank(universeId) && Fold(universeId) !in universes ==> r == Err(UniverseNotFound)
      ensures !IsBlank(universeId) && Fold(universeId) in universes ==> r.Ok?
      ensures r.Ok? ==> Sorted(r.value, CharacterNotOlder)
                        && multiset(r.value) == multiset(Bucket(charactersByUniverse, universeId))
                        && r.value == Roster(Wallets(), universeId)
    {
      if IsBlank(universeId) {
        return Err(BlankArgument);
      }
      if Fold(universeId) !in universes {
        return Err(UniverseNotFound);
      }
      var listed := Sort(Bucket(charactersByUniverse, universeId), CharacterNotOlder);
      NewestFirstIsPreorder();
      SortSorted(Bucket(charactersByUniverse, universeId), CharacterNotOlder);
      return Ok(listed);
    }

    /** CreateUniverseAsync with the generated id and the clock reading as parameters. */
    method CreateUniverse(userId: string, name: string, id: string, now: int) returns (r: Result<Universe, AccountError>)
      requires Valid()
      modifies this`universes, this`universesByUser
      ensures Valid()
      ensures IsBlank(userId) || IsBlank(name) ==> r == Err(BlankArgument)
      ensures !IsBlank(userId) && !IsBlank(name) ==>
                (Fold(userId) !in users ==> r == Err(UserNotFound))
                && (Fold(userId) in users && |Bucket(old(universesByUser), userId)| >= rulebook.snapshot.maxAccountsPerUser ==>
                      r == Err(UniverseLimit))
                && (Fold(userId) in users && |Bucket(old(universesByUser), userId)| < rulebook.snapshot.maxAccountsPerUser ==>
                      r.Ok?)
      ensures r.Err? ==> universes == old(universes) && universesByUser == old(universesByUser)
      ensures r.Ok? ==>
                r.value == Universe(id, userId, Trim(name), now)
                && universes == old(universes)[Fold(id) := r.value]
                && universesByUser == old(universesByUser)[Fold(userId) := Bucket(old(universesByUser), userId) + [r.value]]
    {
      if IsBlank(userId) || IsBlank(name) {
        return Err(BlankArgument);
      }
      if Fold(userId) !in users {
        return Err(UserNotFound);
      }
      var universe := Universe(id, userId, Trim(name), now);
      var bucket := Bucket(universesByUser, userId);
      if |bucket| >= rulebook.snapshot.maxAccountsPerUser {
        return Err(UniverseLimit);
      }
      ListsFiledAdd(universesByUser, universes, universe);
      ListsFiledInsert(universesByUser, universes[Fold(id) := universe], Fold(userId), bucket + [universe]);
      UniversesKeyedInsert(universes, universe);
      universesByUser := universesByUser[Fold(userId) := bucket + [universe]];
      universes := universes[Fold(id) := universe];
      return Ok(universe);
    }

    /** CreateCharacterAsync with the generated id and the clock reading as parameters. */
    method CreateCharacter(universeId: string, name: Option<string>, spriteAssetId: Option<string>, id: string, now: int)
      returns (r: Result<Character, AccountError>)
      requires Valid()
      modifies this`characters, this`charactersByUniverse
      ensures Valid()
      ensures IsBlank(universeId) ==> r == Err(BlankArgument)
      ensures !IsBlank(universeId) ==>
                (Fold(universeId) !in universes ==> r == Err(UniverseNotFound))
                && (Fold(universeId) in universes
                    && |Bucket(old(charactersByUniverse), universeId)| >= rulebook.snapshot.maxProfilesPerAccount ==>
                      r == Err(CharacterLimit))
                && (Fold(universeId) in universes
                    && |Bucket(old(charactersByUniverse), universeId)| < rulebook.snapshot.maxProfilesPerAccount ==>
                      r.Ok?)
      ensures r.Err? ==> characters == old(characters) && charactersByUniverse == old(charactersByUniverse)
      ensures r.Ok? ==>
                var rules := rulebook.snapshot;
                var roster := Bucket(old(charactersByUniverse), universeId);
                r.value == Character(id, universes[Fold(universeId)].id, CharacterName(name, |roster| + 1), now,
                                     rules.defaultBaseCurrency, rules.defaultPremiumCurrency, rules.starterEquipment,
                                     SpriteOrDefault(spriteAssetId, rules.defaultSpriteAssetId))
                && characters == old(characters)[Fold(id) := r.value]
                && charactersByUniverse == old(charactersByUniverse)[Fold(universeId) := roster + [r.value]]
    {
      if IsBlank(universeId) {
        return Err(BlankArgument);
      }
      if Fold(universeId) !in universes {
        return Err(UniverseNotFound);
      }
      var universe := universes[Fold(universeId)];
      var rules := rulebook.snapshot;
      var bucket := Bucket(charactersByUniverse, universeId);
      var resolvedName := CharacterName(name, |bucket| + 1);
      var sprite := SpriteOrDefault(spriteAssetId, rules.defaultSpriteAssetId);
      var record := Character(id, universe.id, resolvedName, now, rules.defaultBaseCurrency, rules.defaultPremiumCurrency,
                              rules.starterEquipment, sprite);
      if |bucket| >= rules.maxProfilesPerAccount {
        return Err(CharacterLimit);
      }
      RosterFiledAppend(bucket, Fold(universeId), record);
      RostersFiledInsert(charactersByUniverse, Fold(universeId), bucket + [record]);
      CharactersKeyedInsert(characters, record);
      charactersByUniverse := charactersByUniverse[Fold(universeId) := bucket + [record]];
      characters := characters[Fold(id) := record];
      return Ok(record);
    }

    /** UpdateCharacterWallet: credits both balances, clamped, and writes the record into the
        dictionary and into its roster. */
    method UpdateCharacterWallet(record: Character, baseDelta: int, premiumDelta: int) returns (updated: Character)
      requires Valid()
      modifies this`characters, this`charactersByUniverse
      ensures Valid()
      ensures updated == Credited(record, baseDelta, premiumDelta)
      ensures Wallets() == UpdateWallet(old(Wallets()), record, baseDelta, premiumDelta)
    {
      updated := Credited(record, baseDelta, premiumDelta);
      CharactersKeyedInsert(characters, updated);
      characters := characters[Fold(updated.id) := updated];
      var key := Fold(updated.universeId);
      if key in charactersByUniverse {
        RosterFiledReplace(charactersByUniverse[key], key, updated);
        RostersFiledInsert(charactersByUniverse, key, ReplaceFirst(charactersByUniverse[key], updated));
        charactersByUniverse := charactersByUniverse[key := ReplaceFirst(charactersByUniverse[key], updated)];
      }
    }

    /** DistributeAcrossCharacters: splits each grant over the targets and credits each target
        its share, skipping targets whose two shares are zero. */
    method DistributeAcrossCharacters(targets: seq<Character>, baseCurrency: int, premiumCurrency: int)
      requires Valid()
      modifies this`characters, this`charactersByUniverse
      ensures Valid()
      ensures Wallets() == Distribute(old(Wallets()), targets, Shares(baseCurrency, |targets|), Shares(premiumCurrency, |targets|))
    {
      if |targets| == 0 {
        return;
      }
      var baseAllocations := SplitAmount(baseCurrency, |targets|);
      var premiumAllocations := SplitAmount(premiumCurrency, |targets|);
      CreditShares(targets, baseAllocations[..], premiumAllocations[..]);
    }

    /** The loop of DistributeAcrossCharacters over the two allocation arrays. */
    method CreditShares(targets: seq<Character>, baseShares: seq<int>, premiumShares: seq<int>)
      requires Valid() && |baseShares| == |targets| && |premiumShares| == |targets|
      modifies this`characters, this`charactersByUniverse
      ensures Valid()
      ensures Wallets() == Distribute(old(Wallets()), targets, baseShares, premiumShares)
    {
      var i := 0;
      while i < |targets|
        invariant 0 <= i <= |targets| && Valid()
        invariant Distribute(Wallets(), targets[i..], baseShares[i..], premiumShares[i..])
               == Distribute(old(Wallets()), targets, baseShares, premiumShares)
      {
        DistributeStep(Wallets(), targets, baseShares, premiumShares, i);
        if baseShares[i] != 0 || premiumShares[i] != 0 {
          var _ := UpdateCharacterWallet(targets[i], baseShares[i], premiumShares[i]);
        }
        i := i + 1;
      }
    }

    /** BuildWalletSnapshot: the snapshot of the user's universes, newest first. */
    method BuildWalletSnapshot(userId: string) returns (s: AccountWalletSnapshot)
      ensures s == WalletSnapshot(UniversesOf(userId), Wallets())
    {
      var listed := Sort(Bucket(universesByUser, userId), UniverseNotOlder);
      s := SummariseUniverses(listed, Rosters(listed, Ledger(characters, charactersByUniverse)));
    }

    /** GetWalletSnapshotAsync. */
    method GetWalletSnapshot(userId: string) returns (r: Result<AccountWalletSnapshot, AccountError>)
      requires Valid()
      ensures IsBlank(userId) ==> r == Err(BlankArgument)
      ensures !IsBlank(userId) && Fold(userId) !in users ==> r == Err(UserNotFound)
      ensures !IsBlank(userId) && Fold(userId) in users ==> r == Ok(WalletSnapshot(UniversesOf(userId), Wallets()))
    {
      if IsBlank(userId) {
        return Err(BlankArgument);
      }
      if Fold(userId) !in users {
        return Err(UserNotFound);
      }
      var s := BuildWalletSnapshot(userId);
      return Ok(s);
    }

    /** The character-targeted deposit: the whole grant goes to that character. */
    method DepositToCharacter(userId: string, characterId: string, baseCurrency: int, premiumCurrency: int)
      returns (r: Result<AccountWalletSnapshot, AccountError>)
      requires Valid()
      modifies this`characters, this`charactersByUniverse
      ensures Valid()
      ensures Fold(characterId) !in old(characters) ==> r == Err(CharacterNotFound)
      ensures Fold(characterId) in old(characters) ==>
                var c := old(characters)[Fold(characterId)];
                (Fold(c.universeId) !in universes ==> r == Err(UniverseNotFound))
                && (Fold(c.universeId) in universes && !EqualsIgnoreCase(universes[Fold(c.universeId)].userId, userId) ==>
                      r == Err(UniverseNotFound))
                && (Fold(c.universeId) in universes && EqualsIgnoreCase(universes[Fold(c.universeId)].userId, userId) ==>
                      Wallets() == UpdateWallet(old(Wallets()), c, baseCurrency, premiumCurrency)
                      && r == Ok(WalletSnapshot(UniversesOf(userId), Wallets())))
      ensures r.Err? ==> Wallets() == old(Wallets())
    {
      if Fold(characterId) !in characters {
        return Err(CharacterNotFound);
      }
      var character := characters[Fold(characterId)];
      if Fold(character.universeId) !in universes {
        return Err(UniverseNotFound);
      }
      var universe := universes[Fold(character.universeId)];
      if !EqualsIgnoreCase(universe.userId, userId) {
        return Err(UniverseNotFound);
      }
      var _ := UpdateCharacterWallet(character, baseCurrency, premiumCurrency);
      var s := BuildWalletSnapshot(userId);
      return Ok(s);
    }

    /** The universe-wide deposit: the grant is split over the universe's roster. */
    method DepositToUniverse(userId: string, universeId: string, baseCurrency: int, premiumCurrency: int)
      returns (r: Result<AccountWalletSnapshot, AccountError>)
      requires Valid()
      modifies this`characters, this`charactersByUniverse
      ensures Valid()
      ensures Fold(universeId) !in universes ==> r == Err(UniverseNotFound)
      ensures Fold(universeId) in universes ==>
                var u := universes[Fold(universeId)];
                var roster := Roster(old(Wallets()), u.id);
                (!EqualsIgnoreCase(u.userId, userId) ==> r == Err(UniverseNotFound))
                && (EqualsIgnoreCase(u.userId, userId) && roster == [] ==> r == Err(WalletUnavailable))
                && (EqualsIgnoreCase(u.userId, userId) && roster != [] ==>
                      Wallets() == Distribute(old(Wallets()), roster, Shares(baseCurrency, |roster|), Shares(premiumCurrency, |roster|))
                      && r == Ok(WalletSnapshot(UniversesOf(userId), Wallets())))
      ensures r.Err? ==> Wallets() == old(Wallets())
    {
      if Fold(universeId) !in universes {
        return Err(UniverseNotFound);
      }
      var universe := universes[Fold(universeId)];
      if !EqualsIgnoreCase(universe.userId, userId) {
        return Err(UniverseNotFound);
      }
      var roster := Sort(Bucket(charactersByUniverse, universe.id), CharacterNotOlder);
      if |roster| == 0 {
        return Err(WalletUnavailable);
      }
      DistributeAcrossCharacters(roster, baseCurrency, premiumCurrency);
      var s := BuildWalletSnapshot(userId);
      return Ok(s);
    }

    /** The user-wide deposit: the grant is split over the rosters of all the user's universes. */
    method DepositToUser(userId: string, baseCurrency: int, premiumCurrency: int)
      returns (r: Result<AccountWalletSnapshot, AccountError>)
      requires Valid()
      modifies this`characters, this`charactersByUniverse
      ensures Valid()
      ensures var targets := AllCharacters(old(UniversesOf(userId)), old(Wallets()));
              (targets == [] ==> r == Err(WalletUnavailable) && Wallets() == old(Wallets()))
              && (targets != [] ==>
                    Wallets() == Distribute(old(Wallets()), targets, Shares(baseCurrency, |targets|), Shares(premiumCurrency, |targets|))
                    && r == Ok(WalletSnapshot(UniversesOf(userId), Wallets())))
    {
      var listed := Sort(Bucket(universesByUser, userId), UniverseNotOlder);
      var ledger := Ledger(characters, charactersByUniverse);
      var targets := Concatenate(Rosters(listed, ledger));
      assert targets == AllCharacters(old(UniversesOf(userId)), old(Wallets()));
      if |targets| == 0 {
        return Err(WalletUnavailable);
      }
      DistributeAcrossCharacters(targets, baseCurrency, premiumCurrency);
      var s := BuildWalletSnapshot(userId);
      return Ok(s);
    }

    /** DepositCurrencyAsync: validates the grant, then credits one character, one universe's
        roster, or every character of the user. */
    method Deposit(userId: string, universeId: Option<string>, characterId: Option<string>,
                   baseCurrency: int, premiumCurrency: int)
      returns (r: Result<AccountWalletSnapshot, AccountError>)
      requires Valid()
      modifies this`characters, this`charactersByUniverse
      ensures Valid()
      ensures IsBlank(userId) ==> r == Err(BlankArgument)
      ensures !IsBlank(userId) && (baseCurrency < 0 || premiumCurrency < 0) ==> r == Err(ValidationFailed(NegativeGrant))
      ensures !IsBlank(userId) && baseCurrency >= 0 && premiumCurrency >= 0 && Fold(userId) !in users ==>
                r == Err(UserNotFound)
      ensures baseCurrency == 0 && premiumCurrency == 0 ==> Wallets() == old(Wallets())
      ensures !IsBlank(userId) && Fold(userId) in users && baseCurrency == 0 && premiumCurrency == 0 ==>
                r == Ok(WalletSnapshot(UniversesOf(userId), Wallets()))
      ensures r.Err? ==> Wallets() == old(Wallets())
      ensures r.Ok? ==> r.value == WalletSnapshot(UniversesOf(userId), Wallets())
      ensures !IsBlank(userId) && Fold(userId) in users && baseCurrency >= 0 && premiumCurrency >= 0
              && (baseCurrency > 0 || premiumCurrency > 0) ==>
                if characterId.Some? && !IsBlank(characterId.value) then
                  (Fold(characterId.value) !in old(characters) ==> r == Err(CharacterNotFound))
                  && (Fold(characterId.value) in old(characters) ==>
                        var c := old(characters)[Fold(characterId.value)];
                        var owned := Fold(c.universeId) in universes
                                     && EqualsIgnoreCase(universes[Fold(c.universeId)].userId, userId);
                        (!owned ==> r == Err(UniverseNotFound))
                        && (owned ==> r.Ok? && Wallets() == UpdateWallet(old(Wallets()), c, baseCurrency, premiumCurrency)))
                else if universeId.Some? && !IsBlank(universeId.value) then
                  (Fold(universeId.value) !in universes ==> r == Err(UniverseNotFound))
                  && (Fold(universeId.value) in universes ==>
                        var u := universes[Fold(universeId.value)];
                        var roster := Roster(old(Wallets()), u.id);
                        (!EqualsIgnoreCase(u.userId, userId) ==> r == Err(UniverseNotFound))
                        && (EqualsIgnoreCase(u.userId, userId) && roster == [] ==> r == Err(WalletUnavailable))
                        && (EqualsIgnoreCase(u.userId, userId) && roster != [] ==>
                              r.Ok? && Wallets() == Distribute(old(Wallets()), roster, Shares(baseCurrency, |roster|),
                                                               Shares(premiumCurrency, |roster|))))
                else
                  var targets := AllCharacters(old(UniversesOf(userId)), old(Wallets()));
                  (targets == [] ==> r == Err(WalletUnavailable))
                  && (targets != [] ==> r.Ok? && Wallets() == Distribute(old(Wallets()), targets, Shares(baseCurrency, |targets|),
                                                                         Shares(premiumCurrency, |targets|)))
    {
      if IsBlank(userId) {
        return Err(BlankArgument);
      }
      if baseCurrency < 0 || premiumCurrency < 0 {
        return Err(ValidationFailed(NegativeGrant));
      }
      if baseCurrency == 0 && premiumCurrency == 0 {
        r := GetWalletSnapshot(userId);
        return;
      }
      if Fold(userId) !in users {
        return Err(UserNotFound);
      }
      if characterId.Some? && !IsBlank(characterId.value) {
        r := DepositToCharacter(userId, characterId.value, baseCurrency, premiumCurrency);
      } else if universeId.Some? && !IsBlank(universeId.value) {
        r := DepositToUniverse(userId, universeId.value, baseCurrency, premiumCurrency);
      } else {
        r := DepositToUser(userId, baseCurrency, premiumCurrency);
      }
    }

    /** The top-up of one roster snapshot, character by character. */
    method TopUpCharacters(roster: seq<Character>, baseCurrency: int, premiumCurrency: int)
      requires Valid()
      modifies this`characters, this`charactersByUniverse
      ensures Valid()
      ensures Wallets() == TopUpRoster(old(Wallets()), roster, baseCurrency, premiumCurrency)
    {
      ghost var goal := TopUpRoster(Wallets(), roster, baseCurrency, premiumCurrency);
      var j := 0;
      while j < |roster|
        invariant 0 <= j <= |roster| && Valid()
        invariant TopUpRoster(Wallets(), roster[j..], baseCurrency, premiumCurrency) == goal
      {
        var c := roster[j];
        assert roster[j..][0] == c && roster[j..][1..] == roster[j + 1..];
        var baseDelta := MaxInt(0, baseCurrency - c.baseCurrency);
        var premiumDelta := MaxInt(0, premiumCurrency - c.premiumCurrency);
        if baseDelta > 0 || premiumDelta > 0 {
          var _ := UpdateCharacterWallet(c, baseDelta, premiumDelta);
        }
        j := j + 1;
      }
    }

    /** TopUpUserWalletAsync: raises every character of the user to the target balances. */
    method TopUp(userId: string, baseCurrency: int, premiumCurrency: int) returns (r: Result<(), AccountError>)
      requires Valid()
      modifies this`characters, this`charactersByUniverse
      ensures Valid()
      ensures IsBlank(userId) ==> r == Err(BlankArgument)
      ensures !IsBlank(userId) && Fold(userId) !in users ==> r == Err(UserNotFound)
      ensures r.Err? ==> Wallets() == old(Wallets())
      ensures r.Ok? ==> Wallets() == TopUpUniverses(old(Wallets()), old(UniversesOf(userId)), baseCurrency, premiumCurrency)
      ensures !IsBlank(userId) && Fold(userId) in users ==> r.Ok?
    {
      if IsBlank(userId) {
        return Err(BlankArgument);
      }
      if Fold(userId) !in users {
        return Err(UserNotFound);
      }
      var listed := Sort(Bucket(universesByUser, userId), UniverseNotOlder);
      ghost var goal := TopUpUniverses(Wallets(), listed, baseCurrency, premiumCurrency);
      var i := 0;
      while i < |listed|
        invariant 0 <= i <= |listed| && Valid()
        invariant universesByUser == old(universesByUser)
        invariant TopUpUniverses(Wallets(), listed[i..], baseCurrency, premiumCurrency) == goal
      {
        assert listed[i..][0] == listed[i] && listed[i..][1..] == listed[i + 1..];
        var roster := Sort(Bucket(charactersByUniverse, listed[i].id), CharacterNotOlder);
        TopUpCharacters(roster, baseCurrency, premiumCurrency);
        i := i + 1;
      }
      return Ok(());
    }
  }
}

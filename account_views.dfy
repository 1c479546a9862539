/** The account module's dashboard panel: which universe is active, the blocks of the panel
    (summary, universe list, universe form, roster and character form), the sign-in and error
    panels, and the one-time registration of the avatar sprite. */
module AccountViews {
  import opened Wrappers
  import opened Text
  import opened Wallet
  import opened Rulebook
  import opened AccountRecords
  import opened Views
  import Assets
  import opened Sprites
  import SpriteLibraries

  const SummarySectionId := "accounts.universe.summary"
  const UniverseSectionId := "accounts.universe.section"
  const UniverseListBlockId := "accounts.universe.list"
  const CharacterSectionId := "accounts.character.section"
  const CharacterListBlockId := "accounts.character.list"
  const UniverseFormBlockId := "accounts.universe.form"
  const CharacterFormBlockId := "accounts.character.form"
  const AuthRequiredSectionId := "accounts.universe.auth-required"
  const ErrorSectionId := "accounts.universe.error"
  const ActiveAccent := "#72f5ff"

  /** DescribeViews: the one panel the module contributes. */
  const AccountPanel := ViewDescriptor("accounts.universe", "Accounts", "Universe Control",
                                       "Manage universes, characters, and loadouts.", "hero", 10, 3)

  // ---------------------------------------------------------------- selection rules

  /** The position of the first universe whose id equals the given one ignoring case, or the
      length of the list when none does. */
  function FirstWithId(universes: seq<Universe>, id: string): (r: nat)
    ensures r <= |universes|
    ensures forall j | 0 <= j < r :: !EqualsIgnoreCase(universes[j].id, id)
    ensures r < |universes| ==> EqualsIgnoreCase(universes[r].id, id)
  {
    FirstMatching(universes, (x: Universe) => x.id, id)
  }

  /** The position of the first universe created last: what a stable descending sort by
      creation time puts in front. */
  function Latest(universes: seq<Universe>): (r: nat)
    requires |universes| > 0
    ensures r < |universes|
    ensures forall j | 0 <= j < |universes| :: universes[j].createdAt <= universes[r].createdAt
    ensures forall j | 0 <= j < r :: universes[j].createdAt < universes[r].createdAt
    decreases |universes|
  {
    if |universes| == 1 then 0
    else
      var k := 1 + Latest(universes[1..]);
      if universes[0].createdAt >= universes[k].createdAt then 0 else k
  }

  /** ResolveActiveUniverse: none without universes; the first universe whose id matches a
      non-blank requested id ignoring case; otherwise the first of the latest created. */
  function ResolveActiveUniverse(universes: seq<Universe>, requested: Option<string>): (r: Option<Universe>)
    ensures r.None? <==> |universes| == 0
    ensures r.Some? ==> r.value in universes
    ensures requested.Some? && !IsBlank(requested.value) && FirstWithId(universes, requested.value) < |universes| ==>
              r == Some(universes[FirstWithId(universes, requested.value)])
    ensures |universes| > 0 && (requested.None? || IsBlank(requested.value) || FirstWithId(universes, requested.value) == |universes|) ==>
              r == Some(universes[Latest(universes)])
  {
    if |universes| == 0 then None
    else if requested.Some? && !IsBlank(requested.value) && FirstWithId(universes, requested.value) < |universes| then
      Some(universes[FirstWithId(universes, requested.value)])
    else Some(universes[Latest(universes)])
  }

  /** A requested id that some universe carries ignoring case is always honoured. */
  lemma ResolveHonoursRequest(universes: seq<Universe>, requested: string, u: Universe)
    requires !IsBlank(requested) && u in universes && EqualsIgnoreCase(u.id, requested)
    ensures ResolveActiveUniverse(universes, Some(requested)).Some?
    ensures EqualsIgnoreCase(ResolveActiveUniverse(universes, Some(requested)).value.id, requested)
  {
    var i :| 0 <= i < |universes| && universes[i] == u;
    assert FirstWithId(universes, requested) <= i;
  }

  /** Without a usable request the chosen universe was created no earlier than any other. */
  lemma ResolveDefaultsToNewest(universes: seq<Universe>, requested: Option<string>)
    requires universes != []
    requires requested.None? || IsBlank(requested.value)
    ensures forall u | u in universes :: u.createdAt <= ResolveActiveUniverse(universes, requested).value.createdAt
  {
  }

  /** GenerateUniverseName: the first two suggestions are named, later ones are numbered from
      the count of existing universes plus one. */
  function GenerateUniverseName(existingUniverses: nat): string
  {
    if existingUniverses == 0 then "Aurora Expanse"
    else if existingUniverses == 1 then "Nebula Forge"
    else "Universe " + NatToString(existingUniverses + 1)
  }

  /** The suggested names start with different letters: A, N and then U for numbered names;
      so none is blank. */
  lemma GenerateUniverseNameInitial(n: nat)
    ensures |GenerateUniverseName(n)| > 0 && !IsBlank(GenerateUniverseName(n))
    ensures GenerateUniverseName(n)[0] == if n == 0 then 'A' else if n == 1 then 'N' else 'U'
  {
    assert !IsWhiteSpace(GenerateUniverseName(n)[0]);
  }

  /** Numbered names with different numbers differ. */
  lemma NumberedNameInjective(a: nat, b: nat)
    requires "Universe " + NatToString(a) == "Universe " + NatToString(b)
    ensures a == b
  {
    var prefix := "Universe ";
    assert (prefix + NatToString(a))[|prefix|..] == NatToString(a);
    assert (prefix + NatToString(b))[|prefix|..] == NatToString(b);
    NatToStringRoundTrip(a);
    NatToStringRoundTrip(b);
  }

  /** Different universe counts get different suggested names. */
  lemma GenerateUniverseNameInjective(a: nat, b: nat)
    requires GenerateUniverseName(a) == GenerateUniverseName(b)
    ensures a == b
  {
    if a >= 2 && b >= 2 {
      NumberedNameInjective(a + 1, b + 1);
    } else {
      GenerateUniverseNameInitial(a);
      GenerateUniverseNameInitial(b);
    }
  }

  /** CountCharacters: the wallet characters of a universe, ids compared ignoring case. */
  function CountCharacters(characters: seq<CharacterWallet>, universeId: string): (r: nat)
    ensures r <= |characters|
    ensures r > 0 <==> exists c | c in characters :: EqualsIgnoreCase(c.universeId, universeId)
    decreases |characters|
  {
    if characters == [] then 0
    else
      (if EqualsIgnoreCase(characters[0].universeId, universeId) then 1 else 0)
      + CountCharacters(characters[1..], universeId)
  }

  /** Counting over two lists adds up. */
  lemma {:induction false} CountCharactersAppend(a: seq<CharacterWallet>, b: seq<CharacterWallet>, universeId: string)
    ensures CountCharacters(a + b, universeId) == CountCharacters(a, universeId) + CountCharacters(b, universeId)
    decreases |a|
  {
    if a != [] {
      assert (a + b)[1..] == a[1..] + b;
      CountCharactersAppend(a[1..], b, universeId);
    } else {
      assert a + b == b;
    }
  }

  /** TryFindUniverseWallet: the first universe wallet with the id, ignoring case. */
  function TryFindUniverseWallet(universes: seq<UniverseWallet>, universeId: string): (r: Option<UniverseWallet>)
    ensures r.None? <==> forall w | w in universes :: !EqualsIgnoreCase(w.universeId, universeId)
    ensures r.Some? ==> r.value in universes && EqualsIgnoreCase(r.value.universeId, universeId)
    decreases |universes|
  {
    if universes == [] then None
    else if EqualsIgnoreCase(universes[0].universeId, universeId) then Some(universes[0])
    else
      assert forall w | w in universes[1..] :: w in universes;
      TryFindUniverseWallet(universes[1..], universeId)
  }

  // ---------------------------------------------------------------- blocks

  /** The universe is the active one, ids compared ignoring case. */
  predicate IsActive(active: Option<Universe>, u: Universe)
  {
    active.Some? && EqualsIgnoreCase(active.value.id, u.id)
  }

  const EmptyUniverseItem := ListItem("accounts.universe.empty", "No universes yet", None, None, false, None)
  const EmptyCharacterItem := ListItem("accounts.characters.empty", "No characters minted", None, None, false, None)

  function UniverseItem(u: Universe, wallet: AccountWalletSnapshot, active: Option<Universe>): ListItem
  {
    var found := TryFindUniverseWallet(wallet.universes, u.id);
    ListItem(u.id, u.name, if found.Some? then Some(found.value.wallet) else None,
             Some(CountCharacters(wallet.characters, u.id)), IsActive(active, u),
             if IsActive(active, u) then Some(ActiveAccent) else None)
  }

  /** The universe rows, or the placeholder row when there are no universes. */
  function UniverseItems(universes: seq<Universe>, wallet: AccountWalletSnapshot, active: Option<Universe>)
    : (r: seq<ListItem>)
    ensures |r| > 0
    ensures universes == [] ==> r == [EmptyUniverseItem]
    ensures universes != [] ==> |r| == |universes|
    ensures universes != [] ==> forall i | 0 <= i < |universes| ::
              r[i].id == universes[i].id && r[i].caption == universes[i].name
              && (r[i].isActive <==> IsActive(active, universes[i]))
              && r[i].count == Some(CountCharacters(wallet.characters, universes[i].id))
  {
    if universes == [] then [EmptyUniverseItem]
    else seq(|universes|, i requires 0 <= i < |universes| => UniverseItem(universes[i], wallet, active))
  }

  function SummarySection(universes: seq<Universe>, wallet: AccountWalletSnapshot, rules: RulebookSnapshot): (r: Block)
    ensures r.id == SummarySectionId
  {
    Section(SummarySectionId, "Universe Overview", "Account-wide provisioning limits and currencies.",
            [Metric("accounts.summary.universes", "Universes", |universes|, Some(rules.maxAccountsPerUser)),
             Metric("accounts.summary.characters", "Characters", |wallet.characters|, Some(rules.maxProfilesPerAccount)),
             Metric("accounts.summary.wallet", "Account Wallet", wallet.account.baseCurrency,
                    Some(wallet.account.premiumCurrency))])
  }

  /** BuildUniverseSection: the universe list, selectable whenever it has a row, which it
      always has, and the refresh action. */
  function UniverseSection(universes: seq<Universe>, wallet: AccountWalletSnapshot, active: Option<Universe>): (r: Block)
    ensures r.id == UniverseSectionId
  {
    var items := UniverseItems(universes, wallet, active);
    Section(UniverseSectionId, "Universe Foundry", "Select a shard or spin up a new one.",
            [ListView(UniverseListBlockId, "Universes", items, |items| > 0),
             ActionBar("accounts.universe.actions", [Action("refresh-universes", "Refresh", "accounts.universes.refresh", false)])])
  }

  /** The universe list can always be selected from, and when the active universe is one of the
      listed universes, exactly the rows with its id ignoring case are marked active. */
  lemma UniverseSectionSelection(universes: seq<Universe>, wallet: AccountWalletSnapshot, active: Option<Universe>)
    ensures var list := UniverseSection(universes, wallet, active).children[0];
            list.ListView? && list.allowSelection && |list.items| > 0
            && (active.Some? && active.value in universes ==>
                  (exists i | 0 <= i < |list.items| :: list.items[i].isActive && list.items[i].id == active.value.id)
                  && forall i | 0 <= i < |list.items| :: list.items[i].isActive <==> EqualsIgnoreCase(list.items[i].id, active.value.id))
  {
    var list := UniverseSection(universes, wallet, active).children[0];
    if active.Some? && active.value in universes {
      var i :| 0 <= i < |universes| && universes[i] == active.value;
      assert list.items[i].isActive && list.items[i].id == active.value.id;
    }
  }

  function UniverseForm(rules: RulebookSnapshot, existingUniverses: nat): (r: Block)
    ensures r.id == UniverseFormBlockId
  {
    Form(UniverseFormBlockId, "Forge Universe",
         [FormField("name", "Universe Name", GenerateUniverseName(existingUniverses), true, 32, rules.maxAccountsPerUser)],
         [Action("create-universe", "Create Universe", "accounts.universe.create", true)])
  }

  function CharacterItem(c: Character): ListItem
  {
    ListItem(c.id, c.name, Some(WalletBreakdown(c.baseCurrency, c.premiumCurrency)), None, false, None)
  }

  function CharacterSection(u: Universe, characters: seq<Character>): (r: Block)
    ensures r.id == CharacterSectionId && r != EmptyRosterSection
  {
    var items := if characters == [] then [EmptyCharacterItem]
                 else seq(|characters|, i requires 0 <= i < |characters| => CharacterItem(characters[i]));
    Section(CharacterSectionId, "Operative Roster", "Each operative accumulates soft currency for deposits.",
            [ListView(CharacterListBlockId, u.name + " Roster", items, false)])
  }

  function CharacterForm(rules: RulebookSnapshot): (r: Block)
    ensures r.id == CharacterFormBlockId
  {
    Form(CharacterFormBlockId, "Launch Character",
         [FormField("name", "Codename", "Origin Spark", false, 32, rules.maxProfilesPerAccount)],
         [Action("create-character", "Launch Operative", "accounts.character.create", true)])
  }

  /** The roster placeholder shown while there is no active universe. */
  const EmptyRosterSection := Section(CharacterSectionId, "Roster", "Create a universe to mint operatives.", [])

  /** The panel's blocks: summary, universe section and universe form, then either the empty
      roster or the active universe's roster followed by the character form. */
  function ViewBlocks(universes: seq<Universe>, characters: seq<Character>, wallet: AccountWalletSnapshot,
                      active: Option<Universe>, rules: RulebookSnapshot): (r: seq<Block>)
    ensures |r| == if active.Some? then 5 else 4
    ensures r[0].id == SummarySectionId && r[1].id == UniverseSectionId && r[2].id == UniverseFormBlockId
            && r[3].id == CharacterSectionId
    ensures active.Some? ==> r[4].id == CharacterFormBlockId
    ensures r[1] == UniverseSection(universes, wallet, active)
    ensures active.None? <==> r[3] == EmptyRosterSection
  {
    var head := [SummarySection(universes, wallet, rules), UniverseSection(universes, wallet, active),
                 UniverseForm(rules, |universes|)];
    if active.None? then head + [EmptyRosterSection]
    else head + [CharacterSection(active.value, characters), CharacterForm(rules)]
  }

  /** BuildViewBlocks, which appends the blocks one by one. */
  method BuildViewBlocks(universes: seq<Universe>, characters: seq<Character>, wallet: AccountWalletSnapshot,
                         active: Option<Universe>, rules: RulebookSnapshot)
    returns (blocks: seq<Block>)
    ensures blocks == ViewBlocks(universes, characters, wallet, active, rules)
  {
    var summary := SummarySection(universes, wallet, rules);
    var listing := UniverseSection(universes, wallet, active);
    var form := UniverseForm(rules, |universes|);
    blocks := [summary, listing];
    blocks := blocks + [form];
    assert blocks == [summary, listing, form];
    if active.None? {
      blocks := blocks + [EmptyRosterSection];
      return;
    }
    var roster := CharacterSection(active.value, characters);
    var creation := CharacterForm(rules);
    blocks := blocks + [roster];
    blocks := blocks + [creation];
    assert blocks == [summary, listing, form] + [roster, creation];
  }

  // ---------------------------------------------------------------- documents

  /** The panel for a visitor who is not signed in: one section asking to sign in. */
  const UnauthenticatedDocument := ViewDocument(AccountPanel,
    [Section(AuthRequiredSectionId, "Link Pilot Identity", "Sign in or create an account to manage universes and characters.",
             [ActionBar("accounts.universe.auth-actions", [Action("open-auth", "Open Auth", "navigate:/", true)])])],
    None)

  /** The panel shown when an account query fails: one section carrying the failure message. */
  function ErrorDocument(message: string): (r: ViewDocument)
    ensures r.descriptor == AccountPanel && |r.blocks| == 1 && r.blocks[0].id == ErrorSectionId
    ensures r.blocks[0].Section? && r.blocks[0].description == message
  {
    ViewDocument(AccountPanel,
      [Section(ErrorSectionId, "Account Unavailable", message,
               [ActionBar("accounts.universe.error-actions",
                          [Action("retry-accounts", "Retry", "accounts.universes.refresh", true)])])],
      None)
  }

  /** The answers of the account service to the panel's three queries; an Err carries the
      message of the account error the query raised. */
  datatype AccountQueries = AccountQueries(
    universes: Result<seq<Universe>, string>,
    wallet: Result<AccountWalletSnapshot, string>,
    charactersOf: string -> Result<seq<Character>, string>)

  /** DescribeModuleViews: the sign-in panel without a user; otherwise the queries in order
      (universes, wallet, then the active universe's characters), the first failing one giving
      the error panel, and on success the full panel refreshed every 15 seconds. Exactly one
      document either way. */
  method DescribeModuleViews(userId: Option<string>, parameters: Option<map<string, string>>,
                             queries: AccountQueries, rules: RulebookSnapshot)
    returns (documents: seq<ViewDocument>)
    ensures |documents| == 1 && documents[0].descriptor == AccountPanel
    ensures userId.None? || IsBlank(userId.value) ==> documents == [UnauthenticatedDocument]
    ensures userId.Some? && !IsBlank(userId.value) ==>
              if queries.universes.Err? then documents == [ErrorDocument(queries.universes.error)]
              else if queries.wallet.Err? then documents == [ErrorDocument(queries.wallet.error)]
              else
                var active := ResolveActiveUniverse(queries.universes.value, RequestedUniverse(parameters));
                if active.Some? && queries.charactersOf(active.value.id).Err? then
                  documents == [ErrorDocument(queries.charactersOf(active.value.id).error)]
                else
                  var characters := if active.Some? then queries.charactersOf(active.value.id).value else [];
                  documents == [ViewDocument(AccountPanel,
                                  ViewBlocks(queries.universes.value, characters, queries.wallet.value, active, rules),
                                  Some("PT15S"))]
  {
    if userId.None? || IsBlank(userId.value) {
      return [UnauthenticatedDocument];
    }
    if queries.universes.Err? {
      return [ErrorDocument(queries.universes.error)];
    }
    var universes := queries.universes.value;
    if queries.wallet.Err? {
      return [ErrorDocument(queries.wallet.error)];
    }
    var active := ResolveActiveUniverse(universes, RequestedUniverse(parameters));
    var characters: seq<Character> := [];
    if active.Some? {
      var listed := queries.charactersOf(active.value.id);
      if listed.Err? {
        return [ErrorDocument(listed.error)];
      }
      characters := listed.value;
    }
    var blocks := BuildViewBlocks(universes, characters, queries.wallet.value, active, rules);
    documents := [ViewDocument(AccountPanel, blocks, Some("PT15S"))];
  }

  /** The `activeUniverseId` the client sent back, if any. */
  function RequestedUniverse(parameters: Option<map<string, string>>): (r: Option<string>)
    ensures r.Some? <==> parameters.Some? && "activeUniverseId" in parameters.value
  {
    if parameters.Some? && "activeUniverseId" in parameters.value then Some(parameters.value["activeUniverseId"]) else None
  }

  // ---------------------------------------------------------------- avatar sprite

  const AvatarId := "avatars/ember-nomad"
  const AvatarPath := "images/avatars/ember-nomad.svg"

  /** The four avatar clips, each showing frame 0: idle for 600 ms, mine and forage for 400 ms,
      focus for 500 ms, all looping; durations in ticks of 100 ns. */
  const AvatarClips := [AnimationClip("idle", [0], 6_000_000, true), AnimationClip("mine", [0], 4_000_000, true),
                        AnimationClip("forage", [0], 4_000_000, true), AnimationClip("focus", [0], 5_000_000, true)]

  /** The clips are what the validating clip constructor makes of the source's arguments. */
  lemma AvatarClipsValid()
    ensures NewAnimationClip("idle", [0], 600 * 10_000) == Ok(AvatarClips[0])
    ensures NewAnimationClip("mine", [0], 400 * 10_000) == Ok(AvatarClips[1])
    ensures NewAnimationClip("forage", [0], 400 * 10_000) == Ok(AvatarClips[2])
    ensures NewAnimationClip("focus", [0], 500 * 10_000) == Ok(AvatarClips[3])
  {
    assert !IsWhiteSpace(AvatarClips[0].name[0]);
    assert !IsWhiteSpace(AvatarClips[1].name[0]);
    assert !IsWhiteSpace(AvatarClips[2].name[0]);
    assert !IsWhiteSpace(AvatarClips[3].name[0]);
  }

  /** The four clip names differ ignoring case. */
  lemma AvatarClipNamesDistinct()
    ensures DistinctNames(AvatarClips)
  {
    AvatarClipNamesPairwise();
    DistinctNamesPairwise(AvatarClips);
  }

  /** The names start with I, M, F and F; forage and focus differ at their third letter. */
  lemma AvatarClipNamesPairwise()
    ensures forall i, j | 0 <= i < j < |AvatarClips| :: !EqualsIgnoreCase(AvatarClips[i].name, AvatarClips[j].name)
  {
    forall i, j | 0 <= i < j < |AvatarClips|
      ensures !EqualsIgnoreCase(AvatarClips[i].name, AvatarClips[j].name)
    {
      if i == 2 && j == 3 {
        DifferAt(AvatarClips[i].name, AvatarClips[j].name, 2);
      } else {
        DifferAt(AvatarClips[i].name, AvatarClips[j].name, 0);
      }
    }
  }

  function AvatarAsset(hash: string): Assets.AssetRecord
  {
    Assets.AssetRecord(AvatarId, "sprite", AvatarPath, 96, 96, hash, ["avatar", "accounts"])
  }

  /** The avatar sprite RegisterSingleFrame builds over the avatar asset. */
  function AvatarSprite(hash: string): Result<SpriteDefinition, SpriteLibraries.LibraryError>
  {
    SpriteLibraries.Definition(AvatarId, AvatarAsset(hash), SheetLayout(96, 96, 1, 1), AvatarClips, "idle")
  }

  /** The avatar's ids and path are not blank. */
  lemma AvatarTextsNotBlank()
    ensures !IsBlank(AvatarId) && !IsBlank(AvatarPath) && !IsBlank("idle") && !IsBlank("sprite")
  {
    assert !IsWhiteSpace(AvatarId[0]) && !IsWhiteSpace(AvatarPath[0]);
    assert !IsWhiteSpace("idle"[0]) && !IsWhiteSpace("sprite"[0]);
  }

  /** The avatar sprite is built without error. */
  lemma AvatarSpriteBuilt(hash: string)
    ensures AvatarSprite(hash).Ok?
  {
    AvatarTextsNotBlank();
    AvatarClipNamesDistinct();
    assert AvatarClips[0] in AvatarClips && EqualsIgnoreCase(AvatarClips[0].name, "idle");
    NewSpriteDefinitionOk(AvatarId, AvatarId, AvatarPath, SheetLayout(96, 96, 1, 1), AvatarClips, "idle");
  }

  /** The avatar sprite shows the whole 96 by 96 image as its one frame, defaults to idle, and
      holds exactly the four clips, each found under its own name. */
  lemma AvatarSpriteShape(hash: string)
    ensures AvatarSprite(hash).Ok?
    ensures var d := AvatarSprite(hash).value;
            d.spriteId == AvatarId && d.assetPath == AvatarPath && d.defaultAnimation == "idle"
            && d.layout.TotalFrames() == 1 && GetRegion(d.layout, 0) == Ok(FrameRegion(0, 0, 0, 96, 96))
            && |d.animations| == 4
            && forall i | 0 <= i < 4 :: TryGetAnimation(d, AvatarClips[i].name) == Some(AvatarClips[i])
  {
    AvatarSpriteBuilt(hash);
    var layout := SheetLayout(96, 96, 1, 1);
    assert SingleFrame(96, 96) == Ok(layout);
    NewSpriteDefinitionClipCount(AvatarId, AvatarId, AvatarPath, layout, AvatarClips, "idle");
    forall i | 0 <= i < 4
      ensures TryGetAnimation(AvatarSprite(hash).value, AvatarClips[i].name) == Some(AvatarClips[i])
    {
      TryGetAnimationFinds(AvatarId, AvatarId, AvatarPath, layout, AvatarClips, "idle", AvatarClips[i].name);
    }
  }

  class AccountModule {
    const manifest: Assets.AssetManifest
    const library: SpriteLibraries.SpriteLibrary
    var spriteRegistered: bool

    /** The module's library resolves assets against the module's manifest. */
    ghost predicate Valid()
      reads manifest, library
    {
      library.manifest == manifest && manifest.Valid() && library.Valid()
    }

    constructor(manifest: Assets.AssetManifest, library: SpriteLibraries.SpriteLibrary)
      requires library.manifest == manifest && manifest.Valid() && library.Valid()
      ensures Valid() && this.manifest == manifest && this.library == library && !spriteRegistered
    {
      this.manifest := manifest;
      this.library := library;
      spriteRegistered := false;
    }

    /** The two registrations RegisterSpriteAsset performs, for an asset that passes the
        manifest's checks and clips that make a valid single-frame sprite: the asset goes into
        the manifest, then the sprite over it, under the asset's id, into the library. */
    method RegisterWithSprite(asset: Assets.AssetRecord, clips: seq<AnimationClip>, defaultAnimation: string)
      requires Valid() && Assets.ValidAsset(asset)
      requires SpriteLibraries.Definition(asset.id, asset, SheetLayout(asset.width, asset.height, 1, 1), clips,
                                          defaultAnimation).Ok?
      modifies manifest, library
      ensures Valid()
      ensures manifest.assets == old(manifest.assets)[Fold(asset.id) := asset]
      ensures library.definitions
              == old(library.definitions)[Fold(asset.id) := SpriteLibraries.Definition(
                   asset.id, asset, SheetLayout(asset.width, asset.height, 1, 1), clips, defaultAnimation).value]
    {
      var registered := manifest.Register(asset.id, asset.assetType, asset.path, asset.width, asset.height,
                                          asset.hash, asset.tags);
      library.SingleFrameAlwaysFits(asset.id, asset.id, defaultAnimation, clips);
      var sprite := library.RegisterSingleFrame(asset.id, asset.id, defaultAnimation, clips);
    }

    /** RegisterSpriteAsset, run by InitializeAsync: on the first call registers the avatar
        asset (its content hash a parameter) and then the avatar sprite over it; later calls
        change nothing. */
    method RegisterSpriteAsset(hash: string)
      requires Valid()
      modifies this, manifest, library
      ensures Valid() && spriteRegistered
      ensures old(spriteRegistered) ==>
                manifest.assets == old(manifest.assets) && library.definitions == old(library.definitions)
      ensures !old(spriteRegistered) ==>
                AvatarSprite(hash).Ok?
                && manifest.assets == old(manifest.assets)[Fold(AvatarId) := AvatarAsset(hash)]
                && library.definitions == old(library.definitions)[Fold(AvatarId) := AvatarSprite(hash).value]
    {
      if spriteRegistered {
        return;
      }
      // Neither registration can fail for these arguments, so raising the flag first is
      // indistinguishable from raising it last.
      spriteRegistered := true;
      AvatarTextsNotBlank();
      AvatarSpriteBuilt(hash);
      RegisterWithSprite(AvatarAsset(hash), AvatarClips, "idle");
    }
  }
}

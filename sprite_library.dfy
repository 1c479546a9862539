/** The sprite library: sprite definitions keyed case-insensitively by sprite id, each built
    against an asset looked up in the asset manifest. A later registration of an id replaces
    the earlier one. */
module SpriteLibraries {
  import opened Wrappers
  import opened Text
  import Assets
  import opened Sprites

  /** Why a registration fails: the asset is missing from the manifest (an
      InvalidOperationException in the source), or the definition constructor rejected it. */
  datatype LibraryError = AssetNotRegistered(assetId: string) | Rejected(reason: SpriteError)

  /** The definition RegisterInternal builds: sprite id and clips as given, asset id and path
      taken from the manifest's record. */
  function Definition(spriteId: string, asset: Assets.AssetRecord, layout: SheetLayout,
                      clips: seq<AnimationClip>, defaultAnimation: string): (r: Result<SpriteDefinition, LibraryError>)
    requires ValidLayout(layout)
    ensures r.Ok? ==> ValidDefinition(r.value) && r.value.spriteId == spriteId
                      && r.value.assetId == asset.id && r.value.assetPath == asset.path
                      && r.value.layout == layout && r.value.defaultAnimation == defaultAnimation
    ensures r.Err? ==> r.error.Rejected?
                       && NewSpriteDefinition(spriteId, asset.id, asset.path, layout, clips, defaultAnimation)
                          == Err(r.error.reason)
  {
    match NewSpriteDefinition(spriteId, asset.id, asset.path, layout, clips, defaultAnimation)
    case Ok(d) => Ok(d)
    case Err(e) => Err(Rejected(e))
  }

  /** Every stored definition is valid and sits under its own folded sprite id. */
  ghost predicate Filed(definitions: map<string, SpriteDefinition>)
  {
    forall k | k in definitions :: k == Fold(definitions[k].spriteId) && ValidDefinition(definitions[k])
  }

  class SpriteLibrary {
    const manifest: Assets.AssetManifest
    var definitions: map<string, SpriteDefinition>

    ghost predicate Valid()
      reads this
    {
      Filed(definitions)
    }

    constructor(manifest: Assets.AssetManifest)
      ensures this.manifest == manifest && definitions == map[] && Valid()
    {
      this.manifest := manifest;
      definitions := map[];
    }

    /** GetAsset: the manifest's record for the id, or AssetNotRegistered. */
    function GetAsset(assetId: string): (r: Result<Assets.AssetRecord, LibraryError>)
      reads manifest
      ensures r.Err? <==> Fold(assetId) !in manifest.assets
      ensures r.Err? ==> r.error == AssetNotRegistered(assetId)
      ensures r.Ok? ==> r.value == manifest.assets[Fold(assetId)]
      ensures r.Ok? && manifest.Valid() ==> Assets.ValidAsset(r.value) && EqualsIgnoreCase(r.value.id, assetId)
    {
      match manifest.TryGet(assetId)
      case Some(asset) => Ok(asset)
      case None => Err(AssetNotRegistered(assetId))
    }

    /** The outcome of RegisterSingleFrame: the asset's whole image as the only frame. */
    function SingleFrameDefinition(spriteId: string, assetId: string, defaultAnimation: string,
                                   clips: seq<AnimationClip>): (r: Result<SpriteDefinition, LibraryError>)
      reads manifest
      ensures GetAsset(assetId).Err? ==> r == Err(AssetNotRegistered(assetId))
      ensures r.Ok? ==> GetAsset(assetId).Ok? && ValidDefinition(r.value) && r.value.spriteId == spriteId
                        && r.value.assetId == GetAsset(assetId).value.id
                        && r.value.assetPath == GetAsset(assetId).value.path
                        && r.value.layout == SheetLayout(GetAsset(assetId).value.width, GetAsset(assetId).value.height, 1, 1)
                        && r.value.layout.TotalFrames() == 1
                        && GetRegion(r.value.layout, 0)
                           == Ok(FrameRegion(0, 0, 0, GetAsset(assetId).value.width, GetAsset(assetId).value.height))
    {
      match GetAsset(assetId)
      case Err(e) => Err(e)
      case Ok(asset) =>
        match SingleFrame(asset.width, asset.height)
        case Err(e) => Err(Rejected(e))
        case Ok(layout) => Definition(spriteId, asset, layout, clips, defaultAnimation)
    }

    /** Assets in the manifest passed its dimension checks, so the single-frame layout never
        fails: the result is exactly the definition constructor's verdict. */
    lemma SingleFrameAlwaysFits(spriteId: string, assetId: string, defaultAnimation: string, clips: seq<AnimationClip>)
      requires manifest.Valid() && GetAsset(assetId).Ok?
      ensures var asset := GetAsset(assetId).value;
              SingleFrameDefinition(spriteId, assetId, defaultAnimation, clips)
              == Definition(spriteId, asset, SheetLayout(asset.width, asset.height, 1, 1), clips, defaultAnimation)
    {
    }

    /** The outcome of RegisterSheet: the given layout over the manifest's asset. */
    function SheetDefinition(spriteId: string, assetId: string, layout: SheetLayout, defaultAnimation: string,
                             clips: seq<AnimationClip>): (r: Result<SpriteDefinition, LibraryError>)
      requires ValidLayout(layout)
      reads manifest
      ensures GetAsset(assetId).Err? ==> r == Err(AssetNotRegistered(assetId))
      ensures GetAsset(assetId).Ok? ==> r == Definition(spriteId, GetAsset(assetId).value, layout, clips, defaultAnimation)
    {
      match GetAsset(assetId)
      case Err(e) => Err(e)
      case Ok(asset) => Definition(spriteId, asset, layout, clips, defaultAnimation)
    }

    /** RegisterInternal: stores the built definition under its sprite id, replacing any
        definition with that id ignoring case; a failure stores nothing. */
    method Store(spriteId: string, built: Result<SpriteDefinition, LibraryError>)
      returns (r: Result<SpriteDefinition, LibraryError>)
      requires Valid()
      requires built.Ok? ==> ValidDefinition(built.value) && built.value.spriteId == spriteId
      modifies this
      ensures Valid() && r == built
      ensures r.Ok? ==> definitions == old(definitions)[Fold(spriteId) := r.value]
      ensures r.Err? ==> definitions == old(definitions)
    {
      if built.Ok? {
        definitions := definitions[Fold(spriteId) := built.value];
      }
      r := built;
    }

    /** RegisterSingleFrame: the asset must be in the manifest; the layout is one frame the
        size of the asset's image. */
    method RegisterSingleFrame(spriteId: string, assetId: string, defaultAnimation: string, clips: seq<AnimationClip>)
      returns (r: Result<SpriteDefinition, LibraryError>)
      requires Valid()
      modifies this
      ensures Valid()
      ensures r == SingleFrameDefinition(spriteId, assetId, defaultAnimation, clips)
      ensures r.Ok? ==> definitions == old(definitions)[Fold(spriteId) := r.value] && TryGet(spriteId) == Some(r.value)
      ensures r.Err? ==> definitions == old(definitions)
    {
      r := Store(spriteId, SingleFrameDefinition(spriteId, assetId, defaultAnimation, clips));
    }

    /** RegisterSheet: the asset must be in the manifest; the layout is the caller's. */
    method RegisterSheet(spriteId: string, assetId: string, layout: SheetLayout, defaultAnimation: string,
                         clips: seq<AnimationClip>)
      returns (r: Result<SpriteDefinition, LibraryError>)
      requires Valid() && ValidLayout(layout)
      modifies this
      ensures Valid()
      ensures r == SheetDefinition(spriteId, assetId, layout, defaultAnimation, clips)
      ensures r.Ok? ==> definitions == old(definitions)[Fold(spriteId) := r.value] && TryGet(spriteId) == Some(r.value)
      ensures r.Err? ==> definitions == old(definitions)
    {
      r := Store(spriteId, SheetDefinition(spriteId, assetId, layout, defaultAnimation, clips));
    }

    /** TryGet: the definition registered under the id, ignoring case. */
    function TryGet(spriteId: string): (r: Option<SpriteDefinition>)
      reads this
      ensures r.Some? <==> Fold(spriteId) in definitions
      ensures r.Some? ==> r.value == definitions[Fold(spriteId)]
      ensures r.Some? && Valid() ==> ValidDefinition(r.value) && EqualsIgnoreCase(r.value.spriteId, spriteId)
    {
      if Fold(spriteId) in definitions then Some(definitions[Fold(spriteId)]) else None
    }

    /** List: every stored definition; each one is found again under its own sprite id. */
    function List(): (r: set<SpriteDefinition>)
      reads this
      ensures forall id | TryGet(id).Some? :: TryGet(id).value in r
      ensures Valid() ==> forall d | d in r :: TryGet(d.spriteId) == Some(d)
    {
      definitions.Values
    }
  }
}

/** Sprite geometry and its validating constructors: frame regions, sheet layouts with their
    row-major frame addressing, animation clips, and sprite definitions whose clips are keyed
    by name ignoring case. Constructors that throw become functions returning a Result. */
module Sprites {
  import opened Wrappers
  import opened Text
  import opened Numeric
  import Assets

  datatype SpriteError =
    | Negative(parameter: string)
    | NonPositive(parameter: string)
    | BlankArgument(parameter: string)
    | NoFrames
    | NoAnimations
    | DuplicateAnimation(name: string)
    | MissingDefaultAnimation(name: string)
    | FrameOutOfRange(index: int)

  // ---------------------------------------------------------------- frame regions

  /** A rectangle of a sprite sheet: frame index, top-left corner and size. */
  datatype FrameRegion = FrameRegion(index: int, x: int, y: int, width: int, height: int)

  predicate ValidRegion(r: FrameRegion)
  {
    r.index >= 0 && r.x >= 0 && r.y >= 0 && r.width > 0 && r.height > 0
  }

  /** The SpriteFrameRegion constructor. */
  function NewFrameRegion(index: int, x: int, y: int, width: int, height: int): (r: Result<FrameRegion, SpriteError>)
    ensures r.Ok? <==> ValidRegion(FrameRegion(index, x, y, width, height))
    ensures r.Ok? ==> r.value == FrameRegion(index, x, y, width, height)
    ensures index < 0 ==> r == Err(Negative("index"))
    ensures index >= 0 && x < 0 ==> r == Err(Negative("x"))
    ensures index >= 0 && x >= 0 && y < 0 ==> r == Err(Negative("y"))
    ensures index >= 0 && x >= 0 && y >= 0 && width <= 0 ==> r == Err(NonPositive("width"))
    ensures index >= 0 && x >= 0 && y >= 0 && width > 0 && height <= 0 ==> r == Err(NonPositive("height"))
  {
    if index < 0 then Err(Negative("index"))
    else if x < 0 then Err(Negative("x"))
    else if y < 0 then Err(Negative("y"))
    else if width <= 0 then Err(NonPositive("width"))
    else if height <= 0 then Err(NonPositive("height"))
    else Ok(FrameRegion(index, x, y, width, height))
  }

  /** SpriteFrameRegion.Equals: field by field. */
  function RegionEquals(a: FrameRegion, b: FrameRegion): (r: bool)
    ensures r <==> a == b
  {
    a.index == b.index && a.x == b.x && a.y == b.y && a.width == b.width && a.height == b.height
  }

  /** operator != is the negation of Equals, and both agree with structural equality. */
  function RegionDiffers(a: FrameRegion, b: FrameRegion): (r: bool)
    ensures r <==> a != b
    ensures r == !RegionEquals(b, a)
  {
    !RegionEquals(a, b)
  }

  // ---------------------------------------------------------------- sheet layouts

  /** A grid of equally sized frames, addressed row by row. */
  datatype SheetLayout = SheetLayout(frameWidth: int, frameHeight: int, columns: int, rows: int)
  {
    function TotalFrames(): int
    {
      columns * rows
    }
  }

  predicate ValidLayout(l: SheetLayout)
  {
    l.frameWidth > 0 && l.frameHeight > 0 && l.columns > 0 && l.rows > 0
  }

  /** The SpriteSheetLayout constructor. */
  function NewSheetLayout(frameWidth: int, frameHeight: int, columns: int, rows: int): (r: Result<SheetLayout, SpriteError>)
    ensures r.Ok? <==> frameWidth > 0 && frameHeight > 0 && columns > 0 && rows > 0
    ensures r.Ok? ==> ValidLayout(r.value) && r.value == SheetLayout(frameWidth, frameHeight, columns, rows)
                      && r.value.TotalFrames() >= 1
    ensures frameWidth <= 0 ==> r == Err(NonPositive("frameWidth"))
    ensures frameWidth > 0 && frameHeight <= 0 ==> r == Err(NonPositive("frameHeight"))
    ensures frameWidth > 0 && frameHeight > 0 && columns <= 0 ==> r == Err(NonPositive("columns"))
    ensures frameWidth > 0 && frameHeight > 0 && columns > 0 && rows <= 0 ==> r == Err(NonPositive("rows"))
  {
    if frameWidth <= 0 then Err(NonPositive("frameWidth"))
    else if frameHeight <= 0 then Err(NonPositive("frameHeight"))
    else if columns <= 0 then Err(NonPositive("columns"))
    else if rows <= 0 then Err(NonPositive("rows"))
    else
      assert columns * rows >= 1 by { MultiplyPositive(columns, rows); }
      Ok(SheetLayout(frameWidth, frameHeight, columns, rows))
  }

  lemma MultiplyPositive(a: int, b: int)
    requires a > 0 && b > 0
    ensures a * b >= a && a * b >= b
  {
  }

  /** GetRegion: the frame at the index, counting along rows of the given number of columns. */
  function GetRegion(l: SheetLayout, frameIndex: int): (r: Result<FrameRegion, SpriteError>)
    requires ValidLayout(l)
    ensures r.Ok? <==> 0 <= frameIndex < l.TotalFrames()
    ensures r.Err? ==> r.error == (if frameIndex < 0 then Negative("frameIndex") else FrameOutOfRange(frameIndex))
    ensures r.Ok? ==> ValidRegion(r.value) && r.value.index == frameIndex
                      && r.value.width == l.frameWidth && r.value.height == l.frameHeight
  {
    if frameIndex < 0 then Err(Negative("frameIndex"))
    else if frameIndex >= l.TotalFrames() then Err(FrameOutOfRange(frameIndex))
    else
      var column := frameIndex % l.columns;
      var row := frameIndex / l.columns;
      assert column * l.frameWidth >= 0 && row * l.frameHeight >= 0 by {
        NonNegativeProduct(column, l.frameWidth);
        NonNegativeProduct(row, l.frameHeight);
      }
      NewFrameRegion(frameIndex, column * l.frameWidth, row * l.frameHeight, l.frameWidth, l.frameHeight)
  }

  lemma NonNegativeProduct(a: int, b: int)
    requires a >= 0 && b >= 0
    ensures a * b >= 0
  {
  }

  /** The region of a valid index has the corner that row-major addressing gives it. */
  lemma GetRegionCorner(l: SheetLayout, frameIndex: int)
    requires ValidLayout(l) && 0 <= frameIndex < l.TotalFrames()
    ensures GetRegion(l, frameIndex).Ok?
    ensures GetRegion(l, frameIndex).value
            == FrameRegion(frameIndex, (frameIndex % l.columns) * l.frameWidth, (frameIndex / l.columns) * l.frameHeight,
                           l.frameWidth, l.frameHeight)
  {
  }

  lemma {:induction false} MultiplyMonotone(a: int, b: int, c: int)
    requires 0 <= a <= b && c >= 0
    ensures a * c <= b * c
  {
    assert b * c - a * c == (b - a) * c;
    NonNegativeProduct(b - a, c);
  }

  lemma ColumnFits(column: int, columns: int, frameWidth: int)
    requires 0 <= column < columns && frameWidth > 0
    ensures column * frameWidth + frameWidth <= columns * frameWidth
  {
    MultiplyMonotone(column + 1, columns, frameWidth);
  }

  lemma RowFits(frameIndex: int, columns: int, rows: int)
    requires 0 <= frameIndex < columns * rows && columns > 0 && rows > 0
    ensures frameIndex / columns < rows
  {
    if frameIndex / columns >= rows {
      MultiplyMonotone(rows, frameIndex / columns, columns);
    }
  }

  /** Every region of a valid index lies inside the sheet. */
  lemma RegionInsideSheet(l: SheetLayout, frameIndex: int)
    requires ValidLayout(l) && 0 <= frameIndex < l.TotalFrames()
    ensures var r := GetRegion(l, frameIndex).value;
            r.x + r.width <= l.columns * l.frameWidth && r.y + r.height <= l.rows * l.frameHeight
  {
    GetRegionCorner(l, frameIndex);
    ColumnFits(frameIndex % l.columns, l.columns, l.frameWidth);
    RowFits(frameIndex, l.columns, l.rows);
    ColumnFits(frameIndex / l.columns, l.rows, l.frameHeight);
  }

  lemma MultiplyCancel(a: int, b: int, c: int)
    requires c > 0 && a * c == b * c
    ensures a == b
  {
  }

  /** Different valid indices have different corners: equal corners mean equal indices. */
  lemma RegionsDistinct(l: SheetLayout, i: int, j: int)
    requires ValidLayout(l) && 0 <= i < l.TotalFrames() && 0 <= j < l.TotalFrames()
    ensures var a := GetRegion(l, i).value;
            var b := GetRegion(l, j).value;
            a.x == b.x && a.y == b.y ==> i == j
  {
    GetRegionCorner(l, i);
    GetRegionCorner(l, j);
    if (i % l.columns) * l.frameWidth == (j % l.columns) * l.frameWidth
       && (i / l.columns) * l.frameHeight == (j / l.columns) * l.frameHeight {
      MultiplyCancel(i % l.columns, j % l.columns, l.frameWidth);
      MultiplyCancel(i / l.columns, j / l.columns, l.frameHeight);
    }
  }

  /** FromAsset: as many whole frames as fit across and down the asset, at least one each way.
      The division is on non-negative widths here or lands at or below zero under either
      rounding, so Euclidean division gives the same layout as C#'s. */
  function FromAsset(asset: Assets.AssetRecord, frameWidth: int, frameHeight: int): (r: Result<SheetLayout, SpriteError>)
    ensures frameWidth <= 0 ==> r == Err(NonPositive("frameWidth"))
    ensures frameWidth > 0 && frameHeight <= 0 ==> r == Err(NonPositive("frameHeight"))
    ensures r.Ok? <==> frameWidth > 0 && frameHeight > 0
    ensures r.Ok? ==> ValidLayout(r.value) && r.value.frameWidth == frameWidth && r.value.frameHeight == frameHeight
                      && r.value.columns == MaxInt(1, asset.width / frameWidth)
                      && r.value.rows == MaxInt(1, asset.height / frameHeight)
  {
    if frameWidth <= 0 then Err(NonPositive("frameWidth"))
    else if frameHeight <= 0 then Err(NonPositive("frameHeight"))
    else NewSheetLayout(frameWidth, frameHeight, MaxInt(1, asset.width / frameWidth), MaxInt(1, asset.height / frameHeight))
  }

  /** The columns never overrun a valid asset: the frames across fit in its width whenever at
      least one frame does. */
  lemma FromAssetFits(asset: Assets.AssetRecord, frameWidth: int, frameHeight: int)
    requires Assets.ValidAsset(asset) && 0 < frameWidth <= asset.width && frameHeight > 0
    ensures var l := FromAsset(asset, frameWidth, frameHeight).value;
            l.columns * frameWidth <= asset.width && asset.width < (l.columns + 1) * frameWidth
  {
    assert asset.width == (asset.width / frameWidth) * frameWidth + asset.width % frameWidth;
    assert asset.width / frameWidth >= 1 by {
      if asset.width / frameWidth <= 0 {
        MultiplyMonotone(asset.width / frameWidth, 0, frameWidth);
      }
    }
  }

  /** SingleFrame: the whole image as one frame. */
  function SingleFrame(width: int, height: int): (r: Result<SheetLayout, SpriteError>)
    ensures r.Ok? <==> width > 0 && height > 0
    ensures r.Ok? ==> r.value.TotalFrames() == 1 && ValidLayout(r.value)
                      && GetRegion(r.value, 0) == Ok(FrameRegion(0, 0, 0, width, height))
  {
    NewSheetLayout(width, height, 1, 1)
  }

  // ---------------------------------------------------------------- animation clips

  /** A named frame sequence; the duration per frame is in ticks of 100 ns. */
  datatype AnimationClip = AnimationClip(name: string, frames: seq<int>, frameDuration: int, loop: bool)

  predicate ValidClip(c: AnimationClip)
  {
    !IsBlank(c.name) && c.frameDuration > 0 && |c.frames| > 0
  }

  /** The SpriteAnimationClip constructor; loop defaults to true. */
  function NewAnimationClip(name: string, frames: seq<int>, frameDuration: int, loop: bool := true): (r: Result<AnimationClip, SpriteError>)
    ensures r.Ok? <==> !IsBlank(name) && frameDuration > 0 && |frames| > 0
    ensures r.Ok? ==> ValidClip(r.value) && r.value == AnimationClip(name, frames, frameDuration, loop)
    ensures IsBlank(name) ==> r == Err(BlankArgument("name"))
    ensures !IsBlank(name) && frameDuration <= 0 ==> r == Err(NonPositive("frameDuration"))
    ensures !IsBlank(name) && frameDuration > 0 && frames == [] ==> r == Err(NoFrames)
  {
    if IsBlank(name) then Err(BlankArgument("name"))
    else if frameDuration <= 0 then Err(NonPositive("frameDuration"))
    else if |frames| == 0 then Err(NoFrames)
    else Ok(AnimationClip(name, frames, frameDuration, loop))
  }

  // ---------------------------------------------------------------- sprite definitions

  datatype SpriteDefinition = SpriteDefinition(
    spriteId: string, assetId: string, assetPath: string, layout: SheetLayout,
    animations: map<string, AnimationClip>, defaultAnimation: string)

  /** Every clip sits under its folded name. */
  predicate KeyedByName(m: map<string, AnimationClip>)
  {
    forall k | k in m :: k == Fold(m[k].name)
  }

  /** No clip shares its name, ignoring case, with a later one. */
  predicate DistinctNames(clips: seq<AnimationClip>)
  {
    clips == [] || (Fold(clips[0].name) !in Names(clips[1..]) && DistinctNames(clips[1..]))
  }

  /** DistinctNames says that no two clips share a name ignoring case. */
  lemma {:induction false} DistinctNamesPairwise(clips: seq<AnimationClip>)
    ensures DistinctNames(clips) <==>
              forall i, j :: 0 <= i < j < |clips| ==> !EqualsIgnoreCase(clips[i].name, clips[j].name)
  {
    if clips != [] {
      var rest := clips[1..];
      DistinctNamesPairwise(rest);
      if DistinctNames(clips) {
        forall i, j | 0 <= i < j < |clips|
          ensures !EqualsIgnoreCase(clips[i].name, clips[j].name)
        {
          assert clips[j] == rest[j - 1];
          if i > 0 {
            assert clips[i] == rest[i - 1];
          } else {
            assert Fold(clips[j].name) in Names(rest);
          }
        }
      } else if Fold(clips[0].name) in Names(rest) {
        var c :| c in rest && Fold(c.name) == Fold(clips[0].name);
        var j :| 0 <= j < |rest| && rest[j] == c;
        assert clips[j + 1] == c;
      } else {
        var i, j :| 0 <= i < j < |rest| && EqualsIgnoreCase(rest[i].name, rest[j].name);
        assert clips[i + 1] == rest[i] && clips[j + 1] == rest[j];
      }
    }
  }

  /** ToImmutableDictionary(clip => clip.Name, OrdinalIgnoreCase): the clips added one by one,
      failing on the first name already present. */
  function AddClips(m: map<string, AnimationClip>, clips: seq<AnimationClip>): (r: Result<map<string, AnimationClip>, SpriteError>)
    decreases |clips|
  {
    if clips == [] then Ok(m)
    else if Fold(clips[0].name) in m then Err(DuplicateAnimation(clips[0].name))
    else AddClips(m[Fold(clips[0].name) := clips[0]], clips[1..])
  }

  /** The folded names of the clips. */
  function Names(clips: seq<AnimationClip>): set<string>
  {
    set c | c in clips :: Fold(c.name)
  }

  lemma NamesCons(clips: seq<AnimationClip>)
    requires clips != []
    ensures Names(clips) == {Fold(clips[0].name)} + Names(clips[1..])
  {
    assert forall c | c in clips :: c == clips[0] || c in clips[1..];
  }

  /** Clips with distinct names have as many names as clips. */
  lemma {:induction false} NamesOfDistinct(clips: seq<AnimationClip>)
    requires DistinctNames(clips)
    ensures |Names(clips)| == |clips|
    decreases |clips|
  {
    if clips != [] {
      NamesCons(clips);
      NamesOfDistinct(clips[1..]);
    } else {
      assert Names(clips) == {};
    }
  }

  /** Building the dictionary succeeds exactly when the names are distinct ignoring case and
      none is already present. */
  lemma {:induction false} AddClipsOk(m: map<string, AnimationClip>, clips: seq<AnimationClip>)
    ensures AddClips(m, clips).Ok? <==> DistinctNames(clips) && Names(clips) !! m.Keys
    decreases |clips|
  {
    if clips != [] {
      AddClipsOk(m[Fold(clips[0].name) := clips[0]], clips[1..]);
      NamesCons(clips);
    }
  }

  /** A dictionary built without failure holds the prior entries and one entry per clip,
      filed under the clip's folded name. */
  lemma {:induction false} AddClipsContents(m: map<string, AnimationClip>, clips: seq<AnimationClip>)
    requires AddClips(m, clips).Ok?
    ensures var r := AddClips(m, clips).value;
            r.Keys == m.Keys + Names(clips)
            && (forall k | k in m :: r[k] == m[k])
            && (forall c | c in clips :: r[Fold(c.name)] == c)
    decreases |clips|
  {
    if clips != [] {
      var c0 := clips[0];
      var rest := clips[1..];
      AddClipsContents(m[Fold(c0.name) := c0], rest);
      NamesCons(clips);
      AddClipsOk(m[Fold(c0.name) := c0], rest);
    }
  }

  /** Every clip carries its name as key, is valid, and the definition's other fields passed
      the constructor's checks. */
  predicate ValidDefinition(d: SpriteDefinition)
  {
    !IsBlank(d.spriteId) && !IsBlank(d.assetId) && !IsBlank(d.assetPath) && ValidLayout(d.layout)
    && |d.animations| > 0 && KeyedByName(d.animations) && Fold(d.defaultAnimation) in d.animations
  }

  /** The SpriteDefinition constructor. */
  function NewSpriteDefinition(spriteId: string, assetId: string, assetPath: string, layout: SheetLayout,
                               clips: seq<AnimationClip>, defaultAnimation: string): (r: Result<SpriteDefinition, SpriteError>)
    requires ValidLayout(layout)
    ensures IsBlank(spriteId) ==> r == Err(BlankArgument("spriteId"))
    ensures !IsBlank(spriteId) && IsBlank(assetId) ==> r == Err(BlankArgument("assetId"))
    ensures !IsBlank(spriteId) && !IsBlank(assetId) && IsBlank(assetPath) ==> r == Err(BlankArgument("assetPath"))
    ensures !IsBlank(spriteId) && !IsBlank(assetId) && !IsBlank(assetPath) && IsBlank(defaultAnimation) ==>
              r == Err(BlankArgument("defaultAnimation"))
    ensures r.Ok? ==> ValidDefinition(r.value)
                      && r.value.spriteId == spriteId && r.value.assetId == assetId
                      && r.value.assetPath == assetPath && r.value.layout == layout
                      && r.value.defaultAnimation == defaultAnimation
  {
    if IsBlank(spriteId) then Err(BlankArgument("spriteId"))
    else if IsBlank(assetId) then Err(BlankArgument("assetId"))
    else if IsBlank(assetPath) then Err(BlankArgument("assetPath"))
    else if IsBlank(defaultAnimation) then Err(BlankArgument("defaultAnimation"))
    else
      var animations := AddClips(map[], clips);
      if animations.Err? then Err(animations.error)
      else if |animations.value| == 0 then Err(NoAnimations)
      else if Fold(defaultAnimation) !in animations.value then Err(MissingDefaultAnimation(defaultAnimation))
      else
        AddClipsContents(map[], clips);
        Ok(SpriteDefinition(spriteId, assetId, assetPath, layout, animations.value, defaultAnimation))
  }

  /** Adding clips to an empty map: it succeeds exactly for distinct names, the result is empty
      only for no clips, and a name is a key exactly when some clip carries it ignoring case. */
  lemma AddClipsFromEmpty(clips: seq<AnimationClip>, name: string)
    ensures AddClips(map[], clips).Ok? <==> DistinctNames(clips)
    ensures AddClips(map[], clips).Ok? ==>
              (|AddClips(map[], clips).value| > 0 <==> |clips| > 0)
              && (Fold(name) in AddClips(map[], clips).value <==> exists c :: c in clips && EqualsIgnoreCase(c.name, name))
  {
    AddClipsOk(map[], clips);
    var built := AddClips(map[], clips);
    if built.Ok? {
      AddClipsContents(map[], clips);
      var r := built.value;
      assert r.Keys == Names(clips);
      if |clips| > 0 {
        assert Fold(clips[0].name) in r.Keys;
      } else {
        assert r.Keys == {};
      }
    }
  }

  /** The constructor succeeds exactly when the names are non-blank, the clip names are distinct
      ignoring case, there is at least one clip, and one of them carries the default name. */
  lemma NewSpriteDefinitionOk(spriteId: string, assetId: string, assetPath: string, layout: SheetLayout,
                              clips: seq<AnimationClip>, defaultAnimation: string)
    requires ValidLayout(layout)
    ensures NewSpriteDefinition(spriteId, assetId, assetPath, layout, clips, defaultAnimation).Ok? <==>
              !IsBlank(spriteId) && !IsBlank(assetId) && !IsBlank(assetPath) && !IsBlank(defaultAnimation)
              && DistinctNames(clips) && |clips| > 0
              && exists c :: c in clips && EqualsIgnoreCase(c.name, defaultAnimation)
  {
    AddClipsFromEmpty(clips, defaultAnimation);
  }

  /** A definition built from a list of clips holds one animation per clip. */
  lemma NewSpriteDefinitionClipCount(spriteId: string, assetId: string, assetPath: string, layout: SheetLayout,
                                     clips: seq<AnimationClip>, defaultAnimation: string)
    requires ValidLayout(layout)
    requires NewSpriteDefinition(spriteId, assetId, assetPath, layout, clips, defaultAnimation).Ok?
    ensures |NewSpriteDefinition(spriteId, assetId, assetPath, layout, clips, defaultAnimation).value.animations| == |clips|
  {
    AddClipsOk(map[], clips);
    AddClipsContents(map[], clips);
    NamesOfDistinct(clips);
    var m := AddClips(map[], clips).value;
    assert m.Keys == Names(clips);
  }

  /** TryGetAnimation: the clip whose name equals the given one, ignoring case. */
  function TryGetAnimation(d: SpriteDefinition, name: string): (r: Option<AnimationClip>)
    ensures r.Some? <==> Fold(name) in d.animations
    ensures r.Some? && KeyedByName(d.animations) ==> EqualsIgnoreCase(r.value.name, name)
  {
    if Fold(name) in d.animations then Some(d.animations[Fold(name)]) else None
  }

  /** For a definition built from a list of clips, the lookup finds a clip exactly when one of
      the clips has that name ignoring case, and then finds that clip; the default is always
      found. */
  lemma TryGetAnimationFinds(spriteId: string, assetId: string, assetPath: string, layout: SheetLayout,
                             clips: seq<AnimationClip>, defaultAnimation: string, name: string)
    requires ValidLayout(layout)
    requires NewSpriteDefinition(spriteId, assetId, assetPath, layout, clips, defaultAnimation).Ok?
    ensures var d := NewSpriteDefinition(spriteId, assetId, assetPath, layout, clips, defaultAnimation).value;
            (TryGetAnimation(d, name).Some? <==> exists c :: c in clips && EqualsIgnoreCase(c.name, name))
            && (forall c | c in clips && EqualsIgnoreCase(c.name, name) :: TryGetAnimation(d, name) == Some(c))
            && TryGetAnimation(d, defaultAnimation).Some?
  {
    AddClipsContents(map[], clips);
    var d := NewSpriteDefinition(spriteId, assetId, assetPath, layout, clips, defaultAnimation).value;
    if Fold(name) in d.animations {
      var c :| c in clips && Fold(c.name) == Fold(name);
    }
  }
}

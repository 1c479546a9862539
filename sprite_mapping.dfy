/** The two sprite mappers: the server turns a sprite definition into its wire response, each
    clip frame index resolved to its sheet region; the client picks one animation out of the
    received definition and turns it into a render descriptor. */
module SpriteMapping {
  import opened Wrappers
  import opened Text
  import opened Sprites

  // ---------------------------------------------------------------- server: response factory

  datatype FrameResponse = FrameResponse(index: int, x: int, y: int, width: int, height: int)

  datatype AnimationResponse = AnimationResponse(name: string, frameDurationMs: real, loop: bool,
                                                 frames: seq<FrameResponse>)

  datatype DefinitionResponse = DefinitionResponse(
    spriteId: string, assetPath: string, frameWidth: int, frameHeight: int, defaultAnimation: string,
    animations: seq<AnimationResponse>)

  /** `TimeSpan.TotalMilliseconds` of a duration in ticks of 100 ns. */
  function Milliseconds(ticks: int): (r: real)
    ensures ticks > 0 ==> r > 0.0
    ensures r * 10000.0 == ticks as real
  {
    ticks as real / 10000.0
  }

  function FrameOf(region: FrameRegion): FrameResponse
  {
    FrameResponse(region.index, region.x, region.y, region.width, region.height)
  }

  /** The frame indices resolved through GetRegion, in order; the first index outside the sheet
      makes the whole mapping fail with GetRegion's error. */
  function Frames(l: SheetLayout, indices: seq<int>): (r: Result<seq<FrameResponse>, SpriteError>)
    requires ValidLayout(l)
    ensures r.Ok? <==> forall i | 0 <= i < |indices| :: 0 <= indices[i] < l.TotalFrames()
    ensures r.Ok? ==> |r.value| == |indices|
    ensures r.Ok? ==> forall i | 0 <= i < |indices| :: r.value[i] == FrameOf(GetRegion(l, indices[i]).value)
    ensures r.Err? ==> exists i | 0 <= i < |indices| :: GetRegion(l, indices[i]) == Err(r.error)
    decreases |indices|
  {
    if indices == [] then Ok([])
    else
      match GetRegion(l, indices[0])
      case Err(e) => Err(e)
      case Ok(region) =>
        match Frames(l, indices[1..])
        case Err(e) => Err(e)
        case Ok(rest) => Ok([FrameOf(region)] + rest)
  }

  /** Every resolved frame has the corner row-major addressing gives its index, the layout's
      frame size, and lies inside the sheet. */
  lemma FramesGeometry(l: SheetLayout, indices: seq<int>, i: int)
    requires ValidLayout(l) && Frames(l, indices).Ok? && 0 <= i < |indices|
    ensures var f := Frames(l, indices).value[i];
            var k := indices[i];
            f == FrameResponse(k, (k % l.columns) * l.frameWidth, (k / l.columns) * l.frameHeight, l.frameWidth, l.frameHeight)
            && f.x + f.width <= l.columns * l.frameWidth && f.y + f.height <= l.rows * l.frameHeight
  {
    GetRegionCorner(l, indices[i]);
    RegionInsideSheet(l, indices[i]);
  }

  /** One clip's response: name and loop copied, duration in milliseconds, frames resolved. */
  function AnimationOf(l: SheetLayout, clip: AnimationClip): (r: Result<AnimationResponse, SpriteError>)
    requires ValidLayout(l)
    ensures r.Ok? <==> Frames(l, clip.frames).Ok?
    ensures r.Ok? ==> r.value.name == clip.name && r.value.loop == clip.loop
                      && r.value.frameDurationMs == Milliseconds(clip.frameDuration)
                      && r.value.frames == Frames(l, clip.frames).value
  {
    match Frames(l, clip.frames)
    case Err(e) => Err(e)
    case Ok(frames) => Ok(AnimationResponse(clip.name, Milliseconds(clip.frameDuration), clip.loop, frames))
  }

  /** The clip responses in the given key order. */
  function Animations(l: SheetLayout, clips: map<string, AnimationClip>, order: seq<string>)
    : (r: Result<seq<AnimationResponse>, SpriteError>)
    requires ValidLayout(l)
    requires forall i | 0 <= i < |order| :: order[i] in clips
    ensures r.Ok? <==> forall i | 0 <= i < |order| :: AnimationOf(l, clips[order[i]]).Ok?
    ensures r.Ok? ==> |r.value| == |order|
    ensures r.Ok? ==> forall i | 0 <= i < |order| :: r.value[i] == AnimationOf(l, clips[order[i]]).value
    decreases |order|
  {
    if order == [] then Ok([])
    else
      match AnimationOf(l, clips[order[0]])
      case Err(e) => Err(e)
      case Ok(a) =>
        match Animations(l, clips, order[1..])
        case Err(e) => Err(e)
        case Ok(rest) => Ok([a] + rest)
  }

  /** The order lists every key exactly once: how a dictionary enumerates its keys. */
  predicate Enumerates(order: seq<string>, keys: set<string>)
  {
    (forall i | 0 <= i < |order| :: order[i] in keys)
    && (forall k | k in keys :: k in order)
    && (forall i, j | 0 <= i < j < |order| :: order[i] != order[j])
  }

  /** SpriteResponseFactory.Create. The definition's clips are enumerated in `order`, the
      order the immutable dictionary yields, which the source leaves open. */
  function Create(d: SpriteDefinition, order: seq<string>): (r: Result<DefinitionResponse, SpriteError>)
    requires ValidDefinition(d) && Enumerates(order, d.animations.Keys)
    ensures r.Ok? <==> forall c | c in d.animations.Values :: forall f | f in c.frames :: 0 <= f < d.layout.TotalFrames()
    ensures r.Ok? ==> r.value.spriteId == d.spriteId && r.value.assetPath == d.assetPath
                      && r.value.frameWidth == d.layout.frameWidth && r.value.frameHeight == d.layout.frameHeight
                      && r.value.defaultAnimation == d.defaultAnimation
                      && |r.value.animations| == |order|
                      && forall i | 0 <= i < |order| :: AnimationOf(d.layout, d.animations[order[i]]).Ok?
                           && r.value.animations[i] == AnimationOf(d.layout, d.animations[order[i]]).value
  {
    var built := Animations(d.layout, d.animations, order);
    CreateSucceeds(d, order);
    match built
    case Err(e) => Err(e)
    case Ok(animations) =>
      Ok(DefinitionResponse(d.spriteId, d.assetPath, d.layout.frameWidth, d.layout.frameHeight,
                            d.defaultAnimation, animations))
  }

  /** The mapping fails exactly when some clip refers to a frame outside the sheet. */
  lemma CreateSucceeds(d: SpriteDefinition, order: seq<string>)
    requires ValidDefinition(d) && Enumerates(order, d.animations.Keys)
    ensures Animations(d.layout, d.animations, order).Ok?
            <==> forall c | c in d.animations.Values :: forall f | f in c.frames :: 0 <= f < d.layout.TotalFrames()
  {
    var l := d.layout;
    if Animations(l, d.animations, order).Ok? {
      forall c | c in d.animations.Values
        ensures forall f | f in c.frames :: 0 <= f < l.TotalFrames()
      {
        var k :| k in d.animations && d.animations[k] == c;
        var i :| 0 <= i < |order| && order[i] == k;
        assert AnimationOf(l, d.animations[order[i]]).Ok?;
        forall f | f in c.frames
          ensures 0 <= f < l.TotalFrames()
        {
          var j :| 0 <= j < |c.frames| && c.frames[j] == f;
        }
      }
    } else {
      var i :| 0 <= i < |order| && !AnimationOf(l, d.animations[order[i]]).Ok?;
      var c := d.animations[order[i]];
      assert c in d.animations.Values;
      var j :| 0 <= j < |c.frames| && !(0 <= c.frames[j] < l.TotalFrames());
      assert c.frames[j] in c.frames;
    }
  }

  /** Each clip of the definition has exactly one response, at the position of its key. */
  lemma {:induction false} CreateOnePerClip(d: SpriteDefinition, order: seq<string>, key: string)
    requires ValidDefinition(d) && Enumerates(order, d.animations.Keys)
    requires Create(d, order).Ok? && key in d.animations
    ensures var animations := Create(d, order).value.animations;
            exists i | 0 <= i < |animations| :: order[i] == key && animations[i] == AnimationOf(d.layout, d.animations[key]).value
    ensures var animations := Create(d, order).value.animations;
            forall i | 0 <= i < |animations| :: EqualsIgnoreCase(animations[i].name, key) <==> order[i] == key
  {
    var animations := Create(d, order).value.animations;
    var i :| 0 <= i < |order| && order[i] == key;
    assert animations[i] == AnimationOf(d.layout, d.animations[key]).value;
    forall j | 0 <= j < |animations|
      ensures EqualsIgnoreCase(animations[j].name, key) <==> order[j] == key
    {
      assert animations[j].name == d.animations[order[j]].name;
      assert Fold(d.animations[order[j]].name) == order[j];
      FoldIdempotent(key);
      assert Fold(key) == key by {
        assert key == Fold(d.animations[key].name);
        FoldIdempotent(d.animations[key].name);
      }
    }
  }

  // ---------------------------------------------------------------- client: animation mapper

  datatype FrameDto = FrameDto(index: int, x: int, y: int, width: int, height: int)

  datatype AnimationDto = AnimationDto(name: string, frameDurationMs: real, loop: bool, frames: seq<FrameDto>)

  datatype DefinitionDto = DefinitionDto(
    spriteId: string, assetPath: string, frameWidth: int, frameHeight: int, defaultAnimation: string,
    animations: seq<AnimationDto>)

  datatype FrameDescriptor = FrameDescriptor(index: int, x: int, y: int, width: int, height: int)

  datatype AnimationDescriptor = AnimationDescriptor(
    spriteId: string, animation: string, imageUrl: string, frames: seq<FrameDescriptor>,
    frameDurationMs: real, loop: bool, accentColor: string)

  /** The position of the first animation whose name equals the given one ignoring case, or the
      length of the list when none does (`FirstOrDefault`). */
  function FirstNamed(animations: seq<AnimationDto>, name: string): (r: nat)
    ensures r <= |animations|
    ensures forall j | 0 <= j < r :: !EqualsIgnoreCase(animations[j].name, name)
    ensures r < |animations| ==> EqualsIgnoreCase(animations[r].name, name)
  {
    FirstMatching(animations, (x: AnimationDto) => x.name, name)
  }

  /** The search finds a position exactly when some animation carries the name. */
  lemma FirstNamedFound(animations: seq<AnimationDto>, name: string)
    ensures FirstNamed(animations, name) < |animations| <==> exists a | a in animations :: EqualsIgnoreCase(a.name, name)
  {
    var r := FirstNamed(animations, name);
    if r < |animations| {
      assert animations[r] in animations;
    }
  }

  /** When exactly one position matches, the search stops there. */
  lemma FirstNamedUnique(animations: seq<AnimationDto>, name: string, i: int)
    requires 0 <= i < |animations| && EqualsIgnoreCase(animations[i].name, name)
    requires forall j | 0 <= j < |animations| && j != i :: !EqualsIgnoreCase(animations[j].name, name)
    ensures FirstNamed(animations, name) == i
  {
  }

  /** The wire frames copied one-to-one into render frames. */
  function FramesOf(frames: seq<FrameDto>): (r: seq<FrameDescriptor>)
    ensures |r| == |frames|
    ensures forall i | 0 <= i < |frames| ::
              r[i].index == frames[i].index && r[i].x == frames[i].x && r[i].y == frames[i].y
              && r[i].width == frames[i].width && r[i].height == frames[i].height
  {
    seq(|frames|, i requires 0 <= i < |frames| =>
      FrameDescriptor(frames[i].index, frames[i].x, frames[i].y, frames[i].width, frames[i].height))
  }

  /** NormalizeAssetPath: blank becomes empty; a path starting with "http" in any case or with
      '/' is kept; anything else is rooted with a leading '/'. */
  function NormalizeAssetPath(path: string): (r: string)
    ensures IsBlank(path) ==> r == ""
    ensures !IsBlank(path) && (StartsWithIgnoreCase(path, "http") || path[0] == '/') ==> r == path
    ensures !IsBlank(path) && !StartsWithIgnoreCase(path, "http") && path[0] != '/' ==> r == "/" + path
    ensures r == "" || StartsWithIgnoreCase(r, "http") || r[0] == '/'
  {
    if IsBlank(path) then ""
    else if StartsWithIgnoreCase(path, "http") then path
    else if path[0] == '/' then path
    else "/" + path
  }

  /** Normalising a normalised path changes nothing. */
  lemma NormalizeAssetPathIdempotent(path: string)
    ensures NormalizeAssetPath(NormalizeAssetPath(path)) == NormalizeAssetPath(path)
  {
    var r := NormalizeAssetPath(path);
    if r != "" {
      assert !IsWhiteSpace(r[0]) by {
        if !StartsWithIgnoreCase(r, "http") {
          assert r[0] == '/';
        } else {
          assert Fold(r[..4]) == Fold("http");
          assert Fold(r[..4])[0] == Upper(r[0]);
        }
      }
      assert !IsBlank(r);
    }
  }

  /** The descriptor built from an animation of the definition. */
  function DescriptorOf(definition: DefinitionDto, a: AnimationDto, accentColor: string): AnimationDescriptor
  {
    AnimationDescriptor(definition.spriteId, a.name, NormalizeAssetPath(definition.assetPath), FramesOf(a.frames),
                        a.frameDurationMs, a.loop, accentColor)
  }

  /** CreateDescriptor: nothing for a missing definition; otherwise the first animation named
      `animationName` ignoring case, failing that the first named after the default
      animation, failing that nothing. */
  function CreateDescriptor(definition: Option<DefinitionDto>, animationName: string, accentColor: string)
    : (r: Option<AnimationDescriptor>)
    ensures definition.None? ==> r.None?
    ensures r.Some? ==> definition.Some?
                        && r.value.spriteId == definition.value.spriteId
                        && r.value.imageUrl == NormalizeAssetPath(definition.value.assetPath)
                        && r.value.accentColor == accentColor
                        && (EqualsIgnoreCase(r.value.animation, animationName)
                            || EqualsIgnoreCase(r.value.animation, definition.value.defaultAnimation))
  {
    match definition
    case None => None
    case Some(d) =>
      var wanted := FirstNamed(d.animations, animationName);
      if wanted < |d.animations| then Some(DescriptorOf(d, d.animations[wanted], accentColor))
      else
        var fallback := FirstNamed(d.animations, d.defaultAnimation);
        if fallback < |d.animations| then Some(DescriptorOf(d, d.animations[fallback], accentColor))
        else None
  }

  /** Which animation is picked: the requested one when some animation carries its name, else
      the default one, else none; the frames are those of the picked animation, one-to-one. */
  lemma CreateDescriptorPicks(d: DefinitionDto, animationName: string, accentColor: string)
    ensures var r := CreateDescriptor(Some(d), animationName, accentColor);
            ((exists a | a in d.animations :: EqualsIgnoreCase(a.name, animationName))
              ==> r == Some(DescriptorOf(d, d.animations[FirstNamed(d.animations, animationName)], accentColor)))
            && ((forall a | a in d.animations :: !EqualsIgnoreCase(a.name, animationName))
                && (exists a | a in d.animations :: EqualsIgnoreCase(a.name, d.defaultAnimation))
                ==> r == Some(DescriptorOf(d, d.animations[FirstNamed(d.animations, d.defaultAnimation)], accentColor)))
            && ((forall a | a in d.animations :: !EqualsIgnoreCase(a.name, animationName)
                                                 && !EqualsIgnoreCase(a.name, d.defaultAnimation))
                ==> r.None?)
  {
    FirstNamedFound(d.animations, animationName);
    FirstNamedFound(d.animations, d.defaultAnimation);
  }

  // ---------------------------------------------------------------- server to client

  /** The response as the client reads it back: the wire names of both sides agree field by
      field. */
  function Transmit(resp: DefinitionResponse): DefinitionDto
  {
    DefinitionDto(resp.spriteId, resp.assetPath, resp.frameWidth, resp.frameHeight, resp.defaultAnimation,
                  seq(|resp.animations|, i requires 0 <= i < |resp.animations| => TransmitAnimation(resp.animations[i])))
  }

  function TransmitAnimation(a: AnimationResponse): AnimationDto
  {
    AnimationDto(a.name, a.frameDurationMs, a.loop,
                 seq(|a.frames|, j requires 0 <= j < |a.frames| =>
                   FrameDto(a.frames[j].index, a.frames[j].x, a.frames[j].y, a.frames[j].width, a.frames[j].height)))
  }

  /** The resolved frames of a clip as render frames. */
  function Rendered(frames: seq<FrameResponse>): seq<FrameDescriptor>
  {
    seq(|frames|, i requires 0 <= i < |frames| =>
      FrameDescriptor(frames[i].index, frames[i].x, frames[i].y, frames[i].width, frames[i].height))
  }

  /** In a served definition, the search for a name that some clip carries stops at that
      clip's position. */
  lemma ServedFinds(d: SpriteDefinition, order: seq<string>, wanted: string, i: int)
    requires ValidDefinition(d) && Enumerates(order, d.animations.Keys) && Create(d, order).Ok?
    requires 0 <= i < |order| && order[i] == Fold(wanted)
    ensures FirstNamed(Transmit(Create(d, order).value).animations, wanted) == i
  {
    var resp := Create(d, order).value;
    var dto := Transmit(resp);
    CreateOnePerClip(d, order, Fold(wanted));
    FoldIdempotent(wanted);
    forall j | 0 <= j < |dto.animations|
      ensures EqualsIgnoreCase(dto.animations[j].name, wanted) <==> j == i
    {
      assert dto.animations[j].name == resp.animations[j].name;
      assert EqualsIgnoreCase(resp.animations[j].name, Fold(wanted)) <==> order[j] == order[i];
      assert order[j] == order[i] <==> j == i;
    }
    FirstNamedUnique(dto.animations, wanted, i);
  }

  /** In a served definition, the search for a name no clip carries finds nothing. */
  lemma ServedMisses(d: SpriteDefinition, order: seq<string>, name: string)
    requires ValidDefinition(d) && Enumerates(order, d.animations.Keys) && Create(d, order).Ok?
    requires Fold(name) !in d.animations
    ensures FirstNamed(Transmit(Create(d, order).value).animations, name) == |order|
  {
    var resp := Create(d, order).value;
    var dto := Transmit(resp);
    forall j | 0 <= j < |dto.animations|
      ensures !EqualsIgnoreCase(dto.animations[j].name, name)
    {
      assert dto.animations[j].name == d.animations[order[j]].name;
      assert Fold(d.animations[order[j]].name) == order[j];
    }
    FirstNamedFound(dto.animations, name);
  }

  /** The descriptor of a transmitted clip carries the clip's frames as render frames. */
  lemma TransmittedClip(dto: DefinitionDto, a: AnimationResponse, accentColor: string)
    ensures DescriptorOf(dto, TransmitAnimation(a), accentColor)
            == AnimationDescriptor(dto.spriteId, a.name, NormalizeAssetPath(dto.assetPath), Rendered(a.frames),
                                   a.frameDurationMs, a.loop, accentColor)
  {
    assert FramesOf(TransmitAnimation(a).frames) == Rendered(a.frames);
  }

  /** The descriptor is built from the position where the search by name, or failing that the
      search by the default name, stops. */
  lemma DescriptorAt(dto: DefinitionDto, name: string, accentColor: string, i: int)
    requires 0 <= i < |dto.animations|
    requires FirstNamed(dto.animations, name) == i
             || (FirstNamed(dto.animations, name) == |dto.animations| && FirstNamed(dto.animations, dto.defaultAnimation) == i)
    ensures CreateDescriptor(Some(dto), name, accentColor) == Some(DescriptorOf(dto, dto.animations[i], accentColor))
  {
  }

  /** The clip the client renders from a served definition is the one TryGetAnimation finds for
      the requested name, or else the default clip, with its frames resolved on the sheet. */
  lemma ServedDescriptor(d: SpriteDefinition, order: seq<string>, name: string, accentColor: string)
    requires ValidDefinition(d) && Enumerates(order, d.animations.Keys) && Create(d, order).Ok?
    ensures var c := if TryGetAnimation(d, name).Some? then TryGetAnimation(d, name).value
                     else d.animations[Fold(d.defaultAnimation)];
            Frames(d.layout, c.frames).Ok?
            && CreateDescriptor(Some(Transmit(Create(d, order).value)), name, accentColor)
               == Some(AnimationDescriptor(d.spriteId, c.name, NormalizeAssetPath(d.assetPath),
                                           Rendered(Frames(d.layout, c.frames).value),
                                           Milliseconds(c.frameDuration), c.loop, accentColor))
  {
    var resp := Create(d, order).value;
    var dto := Transmit(resp);
    var wanted := if Fold(name) in d.animations then name else d.defaultAnimation;
    var i :| 0 <= i < |order| && order[i] == Fold(wanted);
    ServedFinds(d, order, wanted, i);
    if Fold(name) !in d.animations {
      ServedMisses(d, order, name);
    }
    DescriptorAt(dto, name, accentColor, i);
    var c := d.animations[Fold(wanted)];
    var a := AnimationOf(d.layout, c).value;
    assert dto.animations[i] == TransmitAnimation(a);
    TransmittedClip(dto, a, accentColor);
  }
}

/** The asset manifest: asset records keyed case-insensitively by id, the last registration
    of an id winning, and the lookup by tag. */
module Assets {
  import opened Wrappers
  import opened Text
  import opened Sorting

  datatype AssetRecord = AssetRecord(
    id: string, assetType: string, path: string, width: int, height: int, hash: string, tags: seq<string>)

  datatype AssetError = BlankArgument(parameter: string) | NonPositiveDimensions

  /** What Register checks before it stores a record. */
  predicate ValidAsset(a: AssetRecord)
  {
    !IsBlank(a.id) && !IsBlank(a.assetType) && !IsBlank(a.path) && a.width > 0 && a.height > 0
  }

  /** The asset lists the tag, compared ignoring case. */
  predicate HasTag(a: AssetRecord, tag: string)
  {
    exists t :: t in a.tags && EqualsIgnoreCase(t, tag)
  }

  /** Every stored record sits under its own folded id and passed the checks. */
  ghost predicate Filed(assets: map<string, AssetRecord>)
  {
    forall k | k in assets :: k == Fold(assets[k].id) && ValidAsset(assets[k])
  }

  class AssetManifest {
    var assets: map<string, AssetRecord>

    ghost predicate Valid()
      reads this
    {
      Filed(assets)
    }

    constructor()
      ensures Valid() && assets == map[]
    {
      assets := map[];
    }

    /** Register: checks the arguments, then stores the record under its id, replacing any
        record with that id ignoring case. The content hash is a parameter. */
    method Register(id: string, assetType: string, path: string, width: int, height: int, hash: string,
                    tags: seq<string>)
      returns (r: Result<AssetRecord, AssetError>)
      requires Valid()
      modifies this
      ensures Valid()
      ensures IsBlank(id) ==> r == Err(BlankArgument("id"))
      ensures !IsBlank(id) && IsBlank(assetType) ==> r == Err(BlankArgument("type"))
      ensures !IsBlank(id) && !IsBlank(assetType) && IsBlank(path) ==> r == Err(BlankArgument("path"))
      ensures !IsBlank(id) && !IsBlank(assetType) && !IsBlank(path) && (width <= 0 || height <= 0) ==>
                r == Err(NonPositiveDimensions)
      ensures r.Ok? <==> !IsBlank(id) && !IsBlank(assetType) && !IsBlank(path) && width > 0 && height > 0
      ensures r.Ok? ==> r.value == AssetRecord(id, assetType, path, width, height, hash, tags)
                        && assets == old(assets)[Fold(id) := r.value]
      ensures r.Err? ==> assets == old(assets)
    {
      if IsBlank(id) {
        return Err(BlankArgument("id"));
      }
      if IsBlank(assetType) {
        return Err(BlankArgument("type"));
      }
      if IsBlank(path) {
        return Err(BlankArgument("path"));
      }
      if width <= 0 || height <= 0 {
        return Err(NonPositiveDimensions);
      }
      var record := AssetRecord(id, assetType, path, width, height, hash, tags);
      assets := assets[Fold(id) := record];
      r := Ok(record);
    }

    /** TryGet: the record registered under the id, ignoring case. */
    function TryGet(id: string): (r: Option<AssetRecord>)
      reads this
      ensures r.Some? <==> exists k :: k in assets && k == Fold(id)
      ensures r.Some? ==> r.value == assets[Fold(id)]
    {
      if Fold(id) in assets then Some(assets[Fold(id)]) else None
    }

    /** A stored record is valid and carries an id equal to the one it was looked up by,
        ignoring case. */
    lemma TryGetFiled(id: string)
      requires Valid()
      ensures TryGet(id).Some? ==> ValidAsset(TryGet(id).value) && EqualsIgnoreCase(TryGet(id).value.id, id)
    {
    }

    /** FindByTag: the stored records that list the tag, taken from the values in the
        dictionary's enumeration order (which the source leaves open), each once. */
    method FindByTag(tag: string) returns (r: seq<AssetRecord>)
      requires Valid()
      ensures forall a :: a in r <==> a in assets.Values && HasTag(a, tag)
      ensures forall i, j | 0 <= i < j < |r| :: r[i] != r[j]
      ensures |r| <= |assets|
    {
      r := TaggedValues(assets, tag);
    }
  }

  /** FindByTag over the dictionary itself. */
  method TaggedValues(assets: map<string, AssetRecord>, tag: string) returns (r: seq<AssetRecord>)
    requires Filed(assets)
    ensures forall a :: a in r <==> a in assets.Values && HasTag(a, tag)
    ensures forall i, j | 0 <= i < j < |r| :: r[i] != r[j]
    ensures |r| <= |assets|
  {
    var order := Enumerate(assets.Keys);
    r := Filter(InOrder(assets, order), Tagged(tag));
    OrderedValuesComplete(assets, order, tag, r);
    OrderedValuesDistinct(assets, order, tag, r);
  }

  /** The tag test FindByTag filters by. */
  function Tagged(tag: string): AssetRecord -> bool
  {
    a => HasTag(a, tag)
  }

  /** Two entries of a result are different records. */
  function Differ(a: AssetRecord, b: AssetRecord): bool
  {
    a != b
  }

  /** The dictionary's values, in the order its keys are enumerated. */
  function InOrder(assets: map<string, AssetRecord>, order: seq<string>): (r: seq<AssetRecord>)
    requires forall k :: k in order ==> k in assets
    ensures |r| == |order| && forall i | 0 <= i < |order| :: r[i] == assets[order[i]]
  {
    seq(|order|, i requires 0 <= i < |order| => assets[order[i]])
  }

  /** The tag filter over the listed values keeps exactly the tagged stored records, and
      no more of them than there are keys. */
  lemma OrderedValuesComplete(assets: map<string, AssetRecord>, order: seq<string>, tag: string, r: seq<AssetRecord>)
    requires |order| == |assets.Keys| && forall k :: k in order <==> k in assets
    requires r == Filter(InOrder(assets, order), Tagged(tag))
    ensures forall a :: a in r <==> a in assets.Values && HasTag(a, tag)
    ensures |r| <= |assets|
  {
    var values := InOrder(assets, order);
    forall a | a in assets.Values && HasTag(a, tag) ensures a in r {
      var k :| k in assets && assets[k] == a;
      var i :| 0 <= i < |order| && order[i] == k;
      assert values[i] == a && Tagged(tag)(values[i]);
    }
    assert |assets.Keys| == |assets|;
  }

  /** Records filed under different keys are different records, so the values listed in a
      repeat-free key order, and any filtering of them, repeat nothing either. */
  lemma OrderedValuesDistinct(assets: map<string, AssetRecord>, order: seq<string>, tag: string, r: seq<AssetRecord>)
    requires Filed(assets) && forall k :: k in order ==> k in assets
    requires forall i, j | 0 <= i < j < |order| :: order[i] != order[j]
    requires r == Filter(InOrder(assets, order), Tagged(tag))
    ensures forall i, j | 0 <= i < j < |r| :: r[i] != r[j]
  {
    var values := InOrder(assets, order);
    forall i, j | 0 <= i < j < |values| ensures Differ(values[i], values[j]) {
      assert Fold(values[i].id) == order[i] && Fold(values[j].id) == order[j];
    }
    FilterPairwise(values, Tagged(tag), Differ);
    forall i, j | 0 <= i < j < |r| ensures r[i] != r[j] {
      assert Differ(r[i], r[j]);
    }
  }

  /** Registering and then looking up the same id, in any letter case, finds the new record;
      other ids see what they saw before. */
  lemma RegisterThenTryGet(before: map<string, AssetRecord>, record: AssetRecord, id: string)
    ensures var after := before[Fold(record.id) := record];
            (EqualsIgnoreCase(id, record.id) ==> Fold(id) in after && after[Fold(id)] == record)
            && (!EqualsIgnoreCase(id, record.id) ==>
                  (Fold(id) in after <==> Fold(id) in before) && (Fold(id) in before ==> after[Fold(id)] == before[Fold(id)]))
  {
  }
}

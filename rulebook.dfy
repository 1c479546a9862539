/** The account rulebook: the limits and starting values new universes and characters get,
    held as one immutable snapshot that each setter replaces. */
module Rulebook {
  import opened Wrappers
  import opened Text
  import opened Numeric
  import opened Wallet

  const MinLimit: int := 1
  const MaxLimit: int := 12

  /** The nine equipment slots; an empty slot is None. */
  datatype EquipmentSlots = EquipmentSlots(
    head: Option<string>, cape: Option<string>, neck: Option<string>,
    weapon: Option<string>, shield: Option<string>, body: Option<string>,
    legs: Option<string>, feet: Option<string>, hands: Option<string>)

  datatype RulebookSnapshot = RulebookSnapshot(
    maxAccountsPerUser: int,
    maxProfilesPerAccount: int,
    defaultBaseCurrency: int,
    defaultPremiumCurrency: int,
    starterEquipment: EquipmentSlots,
    defaultSpriteAssetId: string)

  const StarterEquipment := EquipmentSlots(
    Some("ember_visor"), Some("aurora_cape"), Some("starforged_pendant"),
    Some("ember_blade"), Some("lumen_barrier"), Some("solstice_jacket"),
    Some("wayfarer_wrap"), Some("glowstep_boots"), Some("ember_grips"))

  /** What every snapshot the rulebook can hold satisfies: both limits in [1, 12], both
      default currencies within their balance bounds, and a default sprite that is not blank. */
  predicate InRange(s: RulebookSnapshot)
  {
    MinLimit <= s.maxAccountsPerUser <= MaxLimit
    && MinLimit <= s.maxProfilesPerAccount <= MaxLimit
    && 0 <= s.defaultBaseCurrency <= MaxBaseCurrency
    && 0 <= s.defaultPremiumCurrency <= MaxPremiumCurrency
    && !IsBlank(s.defaultSpriteAssetId)
  }

  /** The rules a fresh rulebook starts from. */
  function CreateDefault(): (r: RulebookSnapshot)
    ensures r.maxAccountsPerUser == 3 && r.maxProfilesPerAccount == 4
    ensures r.defaultBaseCurrency == 1_250 && r.defaultPremiumCurrency == 60
    ensures r.starterEquipment == StarterEquipment
    ensures r.defaultSpriteAssetId == "avatars/ember-nomad"
  {
    RulebookSnapshot(3, 4, 1_250, 60, StarterEquipment, "avatars/ember-nomad")
  }

  lemma DefaultInRange()
    ensures InRange(CreateDefault())
  {
    assert !IsWhiteSpace(CreateDefault().defaultSpriteAssetId[0]);
  }

  /** The SetMaxAccounts mutator: the limit clamped into [1, 12], nothing else touched. */
  function WithMaxAccounts(s: RulebookSnapshot, value: int): (r: RulebookSnapshot)
    ensures MinLimit <= r.maxAccountsPerUser <= MaxLimit
    ensures MinLimit <= value <= MaxLimit ==> r.maxAccountsPerUser == value
    ensures value < MinLimit ==> r.maxAccountsPerUser == MinLimit
    ensures value > MaxLimit ==> r.maxAccountsPerUser == MaxLimit
    ensures r.(maxAccountsPerUser := s.maxAccountsPerUser) == s
  {
    s.(maxAccountsPerUser := ClampInt(value, MinLimit, MaxLimit))
  }

  /** The SetMaxProfiles mutator: the limit clamped into [1, 12], nothing else touched. */
  function WithMaxProfiles(s: RulebookSnapshot, value: int): (r: RulebookSnapshot)
    ensures MinLimit <= r.maxProfilesPerAccount <= MaxLimit
    ensures MinLimit <= value <= MaxLimit ==> r.maxProfilesPerAccount == value
    ensures value < MinLimit ==> r.maxProfilesPerAccount == MinLimit
    ensures value > MaxLimit ==> r.maxProfilesPerAccount == MaxLimit
    ensures r.(maxProfilesPerAccount := s.maxProfilesPerAccount) == s
  {
    s.(maxProfilesPerAccount := ClampInt(value, MinLimit, MaxLimit))
  }

  /** The SetDefaultBaseCurrency mutator: clamped into [0, 10 000 000 000]. */
  function WithDefaultBaseCurrency(s: RulebookSnapshot, value: int): (r: RulebookSnapshot)
    ensures 0 <= r.defaultBaseCurrency <= MaxBaseCurrency
    ensures 0 <= value <= MaxBaseCurrency ==> r.defaultBaseCurrency == value
    ensures value < 0 ==> r.defaultBaseCurrency == 0
    ensures value > MaxBaseCurrency ==> r.defaultBaseCurrency == MaxBaseCurrency
    ensures r.(defaultBaseCurrency := s.defaultBaseCurrency) == s
  {
    s.(defaultBaseCurrency := ClampInt(value, 0, MaxBaseCurrency))
  }

  /** The SetDefaultPremiumCurrency mutator: clamped into [0, 1 000 000 000]. */
  function WithDefaultPremiumCurrency(s: RulebookSnapshot, value: int): (r: RulebookSnapshot)
    ensures 0 <= r.defaultPremiumCurrency <= MaxPremiumCurrency
    ensures 0 <= value <= MaxPremiumCurrency ==> r.defaultPremiumCurrency == value
    ensures value < 0 ==> r.defaultPremiumCurrency == 0
    ensures value > MaxPremiumCurrency ==> r.defaultPremiumCurrency == MaxPremiumCurrency
    ensures r.(defaultPremiumCurrency := s.defaultPremiumCurrency) == s
  {
    s.(defaultPremiumCurrency := ClampInt(value, 0, MaxPremiumCurrency))
  }

  /** The SetDefaultSprite mutator: a blank id keeps the current sprite. */
  function WithDefaultSprite(s: RulebookSnapshot, spriteId: string): (r: RulebookSnapshot)
    ensures IsBlank(spriteId) ==> r == s
    ensures !IsBlank(spriteId) ==> r.defaultSpriteAssetId == spriteId
    ensures r.(defaultSpriteAssetId := s.defaultSpriteAssetId) == s
  {
    s.(defaultSpriteAssetId := if IsBlank(spriteId) then s.defaultSpriteAssetId else spriteId)
  }

  /** The SetStarterEquipment mutator. */
  function WithStarterEquipment(s: RulebookSnapshot, slots: EquipmentSlots): (r: RulebookSnapshot)
    ensures r.starterEquipment == slots
    ensures r.(starterEquipment := s.starterEquipment) == s
  {
    s.(starterEquipment := slots)
  }

  /** Every mutator keeps a snapshot in range. */
  lemma MutatorsKeepRange(s: RulebookSnapshot, n: int, sprite: string, slots: EquipmentSlots)
    requires InRange(s)
    ensures InRange(WithMaxAccounts(s, n)) && InRange(WithMaxProfiles(s, n))
    ensures InRange(WithDefaultBaseCurrency(s, n)) && InRange(WithDefaultPremiumCurrency(s, n))
    ensures InRange(WithDefaultSprite(s, sprite)) && InRange(WithStarterEquipment(s, slots))
  {
  }

  /** The rulebook object: readers take the current snapshot, each setter swaps in the
      mutated copy. */
  class AccountRulebook {
    var snapshot: RulebookSnapshot

    ghost predicate Valid()
      reads this
    {
      InRange(snapshot)
    }

    constructor()
      ensures Valid() && snapshot == CreateDefault()
    {
      snapshot := CreateDefault();
      DefaultInRange();
    }

    method SetMaxAccounts(value: int)
      requires Valid()
      modifies this
      ensures Valid() && snapshot == WithMaxAccounts(old(snapshot), value)
    {
      snapshot := WithMaxAccounts(snapshot, value);
    }

    method SetMaxProfiles(value: int)
      requires Valid()
      modifies this
      ensures Valid() && snapshot == WithMaxProfiles(old(snapshot), value)
    {
      snapshot := WithMaxProfiles(snapshot, value);
    }

    method SetDefaultBaseCurrency(value: int)
      requires Valid()
      modifies this
      ensures Valid() && snapshot == WithDefaultBaseCurrency(old(snapshot), value)
    {
      snapshot := WithDefaultBaseCurrency(snapshot, value);
    }

    method SetDefaultPremiumCurrency(value: int)
      requires Valid()
      modifies this
      ensures Valid() && snapshot == WithDefaultPremiumCurrency(old(snapshot), value)
    {
      snapshot := WithDefaultPremiumCurrency(snapshot, value);
    }

    method SetDefaultSprite(spriteId: string)
      requires Valid()
      modifies this
      ensures Valid() && snapshot == WithDefaultSprite(old(snapshot), spriteId)
    {
      snapshot := WithDefaultSprite(snapshot, spriteId);
    }

    method SetStarterEquipment(slots: EquipmentSlots)
      requires Valid()
      modifies this
      ensures Valid() && snapshot == WithStarterEquipment(old(snapshot), slots)
    {
      snapshot := WithStarterEquipment(snapshot, slots);
    }
  }
}

/** The developer profile store: scratch state and saved inspector layouts per developer id,
    keyed ignoring case. Only the in-memory dictionary is modelled; the JSON file it mirrors
    is not. */
module DeveloperProfiles {
  import opened Wrappers
  import opened Text
  import opened Sorting

  /** `lastUpdated` is the clock reading, in ticks, when the profile was written. */
  datatype DeveloperProfile = DeveloperProfile(id: string, lastUpdated: int, state: map<string, string>)

  /** A blank id is an ArgumentException in the source. */
  datatype ProfileError = BlankId

  /** The order List returns: the most recently updated first. */
  predicate NewerFirst(a: DeveloperProfile, b: DeveloperProfile)
  {
    a.lastUpdated >= b.lastUpdated
  }

  lemma NewerFirstIsPreorder()
    ensures TotalPreorder(NewerFirst)
  {
  }

  /** Every stored profile sits under its own folded id, and no id is blank. */
  ghost predicate Filed(profiles: map<string, DeveloperProfile>)
  {
    forall k | k in profiles :: k == Fold(profiles[k].id) && !IsBlank(profiles[k].id)
  }

  class DeveloperProfileStore {
    var profiles: map<string, DeveloperProfile>

    ghost predicate Valid()
      reads this
    {
      Filed(profiles)
    }

    /** A store without a storage path starts empty. */
    constructor()
      ensures Valid() && profiles == map[]
    {
      profiles := map[];
    }

    /** GetOrCreate: a blank id is rejected; otherwise the profile stored under the id,
        ignoring case, or, when there is none, a fresh empty profile stamped `now`, which is
        stored. Either way the result is what the store now holds for the id. */
    method GetOrCreate(id: string, now: int) returns (r: Result<DeveloperProfile, ProfileError>)
      requires Valid()
      modifies this
      ensures Valid()
      ensures IsBlank(id) ==> r == Err(BlankId) && profiles == old(profiles)
      ensures !IsBlank(id) && Fold(id) in old(profiles) ==>
                r == Ok(old(profiles)[Fold(id)]) && profiles == old(profiles)
      ensures !IsBlank(id) && Fold(id) !in old(profiles) ==>
                r == Ok(DeveloperProfile(id, now, map[])) && profiles == old(profiles)[Fold(id) := r.value]
      ensures r.Ok? ==> Find(id) == Some(r.value) && EqualsIgnoreCase(r.value.id, id)
    {
      if IsBlank(id) {
        return Err(BlankId);
      }
      if Fold(id) !in profiles {
        profiles := profiles[Fold(id) := DeveloperProfile(id, now, map[])];
      }
      r := Ok(profiles[Fold(id)]);
    }

    /** Upsert: a blank id is rejected; otherwise the profile is replaced by one holding a
        copy of `state`, stamped `now`, and that profile is returned. */
    method Upsert(id: string, state: map<string, string>, now: int) returns (r: Result<DeveloperProfile, ProfileError>)
      requires Valid()
      modifies this
      ensures Valid()
      ensures IsBlank(id) ==> r == Err(BlankId) && profiles == old(profiles)
      ensures !IsBlank(id) ==>
                r == Ok(DeveloperProfile(id, now, state)) && profiles == old(profiles)[Fold(id) := r.value]
      ensures r.Ok? ==> Find(id) == Some(r.value)
    {
      if IsBlank(id) {
        return Err(BlankId);
      }
      var profile := DeveloperProfile(id, now, state);
      profiles := profiles[Fold(id) := profile];
      r := Ok(profile);
    }

    /** TryDelete: true exactly when a profile was stored under the id, ignoring case; that
        profile is removed. The id is not checked, but a blank one is never found. */
    method TryDelete(id: string) returns (removed: bool)
      requires Valid()
      modifies this
      ensures Valid()
      ensures removed <==> Fold(id) in old(profiles)
      ensures profiles == old(profiles) - {Fold(id)}
      ensures IsBlank(id) ==> !removed
      ensures Find(id) == None
    {
      removed := Fold(id) in profiles;
      if removed && IsBlank(id) {
        FoldKeepsBlank(id);
        FoldKeepsBlank(profiles[Fold(id)].id);
      }
      profiles := profiles - {Fold(id)};
    }

    /** Clear: nothing is stored afterwards. */
    method Clear()
      requires Valid()
      modifies this
      ensures Valid() && profiles == map[]
    {
      profiles := map[];
    }

    /** The profile stored under the id, ignoring case. */
    function Find(id: string): (r: Option<DeveloperProfile>)
      reads this
      ensures r.Some? <==> Fold(id) in profiles
      ensures r.Some? && Valid() ==> EqualsIgnoreCase(r.value.id, id) && !IsBlank(r.value.id)
    {
      if Fold(id) in profiles then Some(profiles[Fold(id)]) else None
    }

    /** List: every stored profile exactly once, the most recently updated first. */
    method List() returns (r: seq<DeveloperProfile>)
      requires Valid()
      ensures Sorted(r, NewerFirst)
      ensures |r| == |profiles|
      ensures forall p :: p in r <==> p in profiles.Values
      ensures forall p | p in r :: Find(p.id) == Some(p)
    {
      NewerFirstIsPreorder();
      r := SortedValues(profiles, NewerFirst);
    }
  }
}

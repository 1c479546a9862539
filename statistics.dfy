/** The statistics service: the registry of skills, one progress record per skill, the active
    skill, and the currency an active skill accrues on every engine tick. Durations are ticks of
    100 ns; the level curve is a parameter. */
module Statistics {
  import opened Wrappers
  import opened Text
  import opened Sorting

  const TicksPerSecond: int := 10_000_000

  datatype SkillDefinition = SkillDefinition(
    id: string, name: string, description: string, currencyPerSecond: real, defaultAnimation: string,
    accentColor: string)

  datatype StatisticsError =
    | BlankArgument(parameter: string)
    | NonPositiveRate
    | AlreadyRegistered(id: string)
    | NotRegistered(id: string)

  datatype SkillProgressSnapshot = SkillProgressSnapshot(skillId: string, experience: real, level: int, bankedCurrency: real)

  datatype SkillStateSnapshot = SkillStateSnapshot(activeSkillId: string, totalCurrency: real, skills: seq<SkillProgressSnapshot>)

  datatype StatisticValue = StatisticValue(level: int, experience: real, bankedCurrency: real, currencyPerSecond: real)

  datatype StatisticEntry = StatisticEntry(
    entryId: string, name: string, description: string, kind: string, value: StatisticValue, accentColor: string,
    defaultAnimation: string, isActive: bool)

  datatype StatisticCategory = StatisticCategory(categoryId: string, name: string, entries: seq<StatisticEntry>)

  datatype StatisticNamespace = StatisticNamespace(namespaceId: string, name: string, categories: seq<StatisticCategory>)

  datatype StatisticsSnapshot = StatisticsSnapshot(
    activeSkillId: string, totalSkillCurrency: real, namespaces: seq<StatisticNamespace>)

  /** The order OrderBy(def => def.Name) puts skill definitions in. */
  predicate NameLe(a: SkillDefinition, b: SkillDefinition)
  {
    OrdinalLe(a.name, b.name)
  }

  /** The order of the progress listing: skill ids compared ignoring case. */
  predicate SkillIdLe(a: SkillProgressSnapshot, b: SkillProgressSnapshot)
  {
    OrdinalLe(Fold(a.skillId), Fold(b.skillId))
  }

  lemma OrdersArePreorders()
    ensures TotalPreorder(NameLe) && TotalPreorder(SkillIdLe)
  {
    OrdinalLeTotalOrder();
  }

  /** One skill's accumulated progress; the service updates it in place. */
  class SkillProgressState {
    const skillId: string
    var experience: real
    var currency: real

    constructor(skillId: string)
      ensures this.skillId == skillId && experience == 0.0 && currency == 0.0
    {
      this.skillId := skillId;
      experience := 0.0;
      currency := 0.0;
    }

    /** Grant: experience and banked currency both rise by the amount. */
    method Grant(amount: real)
      modifies this
      ensures experience == old(experience) + amount && currency == old(currency) + amount
    {
      experience := experience + amount;
      currency := currency + amount;
    }

    /** ToSnapshot: the record's values, with the level the curve gives for the experience. */
    function ToSnapshot(level: real -> int): (r: SkillProgressSnapshot)
      reads this
      ensures r.skillId == skillId && r.experience == experience && r.bankedCurrency == currency
      ensures r.level == level(experience)
    {
      SkillProgressSnapshot(skillId, experience, level(experience), currency)
    }
  }

  /** The position of the first progress snapshot for the skill id, ignoring case, or the
      length of the list when there is none. */
  function FirstProgress(skills: seq<SkillProgressSnapshot>, id: string): (r: nat)
    ensures r <= |skills|
    ensures forall j | 0 <= j < r :: !EqualsIgnoreCase(skills[j].skillId, id)
    ensures r < |skills| ==> EqualsIgnoreCase(skills[r].skillId, id)
  {
    FirstMatching(skills, (x: SkillProgressSnapshot) => x.skillId, id)
  }

  /** BuildStatisticEntry: the definition's fields, the progress found for its id (level 1 and
      zero amounts when there is none), and whether it is the active skill, ignoring case. */
  function BuildStatisticEntry(definition: SkillDefinition, state: SkillStateSnapshot): (r: StatisticEntry)
    ensures r.entryId == definition.id && r.name == definition.name && r.description == definition.description
            && r.kind == "skill" && r.accentColor == definition.accentColor
            && r.defaultAnimation == definition.defaultAnimation
    ensures r.isActive <==> EqualsIgnoreCase(state.activeSkillId, definition.id)
    ensures r.value.currencyPerSecond == definition.currencyPerSecond
    ensures (forall p | p in state.skills :: !EqualsIgnoreCase(p.skillId, definition.id)) ==>
              r.value == StatisticValue(1, 0.0, 0.0, definition.currencyPerSecond)
  {
    var i := FirstProgress(state.skills, definition.id);
    var value := if i < |state.skills| then
                   StatisticValue(state.skills[i].level, state.skills[i].experience, state.skills[i].bankedCurrency,
                                  definition.currencyPerSecond)
                 else StatisticValue(1, 0.0, 0.0, definition.currencyPerSecond);
    StatisticEntry(definition.id, definition.name, definition.description, "skill", value, definition.accentColor,
                   definition.defaultAnimation, EqualsIgnoreCase(state.activeSkillId, definition.id))
  }

  /** When every progress snapshot carrying the definition's id, ignoring case, is the same
      one, the entry shows that snapshot's figures. */
  lemma BuildStatisticEntryFinds(definition: SkillDefinition, state: SkillStateSnapshot, p: SkillProgressSnapshot)
    requires p in state.skills && EqualsIgnoreCase(p.skillId, definition.id)
    requires forall s | s in state.skills && EqualsIgnoreCase(s.skillId, definition.id) :: s == p
    ensures BuildStatisticEntry(definition, state).value
            == StatisticValue(p.level, p.experience, p.bankedCurrency, definition.currencyPerSecond)
  {
    var k :| 0 <= k < |state.skills| && state.skills[k] == p;
    assert FirstProgress(state.skills, definition.id) <= k;
  }

  /** SnapshotStatistics' document: one namespace holding one category of entries. */
  function StatisticsOf(definitions: seq<SkillDefinition>, state: SkillStateSnapshot): (r: StatisticsSnapshot)
    ensures r.activeSkillId == state.activeSkillId && r.totalSkillCurrency == state.totalCurrency
    ensures |r.namespaces| == 1 && |r.namespaces[0].categories| == 1
    ensures var entries := r.namespaces[0].categories[0].entries;
            |entries| == |definitions|
            && forall i | 0 <= i < |definitions| :: entries[i] == BuildStatisticEntry(definitions[i], state)
  {
    var entries := seq(|definitions|, i requires 0 <= i < |definitions| => BuildStatisticEntry(definitions[i], state));
    StatisticsSnapshot(state.activeSkillId, state.totalCurrency,
      [StatisticNamespace("statistics.core", "AFK Simulator", [StatisticCategory("statistics.skills", "Skills", entries)])])
  }

  /** The first argument RegisterSkill refuses, in the order it checks them: the id, name,
      description, default animation and accent colour must not be blank, and the rate must be
      positive. */
  function ArgumentError(id: string, name: string, description: string, currencyPerSecond: real,
                         defaultAnimation: string, accentColor: string): (r: Option<StatisticsError>)
    ensures r.None? <==> !IsBlank(id) && !IsBlank(name) && !IsBlank(description) && !IsBlank(defaultAnimation)
                         && !IsBlank(accentColor) && currencyPerSecond > 0.0
    ensures r == Some(BlankArgument("id")) <==> IsBlank(id)
    ensures r == Some(BlankArgument("name")) <==> !IsBlank(id) && IsBlank(name)
    ensures r == Some(BlankArgument("description")) <==> !IsBlank(id) && !IsBlank(name) && IsBlank(description)
    ensures r == Some(BlankArgument("defaultAnimation")) <==>
              !IsBlank(id) && !IsBlank(name) && !IsBlank(description) && IsBlank(defaultAnimation)
    ensures r == Some(BlankArgument("accentColor")) <==>
              !IsBlank(id) && !IsBlank(name) && !IsBlank(description) && !IsBlank(defaultAnimation) && IsBlank(accentColor)
    ensures r == Some(NonPositiveRate) <==>
              !IsBlank(id) && !IsBlank(name) && !IsBlank(description) && !IsBlank(defaultAnimation)
              && !IsBlank(accentColor) && currencyPerSecond <= 0.0
  {
    if IsBlank(id) then Some(BlankArgument("id"))
    else if IsBlank(name) then Some(BlankArgument("name"))
    else if IsBlank(description) then Some(BlankArgument("description"))
    else if IsBlank(defaultAnimation) then Some(BlankArgument("defaultAnimation"))
    else if IsBlank(accentColor) then Some(BlankArgument("accentColor"))
    else if currencyPerSecond <= 0.0 then Some(NonPositiveRate)
    else None
  }

  class StatisticsService {
    var definitions: map<string, SkillDefinition>
    var progress: map<string, SkillProgressState>
    var activeSkillId: string
    var totalCurrency: real

    /** Both dictionaries are case-insensitive: every entry sits under its folded id. Distinct
        keys therefore hold distinct progress objects. */
    ghost predicate Valid()
      reads this
    {
      (forall k | k in definitions :: k == Fold(definitions[k].id))
      && (forall k | k in progress :: k == Fold(progress[k].skillId))
    }

    /** A fresh service; restoring persisted progress is not part of this model. */
    constructor()
      ensures Valid() && definitions == map[] && progress == map[] && activeSkillId == "" && totalCurrency == 0.0
    {
      definitions := map[];
      progress := map[];
      activeSkillId := "";
      totalCurrency := 0.0;
    }

    /** GetOrAdd followed by Grant: the record kept for the skill's id, created when missing,
        gains the amount; no other record changes. */
    method Credit(skillId: string, amount: real)
      requires Valid()
      modifies this`progress, progress.Values
      ensures Valid()
      ensures progress.Keys == old(progress.Keys) + {Fold(skillId)}
      ensures forall k | k in old(progress) :: progress[k] == old(progress[k])
      ensures forall k | k in old(progress) && k != Fold(skillId) ::
                progress[k].experience == old(progress[k].experience) && progress[k].currency == old(progress[k].currency)
      ensures Fold(skillId) in old(progress) ==>
                progress[Fold(skillId)].experience == old(progress[Fold(skillId)].experience) + amount
                && progress[Fold(skillId)].currency == old(progress[Fold(skillId)].currency) + amount
      ensures Fold(skillId) !in old(progress) ==>
                fresh(progress[Fold(skillId)]) && progress[Fold(skillId)].skillId == skillId
                && progress[Fold(skillId)].experience == amount && progress[Fold(skillId)].currency == amount
    {
      var state: SkillProgressState;
      if Fold(skillId) in progress {
        state := progress[Fold(skillId)];
      } else {
        state := new SkillProgressState(skillId);
        progress := progress[Fold(skillId) := state];
      }
      state.Grant(amount);
    }

    /** RegisterSkill: the arguments are checked first; a second definition for an id
        (ignoring case) is refused. A new skill gets a progress record unless one is already
        kept for its id. */
    method RegisterSkill(id: string, name: string, description: string, currencyPerSecond: real,
                         defaultAnimation: string, accentColor: string)
      returns (r: Result<SkillDefinition, StatisticsError>)
      requires Valid()
      modifies this
      ensures Valid()
      ensures activeSkillId == old(activeSkillId) && totalCurrency == old(totalCurrency)
      ensures var e := ArgumentError(id, name, description, currencyPerSecond, defaultAnimation, accentColor);
              (e.Some? ==> r == Err(e.value))
              && (e.None? && Fold(id) in old(definitions) ==> r == Err(AlreadyRegistered(id)))
              && (r.Ok? <==> e.None? && Fold(id) !in old(definitions))
      ensures r.Err? ==> definitions == old(definitions) && progress == old(progress)
      ensures r.Ok? ==> r.value == SkillDefinition(id, name, description, currencyPerSecond, defaultAnimation, accentColor)
                        && definitions == old(definitions)[Fold(id) := r.value]
      ensures r.Ok? && Fold(id) in old(progress) ==> progress == old(progress)
      ensures r.Ok? && Fold(id) !in old(progress) ==>
                progress.Keys == old(progress.Keys) + {Fold(id)}
                && (forall k | k in old(progress) :: progress[k] == old(progress[k]))
                && fresh(progress[Fold(id)]) && progress[Fold(id)].skillId == id
                && progress[Fold(id)].experience == 0.0 && progress[Fold(id)].currency == 0.0
    {
      var error := ArgumentError(id, name, description, currencyPerSecond, defaultAnimation, accentColor);
      if error.Some? {
        return Err(error.value);
      }
      if Fold(id) in definitions {
        return Err(AlreadyRegistered(id));
      }
      var definition := SkillDefinition(id, name, description, currencyPerSecond, defaultAnimation, accentColor);
      definitions := definitions[Fold(id) := definition];
      if Fold(id) !in progress {
        var state := new SkillProgressState(id);
        progress := progress[Fold(id) := state];
      }
      r := Ok(definition);
    }

    /** ActivateSkill: the id must not be blank and must name a registered skill, ignoring
        case; it is then stored as given. */
    method ActivateSkill(skillId: string) returns (r: Result<(), StatisticsError>)
      modifies this`activeSkillId
      ensures IsBlank(skillId) ==> r == Err(BlankArgument("skillId"))
      ensures !IsBlank(skillId) && Fold(skillId) !in definitions ==> r == Err(NotRegistered(skillId))
      ensures r.Ok? <==> !IsBlank(skillId) && Fold(skillId) in definitions
      ensures r.Ok? ==> activeSkillId == skillId
      ensures r.Err? ==> activeSkillId == old(activeSkillId)
    {
      if IsBlank(skillId) {
        return Err(BlankArgument("skillId"));
      }
      if Fold(skillId) !in definitions {
        return Err(NotRegistered(skillId));
      }
      activeSkillId := skillId;
      r := Ok(());
    }

    /** The active skill's definition, when the active id is not blank and is registered. */
    function ActiveSkill(): (r: Option<SkillDefinition>)
      reads this
      ensures r.Some? <==> !IsBlank(activeSkillId) && Fold(activeSkillId) in definitions
      ensures r.Some? ==> r.value == definitions[Fold(activeSkillId)]
      ensures r.Some? && Valid() ==> EqualsIgnoreCase(r.value.id, activeSkillId)
    {
      if !IsBlank(activeSkillId) && Fold(activeSkillId) in definitions then Some(definitions[Fold(activeSkillId)])
      else None
    }

    /** ProcessTickAsync: without an active registered skill nothing changes. Otherwise the
        award is the skill's rate times the tick's length in seconds; the skill's progress
        record (created when missing) and the total currency each gain it. */
    method ProcessTick(tickDuration: int)
      requires Valid()
      modifies this, progress.Values
      ensures Valid()
      ensures definitions == old(definitions) && activeSkillId == old(activeSkillId)
      ensures ActiveSkill().None? ==>
                progress == old(progress) && totalCurrency == old(totalCurrency)
                && forall k | k in progress :: progress[k].experience == old(progress[k].experience)
                                               && progress[k].currency == old(progress[k].currency)
      ensures ActiveSkill().Some? ==>
                var award := ActiveSkill().value.currencyPerSecond * (tickDuration as real / TicksPerSecond as real);
                var key := Fold(activeSkillId);
                totalCurrency == old(totalCurrency) + award
                && progress.Keys == old(progress.Keys) + {key}
                && (forall k | k in old(progress) :: progress[k] == old(progress[k]))
                && (forall k | k in old(progress) && k != key ::
                      progress[k].experience == old(progress[k].experience)
                      && progress[k].currency == old(progress[k].currency))
                && (key in old(progress) ==>
                      progress[key].experience == old(progress[key].experience) + award
                      && progress[key].currency == old(progress[key].currency) + award)
                && (key !in old(progress) ==>
                      fresh(progress[key]) && progress[key].skillId == ActiveSkill().value.id
                      && progress[key].experience == award && progress[key].currency == award)
    {
      if IsBlank(activeSkillId) || Fold(activeSkillId) !in definitions {
        return;
      }
      var active := definitions[Fold(activeSkillId)];
      var award := active.currencyPerSecond * (tickDuration as real / TicksPerSecond as real);
      totalCurrency := totalCurrency + award;
      Credit(active.id, award);
    }

    /** The snapshot of every progress record. */
    ghost function Snapshots(level: real -> int): set<SkillProgressSnapshot>
      reads this, progress.Values
    {
      set k | k in progress :: progress[k].ToSnapshot(level)
    }

    /** SnapshotSkillState: the active id, the total, and every progress record's snapshot
        ordered by skill id ignoring case. */
    method SnapshotSkillState(level: real -> int) returns (r: SkillStateSnapshot)
      requires Valid()
      ensures r.activeSkillId == activeSkillId && r.totalCurrency == totalCurrency
      ensures |r.skills| == |progress|
      ensures forall s :: s in r.skills <==> s in Snapshots(level)
      ensures Sorted(r.skills, SkillIdLe)
      ensures forall s | s in r.skills :: Fold(s.skillId) in progress && s == progress[Fold(s.skillId)].ToSnapshot(level)
    {
      var listed := ListSnapshots(level);
      var sorted := Sort(listed, SkillIdLe);
      OrdersArePreorders();
      SortSorted(listed, SkillIdLe);
      assert forall s :: s in sorted <==> s in multiset(listed);
      r := SkillStateSnapshot(activeSkillId, totalCurrency, sorted);
    }

    /** Every progress record's snapshot, once each, in the dictionary's enumeration order. */
    method ListSnapshots(level: real -> int) returns (listed: seq<SkillProgressSnapshot>)
      requires Valid()
      ensures |listed| == |progress|
      ensures forall s :: s in listed <==> s in Snapshots(level)
    {
      var keys := Enumerate(progress.Keys);
      var snaps := map k | k in progress :: progress[k].ToSnapshot(level);
      listed := seq(|keys|, i requires 0 <= i < |keys| && keys[i] in snaps => snaps[keys[i]]);
      ListedSnapshots(keys, listed, level);
    }

    /** The snapshots of an enumeration of the keys are the snapshots of all records. */
    lemma ListedSnapshots(keys: seq<string>, listed: seq<SkillProgressSnapshot>, level: real -> int)
      requires Valid()
      requires forall k :: k in keys <==> k in progress
      requires forall i, j | 0 <= i < j < |keys| :: keys[i] != keys[j]
      requires |listed| == |keys| && forall i | 0 <= i < |keys| :: listed[i] == progress[keys[i]].ToSnapshot(level)
      ensures forall s :: s in listed <==> s in Snapshots(level)
    {
      forall s | s in Snapshots(level) ensures s in listed {
        var k :| k in progress && s == progress[k].ToSnapshot(level);
        var i :| 0 <= i < |keys| && keys[i] == k;
        assert listed[i] == s;
      }
    }

    /** ListSkillDefinitions: every definition, ordered by name. */
    method ListSkillDefinitions() returns (r: seq<SkillDefinition>)
      ensures |r| == |definitions|
      ensures forall d :: d in r <==> d in definitions.Values
      ensures Sorted(r, NameLe)
    {
      OrdersArePreorders();
      r := SortedValues(definitions, NameLe);
    }

    /** The value an entry shows for a definition: its progress record's figures, or level 1 and
        zero amounts when no record is kept for its id. */
    ghost function ProgressValue(definition: SkillDefinition, level: real -> int): StatisticValue
      reads this, progress.Values
    {
      if Fold(definition.id) in progress then
        var p := progress[Fold(definition.id)];
        StatisticValue(level(p.experience), p.experience, p.currency, definition.currencyPerSecond)
      else StatisticValue(1, 0.0, 0.0, definition.currencyPerSecond)
    }

    /** An entry built against a snapshot of this service shows the definition's progress. */
    lemma EntryValue(definition: SkillDefinition, state: SkillStateSnapshot, level: real -> int)
      requires Valid()
      requires forall s :: s in state.skills <==> s in Snapshots(level)
      ensures BuildStatisticEntry(definition, state).value == ProgressValue(definition, level)
    {
      var key := Fold(definition.id);
      if key in progress {
        var s := progress[key].ToSnapshot(level);
        assert s in Snapshots(level);
        forall t | t in state.skills && EqualsIgnoreCase(t.skillId, definition.id) ensures t == s {
          var k :| k in progress && t == progress[k].ToSnapshot(level);
        }
        BuildStatisticEntryFinds(definition, state, s);
      } else {
        forall p | p in state.skills ensures !EqualsIgnoreCase(p.skillId, definition.id) {
          var k :| k in progress && p == progress[k].ToSnapshot(level);
        }
      }
    }

    /** SnapshotStatistics: one entry per definition, in name order, each showing the
        definition, its progress and whether it is the active skill. */
    method SnapshotStatistics(level: real -> int) returns (r: StatisticsSnapshot)
      requires Valid()
      ensures r.activeSkillId == activeSkillId && r.totalSkillCurrency == totalCurrency
      ensures |r.namespaces| == 1 && |r.namespaces[0].categories| == 1
      ensures var entries := r.namespaces[0].categories[0].entries;
              |entries| == |definitions|
              && (forall i | 0 <= i < |entries| ::
                    Fold(entries[i].entryId) in definitions
                    && entries[i].name == definitions[Fold(entries[i].entryId)].name
                    && (entries[i].isActive <==> EqualsIgnoreCase(activeSkillId, entries[i].entryId))
                    && entries[i].value == ProgressValue(definitions[Fold(entries[i].entryId)], level))
              && (forall k | k in definitions :: exists i | 0 <= i < |entries| :: entries[i].entryId == definitions[k].id)
              && (forall i, j | 0 <= i < j < |entries| :: OrdinalLe(entries[i].name, entries[j].name))
    {
      var state := SnapshotSkillState(level);
      var listed := ListSkillDefinitions();
      r := StatisticsOf(listed, state);
      EntriesDescribe(listed, state, r.namespaces[0].categories[0].entries, level);
    }

    /** Entries built one per listed definition describe the registered skills. */
    lemma EntriesDescribe(listed: seq<SkillDefinition>, state: SkillStateSnapshot, entries: seq<StatisticEntry>,
                          level: real -> int)
      requires Valid()
      requires forall d :: d in listed <==> d in definitions.Values
      requires state.activeSkillId == activeSkillId && forall s :: s in state.skills <==> s in Snapshots(level)
      requires |entries| == |listed| && forall i | 0 <= i < |listed| :: entries[i] == BuildStatisticEntry(listed[i], state)
      ensures forall i | 0 <= i < |entries| ::
                Fold(entries[i].entryId) in definitions && entries[i].name == definitions[Fold(entries[i].entryId)].name
                && (entries[i].isActive <==> EqualsIgnoreCase(activeSkillId, entries[i].entryId))
                && entries[i].value == ProgressValue(definitions[Fold(entries[i].entryId)], level)
      ensures forall k | k in definitions :: exists i | 0 <= i < |entries| :: entries[i].entryId == definitions[k].id
    {
      forall i | 0 <= i < |entries|
        ensures Fold(entries[i].entryId) in definitions && definitions[Fold(entries[i].entryId)] == listed[i]
                && entries[i].name == listed[i].name && entries[i].value == ProgressValue(listed[i], level)
                && (entries[i].isActive <==> EqualsIgnoreCase(activeSkillId, entries[i].entryId))
      {
        EntryDescribes(listed[i], state, level);
      }
      forall k | k in definitions ensures exists i | 0 <= i < |entries| :: entries[i].entryId == definitions[k].id {
        assert definitions[k] in definitions.Values;
        var i :| 0 <= i < |listed| && listed[i] == definitions[k];
        assert entries[i].entryId == definitions[k].id;
      }
    }

    /** The entry built for a registered definition names it, shows its progress and says
        whether it is the active skill. */
    lemma EntryDescribes(d: SkillDefinition, state: SkillStateSnapshot, level: real -> int)
      requires Valid() && d in definitions.Values
      requires forall s :: s in state.skills <==> s in Snapshots(level)
      ensures var e := BuildStatisticEntry(d, state);
              Fold(e.entryId) in definitions && definitions[Fold(e.entryId)] == d
              && e.value == ProgressValue(d, level)
    {
      var k :| k in definitions && definitions[k] == d;
      EntryValue(d, state, level);
    }
  }
}

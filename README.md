# afk-simulator core, modelled in Dafny

This project models the core of an incremental ("idle") game engine written in C#. It proves properties of that model.

The modelled parts:

- **Resource economy.** The resource graph has nodes with a capacity, a generation rate and a floor, and directed, rate-limited, lossy conversion edges. It advances in two phases: every node generates, then the edges transfer in ordinal id order. The core engine module configures the ore-to-gold economy on top of it.
- **Tick scheduler.** Consumers are registered in priority buckets. Each tick invokes every consumer once, in ascending priority and then registration order. The tick-rate profile is a clamped speed multiplier.
- **Accounts and wallets.**
  - The in-memory account service covers users, universes, characters, deposits, top-ups and wallet snapshots.
  - The database-backed service's wallet logic is modelled on tracked character entities.
  - Also modelled: the account rulebook, and the account module's dashboard view and once-only avatar sprite registration.
- **Statistics.** Skill registration, activation, per-tick accrual and the statistics snapshot.
- **Sprites and assets.**
  - The asset manifest.
  - Sheet layouts with div/mod frame addressing.
  - The validating frame-region, clip and definition constructors.
  - The sprite library.
  - The server's sprite response and the client's animation descriptor.
- **Small keyed stores.** Leaderboard, multiplayer sessions, module catalog, module view and dashboard view catalogs, render settings validator and store, and the developer profile store.

Modelling conventions:

- **Case-insensitive keys.** A dictionary that compares keys ignoring case (`OrdinalIgnoreCase`) is a Dafny `map` keyed by `Text.Fold`, an ASCII upper-case fold. A lookup matches when the folded keys are equal.
- **Numbers.**
  - `double` is `real`.
  - `long` and `int` are unbounded `int`; wrap-around is written out only where it matters (see Findings).
  - `TimeSpan` and `DateTimeOffset` are `int` ticks, at 10 000 000 ticks per second.
- **Errors.** An exception is an `Err` value of a `Result` datatype. Every error path named by the code is modelled, including the order in which the checks run.
- **Outside inputs are parameters.** These are:
  - generated ids, the clock and content hashes;
  - the skill level formula;
  - the enumeration order of hash-based dictionaries;
  - the answers of services called by the account module.
- **State.** Objects whose fields the code updates in place are classes with `modifies` clauses. Values and LINQ pipelines are datatypes and functions. A loop in the code is a method with a `while` or `for` loop.
- **Sorting.** `OrderBy`/`ThenBy` and `SortedSet` orderings go through one stable insertion sort, `Sorting.Sort`. It is proved to return a sorted permutation that keeps the relative order of equal elements.

Where the engine's design description and the code disagree, the model follows the code:

- `TickScheduler.cs` has no per-consumer rate profile or accumulator.
- It builds a single three-field context per tick.
- The account services read the rulebook's universe and character limits under names the rulebook does not define. `maxUniversesPerUser` stands for the rulebook's MaxAccountsPerUser, and `maxCharactersPerUniverse` for its MaxProfilesPerAccount.

## Model

| member | source | states |
|---|---|---|
| Resources.NodeDefinition.Clamp | src/Engine.Core/Resources/ResourceDefinitions.cs:9 | Math.Clamp into [Minimum, Capacity]: fails exactly when Minimum > Capacity; otherwise the result lies in the range, and a value already inside it is returned unchanged |
| Resources.ClampIdempotent | src/Engine.Core/Resources/ResourceDefinitions.cs:9 | clamping an already clamped value changes nothing |
| Resources.ClampMonotone | src/Engine.Core/Resources/ResourceDefinitions.cs:9 | v ≤ w implies Clamp(v) ≤ Clamp(w) |
| Resources.Defaults | src/Engine.Core/Resources/ResourceDefinitions.cs:3-17 | a node given only id and capacity generates 0 per second and has minimum 0; an edge without an efficiency has efficiency 1 |
| Resources.EdgeOrderIsTotal | src/Engine.Core/Resources/ResourceGraph.cs:45 | ordinal comparison of edge ids is a total preorder whose ties are exactly the edges with equal ids |
| Resources.Generated | src/Engine.Core/Resources/ResourceGraph.cs:56-62 | built from `GeneratedStock`, one node at a time: the generation phase keeps the set of stocks, and every stock ends inside its node's [Minimum, Capacity] |
| Resources.Transfer | src/Engine.Core/Resources/ResourceGraph.cs:64-77 | one edge's transfer keeps the set of stocks |
| Resources.TransferEffect | src/Engine.Core/Resources/ResourceGraph.cs:64-77 | transferable = min(source stock, rate · seconds); if it is ≤ 0 nothing changes; otherwise the source drops by exactly that amount, the target becomes Clamp(target + amount · efficiency), and every other stock is untouched |
| Resources.TransferAll | src/Engine.Core/Resources/ResourceGraph.cs:64-77 | the transfer phase, edge by edge in list order, keeps the set of stocks |
| Resources.TransferKeepsBounds | src/Engine.Core/Resources/ResourceGraph.cs:64-77 | one transfer keeps every stock at most its capacity and at least its floor (its minimum, or 0 for a drained source) |
| Resources.TransferAllKeepsBounds | src/Engine.Core/Resources/ResourceGraph.cs:64-77 | the same bounds hold after any number of edges |
| Resources.AdvanceKeepsBounds | src/Engine.Core/Resources/ResourceGraph.cs:50-81 | after a whole Advance, from any well-formed state, no stock exceeds its capacity or falls below its floor |
| Resources.SingleEdgeAdvance | src/Engine.Core/Resources/ResourceGraph.cs:56-77 | with one edge, Advance is that edge's transfer applied after the generation phase |
| Resources.SourceCanFallBelowMinimum | src/Engine.Core/Resources/ResourceGraph.cs:73 | the source's stock is reduced without clamping: a source at its minimum of 10 with a rate of 5 ends at 5, below its minimum |
| Resources.SmeltingGeneration | tests/Engine.Core.Tests/Resources/ResourceGraphTests.cs:8-15 | in the smelting example, ten seconds of generation put ore at 100 and ingot at 0 |
| Resources.SmeltingTransfer | tests/Engine.Core.Tests/Resources/ResourceGraphTests.cs:8-18 | the smelting edge then moves 50 ore, delivering 25 ingots |
| Resources.SmeltingScenario | tests/Engine.Core.Tests/Resources/ResourceGraphTests.cs:8-18 | ore{1000, 10/s} and ingot{1000} joined by smelt(rate 5, efficiency 0.5): over the stock table, keyed by ids ignoring case, Advance(10 s) leaves ore = 50 and ingot = 25 |
| Resources.SmeltingSnapshot | tests/Engine.Core.Tests/Resources/ResourceGraphTests.cs:17-18 | the snapshot of those stocks is keyed and labelled "ore" and "ingot", as the nodes were spelled, with 50 and 25 |
| Resources.SmeltingRun | tests/Engine.Core.Tests/Resources/ResourceGraphTests.cs:8-18 | building the graph with UpsertNode and UpsertEdge and calling Advance(10 s) answers exactly {"ore": 50, "ingot": 25} |
| Resources.SmeltingGraph | tests/Engine.Core.Tests/Resources/ResourceGraphTests.cs:10-13 | the test's graph: the two nodes at stock 0 under their own spellings, and the smelting edge |
| Resources.SmeltingGraphNodes | tests/Engine.Core.Tests/Resources/ResourceGraphTests.cs:10-12 | upserting ore and ingot without an initial value leaves both stocks at 0 |
| Resources.Reported | src/Engine.Core/Resources/ResourceGraph.cs:79-80 | the snapshot dictionary has one entry per stock, keyed and labelled by the spelling the stock table first stored, holding that stock |
| Resources.FindEdge | src/Engine.Core/Resources/ResourceGraph.cs:37 | FindIndex by exact id: the first position holding the id, or none when no edge has it |
| Resources.ReplacedEdgeOrdered | src/Engine.Core/Resources/ResourceGraph.cs:38-41 | replacing an edge in place by one with the same id keeps the list strictly ordered by id |
| Resources.AppendedEdgeOrdered | src/Engine.Core/Resources/ResourceGraph.cs:42-46 | appending an edge with a new id and sorting gives a strictly ordered list holding exactly the old edges and the new one |
| Resources.UpsertedEdgesOrdered | src/Engine.Core/Resources/ResourceGraph.cs:37-46 | after an upsert the ids stay unique and ascending, the new edge is present, every other edge is kept, nothing else appears, and the length grows by one exactly when the id was new |
| Resources.UpsertedEdgesKnown | src/Engine.Core/Resources/ResourceGraph.cs:32-46 | an upsert of a checked edge keeps every edge's endpoints among the known nodes |
| Resources.UpsertNodeAsWritten | src/Engine.Core/Resources/ResourceGraph.cs:17-25 | the source's order: the definition is stored whatever happens; Clamp fails exactly when Minimum > Capacity, and then the stock table is left as it was |
| Resources.UpsertNodeAsWrittenDesynchronises | src/Engine.Core/Resources/ResourceGraph.cs:22-23 | a node with minimum 20 above capacity 10 ends up with a definition but no stock |
| Resources.ResourceGraph.constructor | src/Engine.Core/Resources/ResourceGraph.cs:12-14 | a new graph has no nodes, no stocks and no edges |
| Resources.ResourceGraph.UpsertNode | src/Engine.Core/Resources/ResourceGraph.cs:17-25 | stores the definition under its case-folded id and sets that stock to Clamp(initial value), the initial value being 0 unless given, dropping the old stock; the stock table keeps the id's first spelling; other nodes and the edges are unchanged; an empty range fails and changes nothing |
| Resources.ResourceGraph.UpsertEdge | src/Engine.Core/Resources/ResourceGraph.cs:27-48 | fails, changing nothing, exactly when the source or target node is unknown; otherwise the edge list becomes the upserted list; nodes and stocks are unchanged |
| Resources.ResourceGraph.Advance | src/Engine.Core/Resources/ResourceGraph.cs:50-82 | a span ≤ 0 fails and changes nothing; otherwise the stocks become generation then the transfer phase of the old stocks, and the snapshot holds every new stock under the spelling the stock table first stored for it, and nothing else |
| Resources.ResourceGraph.GenerationPhase | src/Engine.Core/Resources/ResourceGraph.cs:56-62 | the first loop computes exactly the generation phase |
| Resources.ResourceGraph.TransferPhase | src/Engine.Core/Resources/ResourceGraph.cs:64-77 | the second loop computes exactly the transfer phase, edges in list order |
| Resources.ResourceGraph.TransferAlong | src/Engine.Core/Resources/ResourceGraph.cs:66-76 | one iteration of the transfer loop is one edge's transfer |
| Resources.ResourceGraph.ExportState | src/Engine.Core/Resources/ResourceGraph.cs:84-91 | a copy of every stock keyed by node id; nothing is changed |
| Scheduling.EntriesInPriorityOrder | src/Engine.Core/Scheduling/TickScheduler.cs:12 | the sorted dictionary of buckets lists every consumer in ascending priority |
| Scheduling.AddConsumerEffect | src/Engine.Core/Scheduling/TickScheduler.cs:42-48 | `AddConsumer`: adding keeps the table sorted by priority with no empty bucket; the consumer goes at the end of its priority's bucket, which is created if absent; every other priority's bucket is unchanged; exactly one more occurrence of the id is present |
| Scheduling.AddConsumerAt | src/Engine.Core/Scheduling/TickScheduler.cs:42-48 | the bucket at the priority gains the id at its end, and other priorities are unchanged |
| Scheduling.AddConsumerIds | src/Engine.Core/Scheduling/TickScheduler.cs:48 | the table's ids gain exactly one occurrence of the added id |
| Scheduling.Without | src/Engine.Core/Scheduling/TickScheduler.cs:60 | RemoveAll by id: every occurrence of the id goes and everything else stays |
| Scheduling.RemoveAbsent | src/Engine.Core/Scheduling/TickScheduler.cs:58-73 | when no bucket holds the id the table is unchanged |
| Scheduling.RemoveAtFirst | src/Engine.Core/Scheduling/TickScheduler.cs:58-69 | `RemoveConsumer`: removal acts on the first bucket holding the id and drops that bucket when it becomes empty; the buckets before and after are unchanged |
| Scheduling.RemoveConsumerIds | src/Engine.Core/Scheduling/TickScheduler.cs:58-69 | with unique ids, removing leaves the table's ids minus that id |
| Scheduling.RemoveConsumerTable | src/Engine.Core/Scheduling/TickScheduler.cs:58-69 | removal keeps the table sorted, without empty buckets and with unique ids |
| Scheduling.Invocations | src/Engine.Core/Scheduling/TickScheduler.cs:112-118 | one OnTick call per consumer of the snapshot |
| Scheduling.InvocationsAt | src/Engine.Core/Scheduling/TickScheduler.cs:112-118 | the i-th call goes to the i-th consumer of the snapshot, with the tick's one shared context |
| Scheduling.PublishedInTick | src/Engine.Core/Scheduling/TickScheduler.cs:121-122 | each tick publishes exactly one TickExecuted event, carrying its index and the snapshot's consumer count |
| Scheduling.PublishedPerTick | src/Engine.Core/Scheduling/TickScheduler.cs:80-84 | `RunTrace`: a run of n ticks from index s publishes TickExecuted(s + k, count) for k = 0 … n−1 and nothing else |
| Scheduling.RunTelemetryAt | src/Engine.Core/Scheduling/TickScheduler.cs:121-123 | the k-th telemetry event of a run carries index start + k |
| Scheduling.SeenOnceInTick | src/Engine.Core/Scheduling/TickScheduler.cs:105-118 | in a table with unique ids, a registered consumer is invoked exactly once per tick, with that tick's index |
| Scheduling.SeenInOneTick | src/Engine.Core/Scheduling/TickScheduler.cs:112-118 | a consumer is invoked once per occurrence of its id in the snapshot |
| Scheduling.SeenOnEveryTick | src/Engine.Core/Scheduling/TickScheduler.cs:80-84 | over a run of n ticks from index s, a registered consumer sees exactly s, s+1, …, s+n−1 |
| Scheduling.LoneConsumerSeesFiveTicks | tests/Engine.Core.Tests/Scheduling/TickSchedulerTests.cs:9-20 | a lone consumer "core" sees ticks 0, 1, 2, 3, 4 after RunTicks(5) |
| Scheduling.TickScheduler.constructor | src/Engine.Core/Scheduling/TickScheduler.cs:18-27 | a scheduler with a positive duration starts with no consumers at tick 0 |
| Scheduling.TickScheduler.Create | src/Engine.Core/Scheduling/TickScheduler.cs:18-27 | a tick duration ≤ 0 is refused; otherwise a fresh, empty scheduler at tick 0 |
| Scheduling.TickScheduler.RegisterConsumer | src/Engine.Core/Scheduling/TickScheduler.cs:31-50 | refused, changing nothing, exactly when any bucket already holds the id; otherwise the table becomes AddConsumer of the old one |
| Scheduling.TickScheduler.UnregisterConsumer | src/Engine.Core/Scheduling/TickScheduler.cs:52-74 | a blank id is refused; otherwise the result is whether the id was registered, and the table becomes the old one with that consumer removed |
| Scheduling.TickScheduler.RunSingleTick | src/Engine.Core/Scheduling/TickScheduler.cs:102-124 | every consumer is invoked in table order with the context (index, duration, clock reading), then TickExecuted is published, then the index rises by exactly 1 |
| Scheduling.TickScheduler.RunTicks | src/Engine.Core/Scheduling/TickScheduler.cs:76-85 | a count ≤ 0 is refused and changes nothing; otherwise exactly that many ticks run, one clock reading each |
| Scheduling.TickScheduler.RunTickLoop | src/Engine.Core/Scheduling/TickScheduler.cs:80-84 | the loop's effect is the run trace of its readings; the index rises by the tick count |
| TickRate.Create | src/Engine.Core/Scheduling/TickRateProfile.cs:13-23 | NaN or infinite speed is refused; otherwise the speed is clamped into [0.05, 20], kept unchanged when already inside, set to the nearer bound when outside; a non-blank label is kept verbatim, and a blank or missing one becomes the label derived from the clamped speed |
| TickRate.Normal | src/Engine.Core/Scheduling/TickRateProfile.cs:35 | speed 1 and label "Normal" |
| TickRate.NormalIsConstructed | src/Engine.Core/Scheduling/TickRateProfile.cs:35 | Normal is what the constructor builds from (1, "Normal") |
| TickRate.CreateIdempotent | src/Engine.Core/Scheduling/TickRateProfile.cs:20-22 | building a profile again from a profile's own speed and label gives the same profile |
| CoreEngine.OreToGold | src/Engine.Core/CoreEngineModule.cs:152-156 | the edge "ore-to-gold" from ore to gold carrying the module's current rate and efficiency |
| CoreEngine.Carried | src/Engine.Core/CoreEngineModule.cs:145-146 | the override when one is given, otherwise the exported stock, and 0 for a missing node |
| CoreEngine.ConfiguredNodes | src/Engine.Core/CoreEngineModule.cs:148-149 | the node table after both upserts: the old keys plus ore and gold, the two nodes with the given capacities and the fixed generation rates, every other node kept |
| CoreEngine.ConfiguredState | src/Engine.Core/CoreEngineModule.cs:144-149 | the stock table after both upserts: the old keys plus ore and gold, each of those two within [0, its capacity], every other stock kept, and without an override a stock already in its new range unchanged |
| CoreEngine.CoreEngineModule.constructor | src/Engine.Core/CoreEngineModule.cs:18-30 | not initialised; rate 1, efficiency 0.1, ore capacity 1 000, gold capacity 1 000 000 |
| CoreEngine.CoreEngineModule.WriteNode | src/Engine.Core/CoreEngineModule.cs:148-149 | one UpsertNode with a checked range: the node and its clamped stock are stored under the folded id, and the edges are unchanged |
| CoreEngine.CoreEngineModule.ConfigureNodes | src/Engine.Core/CoreEngineModule.cs:142-150 | gold then ore are upserted with the current capacities and generation rates; the node table becomes `ConfiguredNodes` and the stock table `ConfiguredState` of the old tables, each stock being the carried value (override, previous stock, or 0) clamped to the new range; edges are unchanged |
| CoreEngine.CoreEngineModule.ConfigureEdge | src/Engine.Core/CoreEngineModule.cs:152-156 | the edge list becomes the upsert of the ore-to-gold edge; nodes and stocks are unchanged |
| CoreEngine.CoreEngineModule.Initialize | src/Engine.Core/CoreEngineModule.cs:95-106 | a second call changes nothing; the first writes both nodes (`ConfiguredNodes`), re-clamps both stocks with a missing one counted as 0 (`ConfiguredState` without overrides), upserts the edge, and sets the flag; the settings are unchanged |
| CoreEngine.CoreEngineModule.Configure | src/Engine.Core/CoreEngineModule.cs:102-103 | nodes then edge, as the first initialisation performs them: the full new node table, stock table and edge list |
| CoreEngine.CoreEngineModule.ReseedResources | src/Engine.Core/CoreEngineModule.cs:114-119 | both nodes are rewritten with the current capacities, and created when missing; the ore and gold stocks become the given values clamped to those capacities; other nodes, other stocks and the edges are unchanged |
| CoreEngine.CoreEngineModule.SetOreTransferRate | src/Engine.Core/CoreEngineModule.cs:37-49 | stores clamp(v, 0.1, 25) and changes no other setting; before initialisation the graph is untouched, afterwards only the ore-to-gold edge is re-upserted |
| CoreEngine.CoreEngineModule.SetOreToGoldEfficiency | src/Engine.Core/CoreEngineModule.cs:53-65 | stores clamp(v, 0.01, 10); before initialisation the graph is untouched, afterwards only the edge is re-upserted |
| CoreEngine.CoreEngineModule.SetOreCapacity | src/Engine.Core/CoreEngineModule.cs:68-79 | stores clamp(v, 100, 10 000 000); before initialisation the graph is untouched; afterwards both nodes are re-upserted, the ore stock is re-clamped to the new capacity, the gold stock is re-clamped to its unchanged one (so an in-range gold stock survives), and every other key and the edges are unchanged |
| CoreEngine.CoreEngineModule.SetGoldCapacity | src/Engine.Core/CoreEngineModule.cs:82-93 | stores clamp(v, 10 000, 100 000 000); before initialisation the graph is untouched; afterwards both nodes are re-upserted, the gold stock is re-clamped to the new capacity, the ore stock to its unchanged one, and every other key and the edges are unchanged |
| CoreEngine.CoreEngineModule.SnapshotResources | src/Engine.Core/CoreEngineModule.cs:123 | exactly the graph's exported stocks |
| Rulebook.CreateDefault | src/Engine.Core/Accounts/AccountRulebook.cs:65-83 | the default rules: 3 accounts per user, 4 profiles per account, 1 250 base and 60 premium currency, the nine starter items, sprite "avatars/ember-nomad" |
| Rulebook.DefaultInRange | src/Engine.Core/Accounts/AccountRulebook.cs:65-83 | the default rules already lie within every setter's bounds |
| Rulebook.WithMaxAccounts | src/Engine.Core/Accounts/AccountRulebook.cs:12-13 | the limit becomes clamp(v, 1, 12): v itself inside the range, the nearer bound outside it; every other field is unchanged |
| Rulebook.WithMaxProfiles | src/Engine.Core/Accounts/AccountRulebook.cs:15-16 | the profile limit becomes clamp(v, 1, 12); every other field is unchanged |
| Rulebook.WithDefaultBaseCurrency | src/Engine.Core/Accounts/AccountRulebook.cs:18-19 | the starting base currency becomes clamp(v, 0, 10 000 000 000); every other field is unchanged |
| Rulebook.WithDefaultPremiumCurrency | src/Engine.Core/Accounts/AccountRulebook.cs:21-22 | the starting premium currency becomes clamp(v, 0, 1 000 000 000); every other field is unchanged |
| Rulebook.WithDefaultSprite | src/Engine.Core/Accounts/AccountRulebook.cs:24-29 | a blank id keeps the previous sprite; any other id replaces it; every other field is unchanged |
| Rulebook.WithStarterEquipment | src/Engine.Core/Accounts/AccountRulebook.cs:31-35 | the starter equipment becomes the given slots; every other field is unchanged |
| Rulebook.MutatorsKeepRange | src/Engine.Core/Accounts/AccountRulebook.cs:12-35 | every setter keeps the rules within all bounds |
| Rulebook.AccountRulebook.constructor | src/Engine.Core/Accounts/AccountRulebook.cs:8 | a new rulebook holds the default rules |
| Rulebook.AccountRulebook.SetMaxAccounts | src/Engine.Core/Accounts/AccountRulebook.cs:12-13 | the snapshot becomes WithMaxAccounts of the old one |
| Rulebook.AccountRulebook.SetMaxProfiles | src/Engine.Core/Accounts/AccountRulebook.cs:15-16 | the snapshot becomes WithMaxProfiles of the old one |
| Rulebook.AccountRulebook.SetDefaultBaseCurrency | src/Engine.Core/Accounts/AccountRulebook.cs:18-19 | the snapshot becomes WithDefaultBaseCurrency of the old one |
| Rulebook.AccountRulebook.SetDefaultPremiumCurrency | src/Engine.Core/Accounts/AccountRulebook.cs:21-22 | the snapshot becomes WithDefaultPremiumCurrency of the old one |
| Rulebook.AccountRulebook.SetDefaultSprite | src/Engine.Core/Accounts/AccountRulebook.cs:24-29 | the snapshot becomes WithDefaultSprite of the old one |
| Rulebook.AccountRulebook.SetStarterEquipment | src/Engine.Core/Accounts/AccountRulebook.cs:31-35 | the snapshot becomes WithStarterEquipment of the old one |
| Wallet.ClampCurrencyCases | src/Engine.Core/Accounts/AccountService.cs:405-418 | the minimum below the range, the maximum above it, the value inside it; this agrees with Math.Clamp and is idempotent |
| Wallet.Shares | src/Engine.Core/Accounts/AccountService.cs:376-392 | one allocation per bucket |
| Wallet.SharesAreFair | src/Engine.Core/Accounts/AccountService.cs:385-389 | for a positive amount and bucket count, the allocations sum to the amount; each is amount / n or amount / n + 1; they never increase; exactly the first amount % n buckets get the extra unit |
| Wallet.SharesOfNothing | src/Engine.Core/Accounts/AccountService.cs:379-382 | a non-positive amount gives all zeros |
| Wallet.SplitAmount | src/Engine.Core/Accounts/AccountService.cs:376-392 | the loop fills a fresh array of length n with exactly Shares(amount, n), whose sum is the amount when amount and n are positive |
| Wallet.CreditProperties | src/Engine.Core/Accounts/AccountService.cs:394-397 | `Credit`, the corrected credit: the credited balance lies in [0, max]; a non-negative delta never lowers an in-range balance; an in-range sum is kept exactly and a sum above the maximum is capped |
| Wallet.AddLong | src/Engine.Core/Accounts/AccountService.cs:396 | 64-bit addition: the result is a long, congruent to the exact sum modulo 2^64, and equal to it when the sum fits |
| Wallet.CreditAsWrittenLosesBalance | src/Engine.Core/Accounts/AccountService.cs:396 | a balance of 1 250 credited long.MaxValue wraps negative and is clamped to 0, where the exact sum caps at the maximum |
| Wallet.CreditAsWrittenAgrees | src/Engine.Core/Accounts/AccountService.cs:396-397 | whenever the 64-bit sum does not wrap, the code as written and the corrected credit agree |
| Wallet.TopUpDelta | src/Engine.Core/Accounts/AccountService.cs:293-294 | max(0, target − current): never negative, positive exactly when the balance is below target, and then closing the gap exactly |
| Wallet.SubLong | src/Engine.Core/Accounts/AccountService.cs:293 | 64-bit subtraction: the result is a long, congruent to the exact difference modulo 2^64, and equal to it when the difference fits |
| Wallet.TopUpAsWrittenEmpties | src/Engine.Core/Accounts/AccountService.cs:293-297 | as written, a target of long.MinValue empties every positive balance up to the maximum, where the corrected top-up keeps it |
| Wallet.TopUpAsWrittenAgrees | src/Engine.Core/Accounts/AccountService.cs:293-297 | for an in-range balance whose shortfall and sum do not wrap, the top-up as written and the corrected one agree |
| Wallet.TopUpReachesTarget | src/Engine.Core/Accounts/AccountService.cs:293-298 | a top-up never lowers a balance, raises it to the target when the target is within the maximum, and otherwise to the maximum |
| AccountRecords.EmailValidity | src/Engine.Core/Accounts/AccountService.cs:447-450 | `NormalizeEmail` then `IsValidEmail`: the normalised address passes the check exactly when the trimmed address holds an '@' and a '.' |
| AccountRecords.NormalizeEmailIdempotent | src/Engine.Core/Accounts/AccountService.cs:447 | `NormalizeEmail`: trimming and upper-casing an already normalised address changes nothing |
| AccountRecords.CharacterNameIsClean | src/Engine.Core/Accounts/AccountService.cs:186-187 | `CharacterName`: a new character's name (the trimmed request, or "Character n" for a blank one) is never blank and has no whitespace at either end |
| AccountRecords.SpriteOrDefault | src/Engine.Core/Accounts/AccountService.cs:196 | the requested sprite when it is not blank, else the rulebook's default; never blank when the default is not |
| AccountRecords.NewestFirstIsPreorder | src/Engine.Core/Accounts/AccountService.cs:495-497 | OrderByDescending(CreatedAt) for universes and characters is a total preorder |
| AccountRecords.Credited | src/Engine.Core/Accounts/AccountService.cs:394-398 | both balances end within their bounds and nothing but the balances changes |
| AccountRecords.ReplaceFirst | src/Engine.Core/Accounts/AccountService.cs:532-543 | the roster keeps its length; every entry is the old one or the updated record |
| AccountRecords.ReplaceFirstAt | src/Engine.Core/Accounts/AccountService.cs:536-541 | exactly the first entry whose id matches, ignoring case, is overwritten |
| AccountRecords.ReplaceFirstAbsent | src/Engine.Core/Accounts/AccountService.cs:538 | a roster without the id is unchanged |
| AccountRecords.UpdateWalletEffect | src/Engine.Core/Accounts/AccountService.cs:394-402 | `UpdateWallet`: the credited record is written under its id; no other character changes; only the record's own roster can change |
| AccountRecords.DistributeCredits | src/Engine.Core/Accounts/AccountService.cs:355-374 | `Distribute`: with distinct ids, target i ends up credited with exactly allocation i of each currency; a target whose allocations are both zero is left as it was |
| AccountRecords.DistributeElsewhere | src/Engine.Core/Accounts/AccountService.cs:355-374 | a character that is not among the targets keeps its record |
| AccountRecords.TopUpCredit | src/Engine.Core/Accounts/AccountService.cs:293-297 | a topped-up character never loses currency and reaches each target that lies within the maximum |
| AccountRecords.Rosters | src/Engine.Core/Accounts/AccountService.cs:429-430 | the rosters of the listed universes, in order, each newest first |
| AccountRecords.CharacterWalletsTotal | src/Engine.Core/Accounts/AccountService.cs:432-437 | the character rows of a roster add up to the roster's wallet |
| AccountRecords.SnapshotTotals | src/Engine.Core/Accounts/AccountService.cs:420-444 | `WalletSnapshot`: the account wallet equals the sum of the universe wallets and the sum of the character wallets; one universe row per universe |
| Accounts.SummariseRoster | src/Engine.Core/Accounts/AccountService.cs:431-438 | the inner loop computes exactly the roster's wallet and its character rows |
| Accounts.SummariseUniverses | src/Engine.Core/Accounts/AccountService.cs:423-444 | the outer loop builds exactly the snapshot of the listed universes and rosters |
| Accounts.Concatenate | src/Engine.Core/Accounts/AccountService.cs:263-269 | the user-wide deposit's target list is the rosters one after the other |
| Accounts.AccountService.constructor | src/Engine.Core/Accounts/AccountService.cs:20-40 | a new service holds no users, credentials, universes or characters |
| Accounts.AccountService.RegisterUser | src/Engine.Core/Accounts/AccountService.cs:42-78 | blank arguments are refused; then an address whose normalised form lacks '@' or '.' is invalid; then a registered normalised address is taken; otherwise a user with the normalised address and trimmed name is stored, with credentials and an empty universe list; a refusal changes nothing |
| Accounts.AccountService.ListUniverses | src/Engine.Core/Accounts/AccountService.cs:125-137 | a blank id or unknown user is refused; otherwise exactly the user's universes, newest first |
| Accounts.AccountService.ListCharacters | src/Engine.Core/Accounts/AccountService.cs:163-175 | a blank id or unknown universe is refused; otherwise exactly the universe's roster, newest first |
| Accounts.AccountService.CreateUniverse | src/Engine.Core/Accounts/AccountService.cs:139-161 | blank arguments, an unknown user and a user at the universe limit are refused, changing nothing; otherwise the trimmed-name universe is stored and appended to the user's list |
| Accounts.AccountService.CreateCharacter | src/Engine.Core/Accounts/AccountService.cs:177-205 | a blank id, an unknown universe and a full roster are refused, changing nothing; otherwise the character gets the resolved name, the rulebook's currencies and equipment, and the requested or default sprite, and is appended to the roster |
| Accounts.AccountService.UpdateCharacterWallet | src/Engine.Core/Accounts/AccountService.cs:394-403 | returns the credited record and updates both the dictionary and the roster entry, as UpdateWallet states |
| Accounts.AccountService.DistributeAcrossCharacters | src/Engine.Core/Accounts/AccountService.cs:355-374 | the wallets become the distribution of SplitAmount's shares over the targets |
| Accounts.AccountService.CreditShares | src/Engine.Core/Accounts/AccountService.cs:365-373 | the loop credits target i its shares, skipping zero pairs |
| Accounts.AccountService.BuildWalletSnapshot | src/Engine.Core/Accounts/AccountService.cs:420-445 | the snapshot of the user's universes, newest first, with their rosters |
| Accounts.AccountService.GetWalletSnapshot | src/Engine.Core/Accounts/AccountService.cs:211-218 | a blank id or unknown user is refused; otherwise the user's wallet snapshot |
| Accounts.AccountService.DepositToCharacter | src/Engine.Core/Accounts/AccountService.cs:241-247 | an unknown character, a missing universe or one owned by another user is refused, changing nothing; otherwise only that character is credited |
| Accounts.AccountService.DepositToUniverse | src/Engine.Core/Accounts/AccountService.cs:249-261 | an unknown or foreign universe is refused; an empty roster is WalletUnavailable; otherwise the grant is split over the roster |
| Accounts.AccountService.DepositToUser | src/Engine.Core/Accounts/AccountService.cs:263-277 | no characters in any universe is WalletUnavailable and changes nothing; otherwise the grant is split over all of them, roster by roster |
| Accounts.AccountService.Deposit | src/Engine.Core/Accounts/AccountService.cs:220-278 | a blank user, then negative grants, then an unknown user (UserNotFound) are refused; a zero/zero grant changes no wallet and returns the snapshot; a character id wins over a universe id, which wins over the whole account; an unknown character is CharacterNotFound and one in a missing or foreign universe UniverseNotFound, an owned one succeeds with only it credited; an unknown or foreign universe is UniverseNotFound, an owned empty roster WalletUnavailable, a non-empty one succeeds with the split; the account-wide deposit is WalletUnavailable exactly for no characters and otherwise succeeds with the split; every refusal changes nothing, and a success returns the new snapshot |
| Accounts.AccountService.TopUpCharacters | src/Engine.Core/Accounts/AccountService.cs:291-299 | the loop computes `TopUpRoster`: each character of the roster is raised to the targets, and one already there is skipped |
| Accounts.AccountService.TopUp | src/Engine.Core/Accounts/AccountService.cs:280-301 | a blank id or unknown user is refused, changing nothing; otherwise every universe's roster is topped up in turn |
| PersistentAccounts.CharacterEntity.constructor | src/Engine.Server/Accounts/PersistentAccountService.cs:567-578 | a tracked row holds exactly the record it was loaded from |
| PersistentAccounts.Records | src/Engine.Server/Accounts/PersistentAccountService.cs:567-578 | ToRecord over a list of entities: one record per entity, in order |
| PersistentAccounts.UpdateCharacterWallet | src/Engine.Server/Accounts/PersistentAccountService.cs:538-544 | the entity's balances become the credited, clamped balances and its other columns stay |
| PersistentAccounts.SettledProperties | src/Engine.Server/Accounts/PersistentAccountService.cs:509-517 | settling keeps both balances in range, never lowers them for non-negative shares, adds each share that fits, and changes no other column |
| PersistentAccounts.DistributeAcrossCharacters | src/Engine.Server/Accounts/PersistentAccountService.cs:499-518 | target i is settled with allocation i of SplitAmount for each currency |
| PersistentAccounts.SettleShares | src/Engine.Server/Accounts/PersistentAccountService.cs:509-517 | the loop settles target i with share i, skipping zero pairs |
| PersistentAccounts.ToppedUpProperties | src/Engine.Server/Accounts/PersistentAccountService.cs:381-386 | the top-up keeps balances in range, never lowers them, and raises each to its target when the target fits |
| PersistentAccounts.TopUpCharacters | src/Engine.Server/Accounts/PersistentAccountService.cs:379-387 | each loaded character becomes its topped-up record |
| PersistentAccounts.Without | src/Engine.Server/Accounts/PersistentAccountService.cs:454 | a key list with one key removed holds exactly the other keys |
| PersistentAccounts.WithoutUnique | src/Engine.Server/Accounts/PersistentAccountService.cs:454 | removing a key keeps a list free of duplicates |
| PersistentAccounts.GroupKeysExact | src/Engine.Server/Accounts/PersistentAccountService.cs:454 | the group keys are distinct and are exactly the folded universe ids of the characters |
| PersistentAccounts.Members | src/Engine.Server/Accounts/PersistentAccountService.cs:454 | a group holds exactly the characters whose universe id folds to its key |
| PersistentAccounts.FindUniverse | src/Engine.Server/Accounts/PersistentAccountService.cs:453-465 | the lookup finds a universe whose id folds to the key, or there is none |
| PersistentAccounts.KeptGroups | src/Engine.Server/Accounts/PersistentAccountService.cs:459-465 | one group per key that has a universe |
| PersistentAccounts.GroupedSnapshotTotals | src/Engine.Server/Accounts/PersistentAccountService.cs:450-480 | each universe total is the sum of its characters, the account total is the sum of the universes and of the characters, and groups without a universe are skipped |
| PersistentAccounts.BuildWalletSnapshot | src/Engine.Server/Accounts/PersistentAccountService.cs:450-480 | the loops build exactly the grouped snapshot of the universes and characters |
| PersistentAccounts.UniverseById | src/Engine.Server/Accounts/PersistentAccountService.cs:416-427 | the first universe with exactly this id, or none has it |
| PersistentAccounts.CharacterById | src/Engine.Server/Accounts/PersistentAccountService.cs:429-440 | the first character with exactly this id, or none has it |
| PersistentAccounts.OwnedUniverses | src/Engine.Server/Accounts/PersistentAccountService.cs:485-488 | exactly the universes stored for the user |
| PersistentAccounts.InUniverse | src/Engine.Server/Accounts/PersistentAccountService.cs:335-338 | exactly the characters of the universe, without repeats |
| PersistentAccounts.OfUser | src/Engine.Server/Accounts/PersistentAccountService.cs:346-350 | exactly the characters whose universe belongs to the user, without repeats |
| PersistentAccounts.InAnyOf | src/Engine.Server/Accounts/PersistentAccountService.cs:489-495 | exactly the characters whose universe is among the listed ones |
| PersistentAccounts.AccountDatabase.constructor | src/Engine.Server/Accounts/PersistentAccountService.cs:36-42 | the database holds exactly the given rows, each character one tracked entity |
| PersistentAccounts.AccountDatabase.SortedRosters | src/Engine.Server/Accounts/PersistentAccountService.cs:278-285 | one newest-first roster per listed universe |
| PersistentAccounts.AccountDatabase.GetWalletSnapshot | src/Engine.Server/Accounts/PersistentAccountService.cs:260-300 | a blank id and an unknown user are refused; otherwise the snapshot of the user's universes, newest first, with their rosters |
| PersistentAccounts.AccountDatabase.Deposit | src/Engine.Server/Accounts/PersistentAccountService.cs:302-360 | a blank user, negative grants and an unknown user are refused in that order; a character id wins over a universe id, which wins over the account; a foreign universe is UniverseNotFound; no targets is WalletUnavailable; every refusal changes no balance; a success returns the regrouped snapshot |
| PersistentAccounts.AccountDatabase.DepositToCharacter | src/Engine.Server/Accounts/PersistentAccountService.cs:319-328 | an unknown character, a missing universe and one the user does not own are refused; otherwise only that character is credited |
| PersistentAccounts.AccountDatabase.DepositToTargets | src/Engine.Server/Accounts/PersistentAccountService.cs:357-359 | no target is WalletUnavailable; otherwise target i is settled with its shares |
| PersistentAccounts.AccountDatabase.TopUp | src/Engine.Server/Accounts/PersistentAccountService.cs:362-390 | a blank id, negative targets and an unknown user are refused, changing nothing; otherwise every character of the user is topped up and no other character changes |
| Text.FirstMatching | src/Engine.Core/Accounts/AccountModule.cs:536-537 | the search shared by the universe, progress and animation lookups: the first position whose key matches ignoring case, or the length when none does |
| AccountViews.FirstWithId | src/Engine.Core/Accounts/AccountModule.cs:536-537 | the position of the first universe whose id matches ignoring case, or the length when none matches |
| AccountViews.Latest | src/Engine.Core/Accounts/AccountModule.cs:544-546 | the position of the first universe with the greatest creation time |
| AccountViews.ResolveActiveUniverse | src/Engine.Core/Accounts/AccountModule.cs:523-547 | no universe only for an empty list; a non-blank requested id that matches selects the first match; otherwise the newest universe |
| AccountViews.ResolveHonoursRequest | src/Engine.Core/Accounts/AccountModule.cs:532-541 | a requested id held by some universe always resolves to a universe with that id |
| AccountViews.ResolveDefaultsToNewest | src/Engine.Core/Accounts/AccountModule.cs:544-546 | without a usable request no universe is newer than the resolved one |
| AccountViews.GenerateUniverseNameInitial | src/Engine.Core/Accounts/AccountModule.cs:549-555 | the suggested name is never blank and starts with A, N or U by count |
| AccountViews.NumberedNameInjective | src/Engine.Core/Accounts/AccountModule.cs:554 | "Universe n" names with different numbers differ |
| AccountViews.GenerateUniverseNameInjective | src/Engine.Core/Accounts/AccountModule.cs:549-555 | different universe counts get different suggested names |
| AccountViews.CountCharacters | src/Engine.Core/Accounts/AccountModule.cs:567-571 | the count is positive exactly when some character's universe id matches ignoring case, and bounded by the list length |
| AccountViews.CountCharactersAppend | src/Engine.Core/Accounts/AccountModule.cs:567-571 | counting over two lists adds the counts |
| AccountViews.TryFindUniverseWallet | src/Engine.Core/Accounts/AccountModule.cs:561-565 | a universe wallet whose id matches ignoring case, or none has one |
| AccountViews.UniverseItems | src/Engine.Core/Accounts/AccountModule.cs:355-390 | an empty list shows the single empty-roster item; otherwise one item per universe with its id, name, character count, and active flag set exactly for the active universe |
| AccountViews.SummarySection | src/Engine.Core/Accounts/AccountModule.cs:314-348 | the summary section carries the summary id |
| AccountViews.UniverseSection | src/Engine.Core/Accounts/AccountModule.cs:350-413 | the universe section carries the universe section id |
| AccountViews.UniverseSectionSelection | src/Engine.Core/Accounts/AccountModule.cs:392-394 | the list allows selection, is never empty, and marks exactly the active universe's items |
| AccountViews.UniverseForm | src/Engine.Core/Accounts/AccountModule.cs:415-447 | the universe form carries the universe form id |
| AccountViews.CharacterSection | src/Engine.Core/Accounts/AccountModule.cs:449-488 | the character section carries its id and is not the empty-roster placeholder |
| AccountViews.CharacterForm | src/Engine.Core/Accounts/AccountModule.cs:490-521 | the character form carries the character form id |
| AccountViews.ViewBlocks | src/Engine.Core/Accounts/AccountModule.cs:284-312 | summary, universe list and universe form come first; then the roster and the creation form when a universe is active, or the empty-roster placeholder when none is |
| AccountViews.BuildViewBlocks | src/Engine.Core/Accounts/AccountModule.cs:284-312 | the list the method builds is exactly ViewBlocks |
| AccountViews.ErrorDocument | src/Engine.Core/Accounts/AccountModule.cs:255-282 | the error panel is one section on the account panel carrying the service's message |
| AccountViews.DescribeModuleViews | src/Engine.Core/Accounts/AccountModule.cs:174-210 | a missing or blank user gets the sign-in document; a failing universe, wallet or roster query gets the error document with its message, in that order; otherwise the account panel with the view blocks, refreshed every 15 seconds |
| AccountViews.RequestedUniverse | src/Engine.Core/Accounts/AccountModule.cs:532-534 | a requested universe exactly when the parameters hold "activeUniverseId" |
| AccountViews.AvatarClipsValid | src/Engine.Core/Accounts/AccountModule.cs:34-40 | the four avatar clips are valid single-frame clips with their durations |
| AccountViews.AvatarClipNamesDistinct | src/Engine.Core/Accounts/AccountModule.cs:34-40 | the clip names are distinct ignoring case |
| AccountViews.AvatarClipNamesPairwise | src/Engine.Core/Accounts/AccountModule.cs:34-40 | no two avatar clips share a name, ignoring case |
| AccountViews.AvatarTextsNotBlank | src/Engine.Core/Accounts/AccountModule.cs:220-222 | the avatar id, path, default animation and asset type are not blank |
| AccountViews.AvatarSpriteBuilt | src/Engine.Core/Accounts/AccountModule.cs:222 | the avatar sprite definition is always built |
| AccountViews.AvatarSpriteShape | src/Engine.Core/Accounts/AccountModule.cs:220-222 | the avatar sprite has its id, path and default clip, one 96 by 96 frame at the origin, and all four clips by name |
| AccountViews.AccountModule.constructor | src/Engine.Core/Accounts/AccountModule.cs:48-55 | a new module holds the given manifest and library and has not registered its sprite |
| AccountViews.AccountModule.RegisterWithSprite | src/Engine.Core/Accounts/AccountModule.cs:220-222 | the asset is stored in the manifest and the single-frame sprite over it in the library, under the asset's id |
| AccountViews.AccountModule.RegisterSpriteAsset | src/Engine.Core/Accounts/AccountModule.cs:212-224 | the first call registers the avatar asset and sprite; later calls change nothing |
| Assets.AssetManifest.constructor | src/Engine.Core/Assets/AssetManifest.cs:13 | a new manifest is empty |
| Assets.AssetManifest.Register | src/Engine.Core/Assets/AssetManifest.cs:15-30 | blank id, type or path are refused in that order, then non-positive dimensions; a success stores the record under the folded id, replacing any earlier one; a refusal changes nothing |
| Assets.AssetManifest.TryGet | src/Engine.Core/Assets/AssetManifest.cs:32 | found exactly when an asset is stored under the folded id, and then that one |
| Assets.AssetManifest.TryGetFiled | src/Engine.Core/Assets/AssetManifest.cs:32 | a found asset is valid and its id matches the requested one ignoring case |
| Assets.AssetManifest.FindByTag | src/Engine.Core/Assets/AssetManifest.cs:34-35 | exactly the stored assets carrying the tag, ignoring case, each once, in the dictionary's enumeration order |
| Assets.TaggedValues | src/Engine.Core/Assets/AssetManifest.cs:34-35 | the Where over the dictionary's values: the tagged records, without repeats, no more than there are assets |
| Assets.OrderedValuesComplete | src/Engine.Core/Assets/AssetManifest.cs:34-35 | filtering the values in key order keeps exactly the tagged records |
| Assets.OrderedValuesDistinct | src/Engine.Core/Assets/AssetManifest.cs:34-35 | records filed under different keys differ, so the filtered values repeat nothing |
| Assets.RegisterThenTryGet | src/Engine.Core/Assets/AssetManifest.cs:28-32 | after a registration, a lookup with a matching id finds the new record and any other lookup is as before |
| Sprites.NewFrameRegion | src/Engine.Core/Rendering/Sprites/SpriteFrameRegion.cs:7-20 | negative index, x or y and non-positive width or height are refused, in that order; otherwise the region as given |
| Sprites.RegionEquals | src/Engine.Core/Rendering/Sprites/SpriteFrameRegion.cs:28-37 | equal exactly when all five fields agree |
| Sprites.RegionDiffers | src/Engine.Core/Rendering/Sprites/SpriteFrameRegion.cs:39 | the inequality operator is the negation of equality, either way round |
| Sprites.NewSheetLayout | src/Engine.Core/Rendering/Sprites/SpriteSheetLayout.cs:8-20 | each non-positive dimension is refused, in declaration order; otherwise the layout, with at least one frame |
| Sprites.GetRegion | src/Engine.Core/Rendering/Sprites/SpriteSheetLayout.cs:28-38 | defined exactly for indices below the frame count; a negative index and one past the end are distinct errors; a region has the frame's size and index |
| Sprites.GetRegionCorner | src/Engine.Core/Rendering/Sprites/SpriteSheetLayout.cs:33-37 | frame i sits at column i mod columns and row i div columns |
| Sprites.RegionInsideSheet | src/Engine.Core/Rendering/Sprites/SpriteSheetLayout.cs:28-38 | every frame lies inside the sheet |
| Sprites.RegionsDistinct | src/Engine.Core/Rendering/Sprites/SpriteSheetLayout.cs:33-37 | different frames have different corners |
| Sprites.FromAsset | src/Engine.Core/Rendering/Sprites/SpriteSheetLayout.cs:40-49 | non-positive frame sizes are refused; otherwise as many whole frames as fit, at least one, per axis |
| Sprites.FromAssetFits | src/Engine.Core/Rendering/Sprites/SpriteSheetLayout.cs:46-47 | for an asset at least one frame wide, the columns fit in it and one more would not |
| Sprites.SingleFrame | src/Engine.Core/Rendering/Sprites/SpriteSheetLayout.cs:51-54 | a positive size gives one frame covering the whole image |
| Sprites.NewAnimationClip | src/Engine.Core/Rendering/Sprites/SpriteAnimationClip.cs:8-23 | a blank name, a non-positive duration and an empty frame list are refused in that order; otherwise the clip as given |
| Sprites.DistinctNamesPairwise | src/Engine.Core/Rendering/Sprites/SpriteDefinition.cs:21 | the clip names are distinct exactly when no two clips share a name ignoring case |
| Sprites.NamesCons | src/Engine.Core/Rendering/Sprites/SpriteDefinition.cs:21 | the folded names of a list are those of its head and tail |
| Sprites.NamesOfDistinct | src/Engine.Core/Rendering/Sprites/SpriteDefinition.cs:21 | distinct clips have as many keys as clips |
| Sprites.AddClipsOk | src/Engine.Core/Rendering/Sprites/SpriteDefinition.cs:21 | building the animation dictionary succeeds exactly when the names are distinct and new |
| Sprites.AddClipsContents | src/Engine.Core/Rendering/Sprites/SpriteDefinition.cs:21 | `AddClips`: the dictionary holds the old entries and every clip under its folded name |
| Sprites.NewSpriteDefinition | src/Engine.Core/Rendering/Sprites/SpriteDefinition.cs:7-33 | blank sprite id, asset id, asset path and default animation are refused in that order; a success keeps the fields and is a valid definition |
| Sprites.AddClipsFromEmpty | src/Engine.Core/Rendering/Sprites/SpriteDefinition.cs:21-30 | the dictionary is built exactly for distinct names, is non-empty exactly for a non-empty list, and holds a name exactly when some clip has it |
| Sprites.NewSpriteDefinitionOk | src/Engine.Core/Rendering/Sprites/SpriteDefinition.cs:7-33 | a definition is built exactly when the texts are not blank, the clip names are distinct, there is a clip, and one is named like the default |
| Sprites.NewSpriteDefinitionClipCount | src/Engine.Core/Rendering/Sprites/SpriteDefinition.cs:21 | a definition has one animation per clip |
| Sprites.TryGetAnimation | src/Engine.Core/Rendering/Sprites/SpriteDefinition.cs:42-45 | found exactly when the folded name is a key, and then a clip of that name |
| Sprites.TryGetAnimationFinds | src/Engine.Core/Rendering/Sprites/SpriteDefinition.cs:21-45 | a built definition finds exactly the clips whose names match, and always finds the default |
| SpriteLibraries.Definition | src/Engine.Core/Rendering/Sprites/SpriteLibrary.cs:37-43 | RegisterInternal's definition over the asset's id and path, or the constructor's refusal |
| SpriteLibraries.SpriteLibrary.constructor | src/Engine.Core/Rendering/Sprites/SpriteLibrary.cs:10-13 | a new library holds the manifest and no definitions |
| SpriteLibraries.SpriteLibrary.GetAsset | src/Engine.Core/Rendering/Sprites/SpriteLibrary.cs:45-53 | an asset missing from the manifest is AssetNotRegistered; otherwise the manifest's record |
| SpriteLibraries.SpriteLibrary.SingleFrameDefinition | src/Engine.Core/Rendering/Sprites/SpriteLibrary.cs:15-21 | a missing asset is refused; a success is one frame of the asset's full size over its id and path |
| SpriteLibraries.SpriteLibrary.SingleFrameAlwaysFits | src/Engine.Core/Rendering/Sprites/SpriteLibrary.cs:18-20 | a registered asset always yields the full-image single-frame layout |
| SpriteLibraries.SpriteLibrary.SheetDefinition | src/Engine.Core/Rendering/Sprites/SpriteLibrary.cs:23-28 | a missing asset is refused; otherwise the definition over the given layout |
| SpriteLibraries.SpriteLibrary.Store | src/Engine.Core/Rendering/Sprites/SpriteLibrary.cs:40-42 | a built definition is stored under the folded sprite id; a refusal changes nothing |
| SpriteLibraries.SpriteLibrary.RegisterSingleFrame | src/Engine.Core/Rendering/Sprites/SpriteLibrary.cs:15-21 | the single-frame definition is returned and stored, and then found by its id; a refusal changes nothing |
| SpriteLibraries.SpriteLibrary.RegisterSheet | src/Engine.Core/Rendering/Sprites/SpriteLibrary.cs:23-28 | the sheet definition is returned and stored, and then found by its id; a refusal changes nothing |
| SpriteLibraries.SpriteLibrary.TryGet | src/Engine.Core/Rendering/Sprites/SpriteLibrary.cs:30-33 | found exactly when stored under the folded id; then a valid definition of that id |
| SpriteLibraries.SpriteLibrary.List | src/Engine.Core/Rendering/Sprites/SpriteLibrary.cs:35 | the listing holds every stored definition, and each listed one is found by its own id |
| SpriteMapping.Milliseconds | src/Engine.Server/Models/Sprites/SpriteResponseFactory.cs:22 | TotalMilliseconds of a duration in ticks: positive for a positive duration and exactly ticks over 10000 |
| SpriteMapping.Frames | src/Engine.Server/Models/Sprites/SpriteResponseFactory.cs:24-34 | succeeds exactly when every index is inside the sheet, then one frame per index with that frame's region; otherwise the error of an index that fails |
| SpriteMapping.FramesGeometry | src/Engine.Server/Models/Sprites/SpriteResponseFactory.cs:25-33 | served frame i is at column and row of its index and lies inside the sheet |
| SpriteMapping.AnimationOf | src/Engine.Server/Models/Sprites/SpriteResponseFactory.cs:19-35 | a clip's response keeps its name and loop flag, has its duration in milliseconds, and succeeds exactly when its frames do |
| SpriteMapping.Animations | src/Engine.Server/Models/Sprites/SpriteResponseFactory.cs:18-36 | one response per clip in enumeration order, failing exactly when some clip's frames fail |
| SpriteMapping.Create | src/Engine.Server/Models/Sprites/SpriteResponseFactory.cs:8-37 | the response copies id, path, frame size and default, holds one animation per clip in enumeration order, and fails exactly when some clip names a frame outside the sheet |
| SpriteMapping.CreateSucceeds | src/Engine.Server/Models/Sprites/SpriteResponseFactory.cs:18-36 | the animations are served exactly when every frame of every clip is inside the sheet |
| SpriteMapping.CreateOnePerClip | src/Engine.Server/Models/Sprites/SpriteResponseFactory.cs:18-36 | each clip of the definition is served exactly once, at its enumeration position |
| SpriteMapping.FirstNamed | src/Engine.Client/Rendering/SpriteAnimationMapper.cs:17-20 | the position of the first animation named like the request, ignoring case, or the length when none is |
| SpriteMapping.FirstNamedFound | src/Engine.Client/Rendering/SpriteAnimationMapper.cs:17-20 | FirstOrDefault finds an animation exactly when one has a matching name |
| SpriteMapping.FirstNamedUnique | src/Engine.Client/Rendering/SpriteAnimationMapper.cs:17-20 | with distinct names, the match found is the only one with that name |
| SpriteMapping.FramesOf | src/Engine.Client/Rendering/SpriteAnimationMapper.cs:34-43 | one descriptor frame per transmitted frame with the same five numbers |
| SpriteMapping.NormalizeAssetPath | src/Engine.Client/Rendering/SpriteAnimationMapper.cs:47-59 | blank becomes empty; an http URL or a rooted path is kept; anything else gets a leading slash; the result is always empty, http or rooted |
| SpriteMapping.NormalizeAssetPathIdempotent | src/Engine.Client/Rendering/SpriteAnimationMapper.cs:47-59 | normalising twice is normalising once |
| SpriteMapping.CreateDescriptor | src/Engine.Client/Rendering/SpriteAnimationMapper.cs:9-45 | no definition gives none; a descriptor copies the sprite id and accent colour, normalises the path, and plays the requested or the default animation |
| SpriteMapping.CreateDescriptorPicks | src/Engine.Client/Rendering/SpriteAnimationMapper.cs:17-24 | the first animation matching the request is picked; failing that the first matching the default; failing both there is no descriptor |
| SpriteMapping.ServedFinds | src/Engine.Client/Rendering/SpriteAnimationMapper.cs:17-18 | on a served definition the client finds the requested clip at the position the server put it |
| SpriteMapping.ServedMisses | src/Engine.Client/Rendering/SpriteAnimationMapper.cs:17-18 | a name with no clip is not found on a served definition |
| SpriteMapping.TransmittedClip | src/Engine.Client/Rendering/SpriteAnimationMapper.cs:26-44 | the descriptor of a transmitted clip carries the clip's name, frames, duration and loop flag |
| SpriteMapping.DescriptorAt | src/Engine.Client/Rendering/SpriteAnimationMapper.cs:17-44 | the descriptor is built from the first animation matching the request, or else the default |
| SpriteMapping.ServedDescriptor | src/Engine.Client/Rendering/SpriteAnimationMapper.cs:9-45 | end to end, the client plays the requested clip of the server's definition when it exists and the default otherwise, with the frames the sheet gives and the duration in milliseconds |
| Statistics.OrdersArePreorders | src/Engine.Core/Statistics/StatisticsService.cs:56-66 | ordering definitions by name and progress by skill id are total preorders |
| Statistics.SkillProgressState.constructor | src/Engine.Core/Statistics/StatisticsService.cs:223-226 | a new progress record has the skill id and no experience or currency |
| Statistics.SkillProgressState.Grant | src/Engine.Core/Statistics/StatisticsService.cs:234-238 | a grant adds the amount to both experience and currency |
| Statistics.SkillProgressState.ToSnapshot | src/Engine.Core/Statistics/StatisticsService.cs:246-250 | the snapshot carries id, experience and currency, and the level of the experience |
| Statistics.FirstProgress | src/Engine.Core/Statistics/StatisticsService.cs:199-200 | the position of the first progress whose skill id matches ignoring case, or the length |
| Statistics.BuildStatisticEntry | src/Engine.Core/Statistics/StatisticsService.cs:197-216 | the entry copies the definition, is active exactly when the active skill matches ignoring case, and shows level 1 with nothing accrued when no progress matches |
| Statistics.BuildStatisticEntryFinds | src/Engine.Core/Statistics/StatisticsService.cs:199-205 | a matching progress that comes first supplies the entry's level, experience and currency |
| Statistics.StatisticsOf | src/Engine.Core/Statistics/StatisticsService.cs:74-90 | one namespace with one category holding one entry per definition in order, and the state's active skill and total |
| Statistics.ArgumentError | src/Engine.Core/Statistics/StatisticsService.cs:38-43 | the first blank argument in the order id, name, description, default animation, accent colour, then a non-positive rate; none exactly when all pass |
| Statistics.StatisticsService.constructor | src/Engine.Core/Statistics/StatisticsService.cs:18-33 | a new service has no definitions or progress, no active skill and no currency |
| Statistics.StatisticsService.Credit | src/Engine.Core/Statistics/StatisticsService.cs:121-122 | GetOrAdd then Grant: an existing record gains the amount, otherwise a fresh one holds it; no other record changes |
| Statistics.StatisticsService.RegisterSkill | src/Engine.Core/Statistics/StatisticsService.cs:35-54 | argument errors first, then a duplicate id; a success stores the definition and adds empty progress unless some is already there; a refusal changes nothing |
| Statistics.StatisticsService.ActivateSkill | src/Engine.Core/Statistics/StatisticsService.cs:93-107 | a blank id and an unregistered one are refused, leaving the active skill; otherwise it becomes active |
| Statistics.StatisticsService.ActiveSkill | src/Engine.Core/Statistics/StatisticsService.cs:114 | the definition of the active skill, when one is set and registered |
| Statistics.StatisticsService.ProcessTick | src/Engine.Core/Statistics/StatisticsService.cs:109-130 | without an active skill nothing changes; otherwise the rate times the elapsed seconds is added to the total and to the skill's progress, created if missing, and nothing else changes |
| Statistics.StatisticsService.SnapshotSkillState | src/Engine.Core/Statistics/StatisticsService.cs:60-70 | one snapshot per progress record, sorted by skill id, each the record's own snapshot, with the active skill and total |
| Statistics.StatisticsService.ListSnapshots | src/Engine.Core/Statistics/StatisticsService.cs:64-66 | one snapshot per progress record |
| Statistics.StatisticsService.ListedSnapshots | src/Engine.Core/Statistics/StatisticsService.cs:64-66 | the listed snapshots are exactly those of the progress map |
| Statistics.StatisticsService.ListSkillDefinitions | src/Engine.Core/Statistics/StatisticsService.cs:56-58 | every definition once, sorted by name |
| Statistics.StatisticsService.EntryValue | src/Engine.Core/Statistics/StatisticsService.cs:199-205 | an entry shows the level, experience and currency of its skill's progress |
| Statistics.StatisticsService.SnapshotStatistics | src/Engine.Core/Statistics/StatisticsService.cs:72-91 | one entry per definition, sorted by name, each active exactly for the active skill and showing that skill's progress |
| Statistics.StatisticsService.EntriesDescribe | src/Engine.Core/Statistics/StatisticsService.cs:75-77 | every entry describes a registered definition and every definition has an entry |
| Statistics.StatisticsService.EntryDescribes | src/Engine.Core/Statistics/StatisticsService.cs:197-216 | the entry of a registered definition is filed under it and shows its progress |
| Leaderboards.RanksTotalPreorder | src/Engine.Core/Multiplayer/InMemoryLeaderboardService.cs:45-68 | the comparer (score descending, then player id ordinal) is a total preorder |
| Leaderboards.RanksEquivalent | src/Engine.Core/Multiplayer/InMemoryLeaderboardService.cs:62-68 | two entries compare equal exactly when they have the same score and player id |
| Leaderboards.Reported | src/Engine.Core/Multiplayer/InMemoryLeaderboardService.cs:10-22 | after a report the board stays ranked and holds the new entry plus every earlier entry of other players |
| Leaderboards.ReportedContents | src/Engine.Core/Multiplayer/InMemoryLeaderboardService.cs:17-18 | RemoveWhere then Add keep exactly the new entry and the other players' entries |
| Leaderboards.ReportedSorted | src/Engine.Core/Multiplayer/InMemoryLeaderboardService.cs:17-18 | the board stays strictly ordered by the comparer, so the set never merges two entries |
| Leaderboards.Top | src/Engine.Core/Multiplayer/InMemoryLeaderboardService.cs:35-41 | Take keeps the first min(take, count) entries, none for a non-positive take, and each of them outranks every entry left out |
| Leaderboards.Leaderboard.constructor | src/Engine.Core/Multiplayer/InMemoryLeaderboardService.cs:7 | a new board is empty |
| Leaderboards.Leaderboard.Report | src/Engine.Core/Multiplayer/InMemoryLeaderboardService.cs:10-22 | the board becomes the reported board |
| Leaderboards.Leaderboard.Snapshot | src/Engine.Core/Multiplayer/InMemoryLeaderboardService.cs:35-41 | the snapshot is the top of the board |
| Leaderboards.ReportedKeepsOnePerPlayer | src/Engine.Core/Multiplayer/InMemoryLeaderboardService.cs:17-18 | after a report, the reporting player has only the new entry |
| Leaderboards.HigherScoreLeads | src/Engine.Core/Multiplayer/InMemoryLeaderboardService.cs:10-41 | reporting Alpha at 10000 then Beta at 12000 puts Beta first |
| Sessions.SessionState.constructor | src/Engine.Core/Multiplayer/MultiplayerSessionService.cs:91-95 | a new session has its name and creation time and no players |
| Sessions.SessionState.Join | src/Engine.Core/Multiplayer/MultiplayerSessionService.cs:101-107 | the player joins, ignoring case |
| Sessions.SessionState.Leave | src/Engine.Core/Multiplayer/MultiplayerSessionService.cs:109-115 | the player leaves, ignoring case |
| Sessions.SessionState.Describe | src/Engine.Core/Multiplayer/MultiplayerSessionService.cs:117-123 | the descriptor carries the id, name, creation time and player count; the count is zero exactly when nobody has joined |
| Sessions.BusierFirstTotalPreorder | src/Engine.Core/Multiplayer/MultiplayerSessionService.cs:73-74 | more players first, then newer first, is a total preorder |
| Sessions.SessionService.constructor | src/Engine.Core/Multiplayer/MultiplayerSessionService.cs:11 | a new service has no sessions |
| Sessions.SessionService.CreateSession | src/Engine.Core/Multiplayer/MultiplayerSessionService.cs:13-21 | a blank name is refused; an existing id returns that session unchanged; otherwise a fresh empty session is added and described |
| Sessions.SessionService.JoinSession | src/Engine.Core/Multiplayer/MultiplayerSessionService.cs:23-36 | blank ids are refused; otherwise true exactly when the session exists, and only that session gains the player |
| Sessions.SessionService.LeaveSession | src/Engine.Core/Multiplayer/MultiplayerSessionService.cs:38-52 | true exactly when the session exists; the player leaves it, and a session left empty is removed; no other session changes |
| Sessions.SessionService.Snapshot | src/Engine.Core/Multiplayer/MultiplayerSessionService.cs:64-77 | min(take, count) descriptors of live sessions, none for a non-positive take, busiest first, each ahead of every one left out |
| Sessions.SessionService.ListDescriptors | src/Engine.Core/Multiplayer/MultiplayerSessionService.cs:71-72 | one descriptor per session |
| ModuleCatalogs.Registered | src/Engine.Core/Contracts/ModuleCatalog.cs:10-18 | the new descriptor comes last after the others in their order, any earlier one with its name is dropped, and names stay unique |
| ModuleCatalogs.KeepsUniqueNames | src/Engine.Core/Contracts/ModuleCatalog.cs:15-16 | RemoveAll then Add keep names unique |
| ModuleCatalogs.RegisterNewName | src/Engine.Core/Contracts/ModuleCatalog.cs:15-16 | a new name is appended |
| ModuleCatalogs.RegisterIdempotent | src/Engine.Core/Contracts/ModuleCatalog.cs:10-18 | registering the same descriptor twice is registering it once |
| ModuleCatalogs.ModuleCatalog.constructor | src/Engine.Core/Contracts/ModuleCatalog.cs:7 | a new catalog is empty |
| ModuleCatalogs.ModuleCatalog.Register | src/Engine.Core/Contracts/ModuleCatalog.cs:10-18 | the list becomes the registered list |
| ModuleCatalogs.ModuleCatalog.List | src/Engine.Core/Contracts/ModuleCatalog.cs:20-26 | the list, in registration order, with unique names |
| ViewCatalogs.CatalogOrdersArePreorders | src/Engine.Core/Presentation/ModuleViewCatalog.cs:45-49 | the zone, order, title orderings of both catalogs are total preorders |
| ViewCatalogs.SomesContents | src/Engine.Core/Presentation/ModuleViewCatalog.cs:37 | dropping null documents keeps exactly the present ones |
| ViewCatalogs.CollectedContents | src/Engine.Core/Presentation/ModuleViewCatalog.cs:29-38 | the collected documents are exactly the present documents of answering providers |
| ViewCatalogs.Arranged | src/Engine.Core/Presentation/ModuleViewCatalog.cs:20-50 | the listing is a permutation of the collected documents, sorted by zone, order and title, and stable among equals |
| ViewCatalogs.ListDocuments | src/Engine.Core/Presentation/ModuleViewCatalog.cs:20-50 | the loop's listing is exactly the arranged one |
| ViewCatalogs.ZoneOrderExample | src/Engine.Core/Presentation/ModuleViewCatalog.cs:45-49 | hero, primary and secondary documents from two providers come out in zone order |
| ViewCatalogs.ExampleCollected | src/Engine.Core/Presentation/ModuleViewCatalog.cs:29-38 | the example's documents are collected provider by provider |
| ViewCatalogs.ExampleSorted | src/Engine.Core/Presentation/ModuleViewCatalog.cs:45-49 | sorting the example puts hero first, then stats, then the board |
| ViewCatalogs.SortReversesThree | src/Engine.Core/Presentation/ModuleViewCatalog.cs:45-49 | three strictly descending items sort into reverse order |
| ViewCatalogs.SortReversesTwo | src/Engine.Core/Presentation/ModuleViewCatalog.cs:45-49 | two strictly descending items sort into reverse order |
| ViewCatalogs.ExampleRanks | src/Engine.Core/Presentation/ModuleViewCatalog.cs:46 | the example's zones are strictly ordered |
| ViewCatalogs.FlattenContents | src/Engine.Core/Presentation/DashboardViewCatalog.cs:15-16 | SelectMany keeps exactly the descriptors of every provider |
| ViewCatalogs.Panels | src/Engine.Core/Presentation/DashboardViewCatalog.cs:12-21 | the panels are a permutation of all providers' descriptors, sorted by zone, order and title, stable among equals |
| Rendering.Violation | src/Engine.Core/Rendering/RenderSettingsValidator.cs:12-36 | frame rate, scale, density and tier are checked in that order and the first failure is reported; no failure exactly when every bound holds |
| Rendering.TierIgnoresCase | src/Engine.Core/Rendering/RenderSettingsValidator.cs:5-10 | a tier that differs from a recognised one only in case is recognised |
| Rendering.PresetsAreValid | src/Engine.Core/Rendering/RenderSettings.cs:10-12 | the three presets pass the validator |
| Rendering.OutOfBoundsSamplesFail | src/Engine.Core/Rendering/RenderSettingsValidator.cs:15-33 | a low frame rate, a large scale, a high density and an unknown tier each fail on their own check |
| Rendering.RenderSettingsStore.constructor | src/Engine.Core/Rendering/RenderSettingsStore.cs:5 | a new store holds Balanced |
| Rendering.RenderSettingsStore.Current | src/Engine.Core/Rendering/RenderSettingsStore.cs:8-17 | the settings in force always pass the validator and are the last accepted ones, or Balanced |
| Rendering.RenderSettingsStore.Update | src/Engine.Core/Rendering/RenderSettingsStore.cs:19-27 | rejected settings return the validator's error and leave the store alone; accepted settings are stored and returned |
| DeveloperProfiles.NewerFirstIsPreorder | src/Engine.Core/DeveloperTools/DeveloperProfileStore.cs:65-66 | newest first is a total preorder |
| DeveloperProfiles.DeveloperProfileStore.constructor | src/Engine.Core/DeveloperTools/DeveloperProfileStore.cs:25-29 | a store without storage starts empty |
| DeveloperProfiles.DeveloperProfileStore.GetOrCreate | src/Engine.Core/DeveloperTools/DeveloperProfileStore.cs:31-36 | a blank id is refused; an existing profile is returned unchanged; otherwise an empty profile stamped now is added; the result is then found by the id |
| DeveloperProfiles.DeveloperProfileStore.Upsert | src/Engine.Core/DeveloperTools/DeveloperProfileStore.cs:38-46 | a blank id is refused; otherwise a profile with the state, stamped now, replaces any earlier one |
| DeveloperProfiles.DeveloperProfileStore.TryDelete | src/Engine.Core/DeveloperTools/DeveloperProfileStore.cs:48-57 | true exactly when a profile was stored under the id, which is then gone; a blank id never removes anything |
| DeveloperProfiles.DeveloperProfileStore.Clear | src/Engine.Core/DeveloperTools/DeveloperProfileStore.cs:59-63 | the store becomes empty |
| DeveloperProfiles.DeveloperProfileStore.Find | src/Engine.Core/DeveloperTools/DeveloperProfileStore.cs:15 | found exactly when stored under the folded id, and then with a matching non-blank id |
| DeveloperProfiles.DeveloperProfileStore.List | src/Engine.Core/DeveloperTools/DeveloperProfileStore.cs:65-66 | every profile once, newest first, each found by its own id |
| Sessions.LifecycleRemovesEmptySession | src/Engine.Core/Multiplayer/MultiplayerSessionService.cs:13-52 | creating a session, joining one player and leaving again answers true twice and leaves no session |
| Sessions.JoinMissingSession | src/Engine.Core/Multiplayer/MultiplayerSessionService.cs:29-35 | joining a session id that does not exist answers false |

## Left out

- HTTP endpoints, SignalR, the client's HTTP services, the Blazor UI and the JavaScript render loop: I/O and foreign frameworks.
- Database access in the persistent account service: queries, `SaveChangesAsync` and the EF Core entities.
  - The rows are given to `PersistentAccounts.AccountDatabase` as loaded. Only the wallet flows over them are modelled: snapshot, deposit and top-up.
  - Its RegisterUserAsync, AuthenticateAsync, ListUniversesAsync, CreateUniverseAsync, ListCharactersAsync, CreateCharacterAsync and ClearAsync are not modelled. They run the same checks as the in-memory service, which is modelled, against database rows, but store the trimmed, not the normalised, email address.
- Password hashing and login:
  - PBKDF2 and SHA-256, the salt generator, `FixedTimeEquals` and `AuthenticateAsync` are not modelled.
  - Generated ids are parameters, with freshness required. The id-collision retry loop in RegisterUserAsync is therefore not modelled.
  - Asset content hashes and session ids are parameters.
- Simple lookups and resets of the in-memory account service are not modelled: GetUserAsync, ListUsersAsync, GetUniverseAsync, ClearAsync and SnapshotRules. `StartNewCharacterAsync` is `CreateCharacter` without a sprite.
- JSON and file I/O: StatisticsService RestoreState/PersistState, DeveloperProfileStore LoadFromDisk/Persist, and equipment (de)serialisation. The developer profile store is modelled without a storage path.
- Concurrency:
  - Locks, `ConcurrentDictionary` and the rulebook's compare-and-swap retry loop become sequential updates.
  - `async`/`await` and cancellation become plain calls.
  - `StreamTopAsync` and `ListSessionsAsync` stream the same data that `Snapshot` and `ListDescriptors` return, so the streaming versions are not modelled.
- Timing: RunContinuouslyAsync's delay and drift compensation, and the Stopwatch elapsed time in tick telemetry. Telemetry records the tick index and consumer count.
- Floating point: reals have no rounding.
  - `TickRate` does model NaN and infinities, as a `Double` datatype.
  - `Rendering.Violation`: a NaN resolution scale, which the validator lets through because every comparison with NaN is false, is not representable.
  - Statistics: `ProcessTick` computes the award exactly.
- Text comparison:
  - Case folding is ASCII only.
  - Culture-sensitive comparisons are modelled as ordinal: the name ordering in ListSkillDefinitions and the zone ordering of the dashboard view catalog.
  - Whitespace is a fixed set of characters.
  - Text.OrdinalLess compares Unicode scalar values, while String.CompareOrdinal compares UTF-16 code units. The two orders differ between a character outside the Basic Multilingual Plane and one in U+E000–U+FFFF.
- Null arguments (`ArgumentNullException`) are not modelled, because a Dafny value cannot be null. Nulls with other behaviour are `Option`: a missing definition, or a provider answering null.
- `SkillFormulas.CalculateLevel` is a parameter `level: real -> int`.
- Formatting: `TickRateProfile` labels (`x{speed:0.##}`) are kept as the speed they show. The view model drops "N0" number formatting, styles, icons and colours. It keeps numbers, not the texts built from them.
  - AccountViews.UniverseItems: drops the creation date (local time, "MMM d · HH:mm"), the "base · shards" description of each row and the description of the placeholder row. The wallet it stands for is kept.
  - AccountViews.UniverseForm: drops the field's input type and placeholder and the form's description. The "Limit … universes per pilot." text is kept as the limit it shows.
  - AccountViews.CharacterForm: drops the same texts. The "Limit … characters per universe." text is kept as the limit.
  - AccountViews.CharacterSection: drops each character's creation date ("MMM d, yyyy"). The "base" text and the "Shards" badge are kept as the two currency amounts.
  - AccountViews.SummarySection: the wallet metric's "shards" text is kept as the premium amount.
- Sprites.AddClips: a clip object listed twice is accepted by the source and refused here. The source builds the dictionary with ToImmutableDictionary, which accepts a repeated key when its value is the same. SpriteAnimationClip is a sealed class compared by reference, so one object listed twice gives a repeated key with the same value. Clips here are values, which cannot tell one object listed twice from two clips with the same name, so every repeated name is refused.
- Sprites.AddClipsOk: a clip object listed twice is accepted by the source and refused here. The source builds the dictionary with ToImmutableDictionary, which accepts a repeated key when its value is the same. SpriteAnimationClip is a sealed class compared by reference, so one object listed twice gives a repeated key with the same value. Clips here are values, which cannot tell one object listed twice from two clips with the same name, so every repeated name is refused.
- Sprites.AddClipsFromEmpty: a clip object listed twice is accepted by the source and refused here. The source builds the dictionary with ToImmutableDictionary, which accepts a repeated key when its value is the same. SpriteAnimationClip is a sealed class compared by reference, so one object listed twice gives a repeated key with the same value. Clips here are values, which cannot tell one object listed twice from two clips with the same name, so every repeated name is refused.
- Sprites.NewSpriteDefinition: a clip object listed twice is accepted by the source and refused here. The source builds the dictionary with ToImmutableDictionary, which accepts a repeated key when its value is the same. SpriteAnimationClip is a sealed class compared by reference, so one object listed twice gives a repeated key with the same value. Clips here are values, which cannot tell one object listed twice from two clips with the same name, so every repeated name is refused.
- Sprites.NewSpriteDefinitionOk: a clip object listed twice is accepted by the source and refused here. The source builds the dictionary with ToImmutableDictionary, which accepts a repeated key when its value is the same. SpriteAnimationClip is a sealed class compared by reference, so one object listed twice gives a repeated key with the same value. Clips here are values, which cannot tell one object listed twice from two clips with the same name, so every repeated name is refused.
- Sprites.NewSpriteDefinitionClipCount: a clip object listed twice is accepted by the source and refused here. The source builds the dictionary with ToImmutableDictionary, which accepts a repeated key when its value is the same. SpriteAnimationClip is a sealed class compared by reference, so one object listed twice gives a repeated key with the same value. Clips here are values, which cannot tell one object listed twice from two clips with the same name, so every repeated name is refused.
- PersistentAccounts.FindUniverse: takes the first universe whose id folds to the key. The source's `ToDictionary(u => u.Id, OrdinalIgnoreCase)` (src/Engine.Server/Accounts/PersistentAccountService.cs:453) throws when two of a user's universe ids differ only in case. Generated ids make this unlikely, and the model does not refuse it.
- Sprites.GetRegion: `TotalFrames` is `columns * rows` without 32-bit overflow, and so are the region coordinates.
- Module wiring: CheckHealthAsync and Describe of every module, and the rulebook-forwarding properties of the account module. Also the account module's SeedDemoUserAsync, ListPilotsAsync, ResetAsync and DescribeViews.
- Module views: reflection-based module exploration, StatisticsModule and DiagnosticsModule. `ModuleViewContext` is reduced to the user id and parameters that the account module reads.
- AccountViews.AccountModule.RegisterSpriteAsset: the once-flag is set before the two registrations. This is unobservable, because the registrations cannot fail for the avatar asset.

## Findings

| source | as written | input that shows it | evidently intended | confidence | as-written member | corrected member |
|---|---|---|---|---|---|---|
| src/Engine.Core/Resources/ResourceGraph.cs:22-23 | `UpsertNode` stores the definition, then calls `Clamp`; `Math.Clamp` throws when Minimum > Capacity, so the node has a definition but no stock | `NodeDefinition("ore", capacity 10, generation 0, minimum 20)` upserted into an empty graph | refuse the definition and leave the graph unchanged | not executed | Resources.UpsertNodeAsWritten, Resources.UpsertNodeAsWrittenDesynchronises | Resources.ResourceGraph.UpsertNode |
| src/Engine.Core/Accounts/AccountService.cs:396-397 | `record.BaseCurrency + baseDelta` is a `long` sum in an unchecked context, so a huge grant wraps negative before the clamp; the same applies to the persistent service (src/Engine.Server/Accounts/PersistentAccountService.cs:540-541) | a character with 1 250 base currency granted `long.MaxValue` ends with 0 | clamp to the maximum, 10 000 000 000 | not executed | Wallet.CreditAsWritten, Wallet.CreditAsWrittenLosesBalance | Wallet.Credit, Wallet.CreditProperties |
| src/Engine.Core/Accounts/AccountService.cs:292-297 | `TopUpUserWalletAsync` never checks its targets, and computes `baseCurrency - character.BaseCurrency` and then the credit as unchecked `long` arithmetic; the persistent service refuses negative targets, so only the in-memory service is affected | target long.MinValue for a character with 1 250 base currency: the shortfall wraps to 2^63 − 1 250, the credit wraps to long.MinValue, and the clamp leaves 0 | a top-up never lowers a balance | not executed | Wallet.TopUpAsWritten, Wallet.TopUpAsWrittenEmpties | Wallet.TopUpDelta, Wallet.TopUpReachesTarget |

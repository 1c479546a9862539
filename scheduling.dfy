/** The fixed-timestep tick scheduler: consumers registered in priority buckets and invoked,
    once per tick, in ascending priority and then registration order. */
module Scheduling {
  import opened Wrappers
  import opened Text

  /** One entry of the sorted registration table: a priority and its consumers' ids in
      registration order. */
  datatype Bucket = Bucket(priority: int, consumers: seq<string>)

  /** The context handed to every consumer during one tick (durations and times in ticks). */
  datatype TickContext = TickContext(tickIndex: int, tickDuration: int, absoluteTime: int)

  /** What a tick makes observable, in order: each consumer's OnTick call, then the
      TickExecuted event (the elapsed wall-clock time that event also carries is not modelled). */
  datatype Event =
    | Invoked(consumerId: string, context: TickContext)
    | TickExecuted(tickIndex: int, consumerCount: nat)

  /** A consumer id together with the priority it was registered at. */
  datatype Entry = Entry(priority: int, id: string)

  datatype SchedulerError =
    | NonPositiveTickDuration
    | DuplicateConsumer
    | BlankConsumerId
    | NonPositiveTickCount

  /** Every consumer id, bucket by bucket. */
  function Ids(buckets: seq<Bucket>): seq<string>
  {
    if buckets == [] then [] else buckets[0].consumers + Ids(buckets[1..])
  }

  /** Every consumer with its priority, bucket by bucket. */
  function Entries(buckets: seq<Bucket>): seq<Entry>
  {
    if buckets == [] then []
    else
      var b := buckets[0];
      seq(|b.consumers|, i requires 0 <= i < |b.consumers| => Entry(b.priority, b.consumers[i])) + Entries(buckets[1..])
  }

  /** No id occurs twice: each is absent from the rest of the list. */
  predicate Unique(s: seq<string>)
  {
    s == [] || (s[0] !in s[1..] && Unique(s[1..]))
  }

  /** In a list without repeats every id occurs at most once. */
  lemma {:induction false} UniqueCount(s: seq<string>, x: string)
    requires Unique(s)
    ensures multiset(s)[x] <= 1
  {
    if s != [] {
      assert s == [s[0]] + s[1..];
      UniqueCount(s[1..], x);
      if x == s[0] {
        assert x !in multiset(s[1..]);
      }
    }
  }

  /** A list in which every id occurs at most once has no repeats. */
  lemma {:induction false} CountUnique(s: seq<string>)
    requires forall x | x in s :: multiset(s)[x] <= 1
    ensures Unique(s)
  {
    if s != [] {
      assert s == [s[0]] + s[1..];
      assert multiset(s) == multiset{s[0]} + multiset(s[1..]);
      assert s[0] !in multiset(s[1..]) by {
        assert multiset(s)[s[0]] <= 1;
      }
      forall x | x in s[1..]
        ensures multiset(s[1..])[x] <= 1
      {
        assert x in s;
      }
      CountUnique(s[1..]);
    }
  }

  /** Priorities strictly ascending, as the sorted dictionary enumerates them. */
  predicate Ordered(buckets: seq<Bucket>)
  {
    forall i, j :: 0 <= i < j < |buckets| ==> buckets[i].priority < buckets[j].priority
  }

  /** The table invariant: ordered buckets, none empty, no id twice. */
  predicate Table(buckets: seq<Bucket>)
  {
    Ordered(buckets) && NonEmpty(buckets) && Unique(Ids(buckets))
  }

  predicate NonEmpty(buckets: seq<Bucket>)
  {
    forall i :: 0 <= i < |buckets| ==> buckets[i].consumers != []
  }

  /** The consumers registered at a priority, in registration order. */
  function ConsumersAt(buckets: seq<Bucket>, priority: int): seq<string>
  {
    if buckets == [] then []
    else if buckets[0].priority == priority then buckets[0].consumers
    else ConsumersAt(buckets[1..], priority)
  }

  lemma {:induction false} IdsAppend(a: seq<Bucket>, b: seq<Bucket>)
    ensures Ids(a + b) == Ids(a) + Ids(b)
  {
    if a == [] {
      assert a + b == b;
    } else {
      assert (a + b)[1..] == a[1..] + b;
      IdsAppend(a[1..], b);
    }
  }

  lemma IdsOfOne(b: Bucket)
    ensures Ids([b]) == b.consumers
  {
    assert [b][1..] == [];
  }

  /** The ids of the entries are the ids of the table, position by position. */
  lemma {:induction false} EntriesMatchIds(buckets: seq<Bucket>)
    ensures |Entries(buckets)| == |Ids(buckets)|
    ensures forall i :: 0 <= i < |Ids(buckets)| ==> Entries(buckets)[i].id == Ids(buckets)[i]
  {
    if buckets != [] {
      EntriesMatchIds(buckets[1..]);
    }
  }

  /** Every entry of a table carries the priority of one of its buckets. */
  lemma {:induction false} EntriesFromBuckets(buckets: seq<Bucket>, i: nat)
    requires i < |Entries(buckets)|
    ensures exists k :: 0 <= k < |buckets| && Entries(buckets)[i].priority == buckets[k].priority
  {
    var b := buckets[0];
    if i < |b.consumers| {
      assert Entries(buckets)[i].priority == buckets[0].priority;
    } else {
      EntriesFromBuckets(buckets[1..], i - |b.consumers|);
      var k :| 0 <= k < |buckets[1..]| && Entries(buckets[1..])[i - |b.consumers|].priority == buckets[1..][k].priority;
      assert Entries(buckets)[i].priority == buckets[k + 1].priority;
    }
  }

  /** Enumeration order is ascending priority: no entry comes after one of higher priority. */
  lemma {:induction false} EntriesInPriorityOrder(buckets: seq<Bucket>)
    requires Ordered(buckets)
    ensures forall i, j :: 0 <= i < j < |Entries(buckets)| ==> Entries(buckets)[i].priority <= Entries(buckets)[j].priority
  {
    if buckets != [] {
      var b, rest := buckets[0], buckets[1..];
      var head := seq(|b.consumers|, i requires 0 <= i < |b.consumers| => Entry(b.priority, b.consumers[i]));
      assert Ordered(rest);
      EntriesInPriorityOrder(rest);
      assert Entries(buckets) == head + Entries(rest);
      forall j | 0 <= j < |Entries(rest)| ensures b.priority < Entries(rest)[j].priority {
        EntriesFromBuckets(rest, j);
      }
    }
  }

  /** Appending a consumer at a priority: to the end of that bucket, or to a new bucket at
      its place in priority order. */
  function AddConsumer(buckets: seq<Bucket>, priority: int, id: string): (r: seq<Bucket>)
  {
    if buckets == [] then [Bucket(priority, [id])]
    else if buckets[0].priority == priority then [Bucket(priority, buckets[0].consumers + [id])] + buckets[1..]
    else if buckets[0].priority > priority then [Bucket(priority, [id])] + buckets
    else [buckets[0]] + AddConsumer(buckets[1..], priority, id)
  }

  /** Adding puts exactly one more occurrence of the id into the table. */
  lemma {:induction false} AddConsumerIds(buckets: seq<Bucket>, priority: int, id: string)
    ensures multiset(Ids(AddConsumer(buckets, priority, id))) == multiset(Ids(buckets)) + multiset{id}
  {
    var r := AddConsumer(buckets, priority, id);
    if buckets == [] {
      IdsOfOne(Bucket(priority, [id]));
    } else if buckets[0].priority == priority {
      var b := Bucket(priority, buckets[0].consumers + [id]);
      assert r == [b] + buckets[1..];
      assert r[0] == b && r[1..] == buckets[1..];
      assert Ids(r) == buckets[0].consumers + [id] + Ids(buckets[1..]);
    } else if buckets[0].priority > priority {
      assert r[0] == Bucket(priority, [id]) && r[1..] == buckets;
      assert Ids(r) == [id] + Ids(buckets);
    } else {
      AddConsumerIds(buckets[1..], priority, id);
      assert r[0] == buckets[0] && r[1..] == AddConsumer(buckets[1..], priority, id);
    }
  }

  /** Adding above a bound keeps every priority above it. */
  lemma {:induction false} AddConsumerAbove(buckets: seq<Bucket>, priority: int, id: string, bound: int)
    requires forall k :: 0 <= k < |buckets| ==> buckets[k].priority > bound
    requires priority > bound
    ensures forall k :: 0 <= k < |AddConsumer(buckets, priority, id)| ==> AddConsumer(buckets, priority, id)[k].priority > bound
  {
    var r := AddConsumer(buckets, priority, id);
    if buckets != [] && buckets[0].priority < priority {
      AddConsumerAbove(buckets[1..], priority, id, bound);
      assert forall k :: 1 <= k < |r| ==> r[k] == AddConsumer(buckets[1..], priority, id)[k - 1];
    } else if buckets != [] && buckets[0].priority == priority {
      assert forall k :: 0 <= k < |r| ==> r[k].priority == buckets[k].priority;
    } else if buckets != [] {
      assert forall k :: 1 <= k < |r| ==> r[k] == buckets[k - 1];
    }
  }

  /** Adding keeps the priorities strictly ascending. */
  lemma {:induction false} AddConsumerOrdered(buckets: seq<Bucket>, priority: int, id: string)
    requires Ordered(buckets)
    ensures Ordered(AddConsumer(buckets, priority, id))
  {
    var r := AddConsumer(buckets, priority, id);
    if buckets == [] {
    } else if buckets[0].priority == priority {
      assert forall k :: 0 <= k < |r| ==> r[k].priority == buckets[k].priority;
    } else if buckets[0].priority > priority {
      assert forall k :: 1 <= k < |r| ==> r[k] == buckets[k - 1];
    } else {
      var rest := AddConsumer(buckets[1..], priority, id);
      AddConsumerOrdered(buckets[1..], priority, id);
      AddConsumerAbove(buckets[1..], priority, id, buckets[0].priority);
      assert forall k :: 1 <= k < |r| ==> r[k] == rest[k - 1];
    }
  }

  /** Adding leaves no bucket empty. */
  lemma {:induction false} AddConsumerNonEmpty(buckets: seq<Bucket>, priority: int, id: string)
    requires NonEmpty(buckets)
    ensures NonEmpty(AddConsumer(buckets, priority, id))
  {
    var r := AddConsumer(buckets, priority, id);
    if buckets == [] {
    } else if buckets[0].priority == priority {
      assert forall k :: 1 <= k < |r| ==> r[k] == buckets[k];
    } else if buckets[0].priority > priority {
      assert forall k :: 1 <= k < |r| ==> r[k] == buckets[k - 1];
    } else {
      AddConsumerNonEmpty(buckets[1..], priority, id);
      assert forall k :: 1 <= k < |r| ==> r[k] == AddConsumer(buckets[1..], priority, id)[k - 1];
    }
  }

  /** A priority below every bucket's has no consumers. */
  lemma {:induction false} ConsumersAtAbove(buckets: seq<Bucket>, priority: int)
    requires forall k :: 0 <= k < |buckets| ==> buckets[k].priority > priority
    ensures ConsumersAt(buckets, priority) == []
  {
    if buckets != [] {
      ConsumersAtAbove(buckets[1..], priority);
    }
  }

  /** The id joins the end of its priority's consumers; every other priority keeps its own. */
  lemma {:induction false} AddConsumerAt(buckets: seq<Bucket>, priority: int, id: string)
    requires Ordered(buckets)
    ensures ConsumersAt(AddConsumer(buckets, priority, id), priority) == ConsumersAt(buckets, priority) + [id]
    ensures forall p :: p != priority ==> ConsumersAt(AddConsumer(buckets, priority, id), p) == ConsumersAt(buckets, p)
  {
    var r := AddConsumer(buckets, priority, id);
    if buckets == [] {
      assert r[1..] == [];
    } else if buckets[0].priority == priority {
      assert r[1..] == buckets[1..];
    } else if buckets[0].priority > priority {
      assert r[1..] == buckets;
      ConsumersAtAbove(buckets, priority);
    } else {
      assert r[1..] == AddConsumer(buckets[1..], priority, id);
      AddConsumerAt(buckets[1..], priority, id);
    }
  }

  /** What RegisterConsumer does to a table: the id joins the end of its priority's bucket,
      every other priority keeps its consumers, the ids gain exactly that one, and a table
      stays a table. */
  lemma AddConsumerEffect(buckets: seq<Bucket>, priority: int, id: string)
    requires Table(buckets) && id !in Ids(buckets)
    ensures Table(AddConsumer(buckets, priority, id))
    ensures ConsumersAt(AddConsumer(buckets, priority, id), priority) == ConsumersAt(buckets, priority) + [id]
    ensures forall p :: p != priority ==> ConsumersAt(AddConsumer(buckets, priority, id), p) == ConsumersAt(buckets, p)
    ensures multiset(Ids(AddConsumer(buckets, priority, id))) == multiset(Ids(buckets)) + multiset{id}
  {
    AddConsumerIds(buckets, priority, id);
    var ids := Ids(AddConsumer(buckets, priority, id));
    forall x | x in ids
      ensures multiset(ids)[x] <= 1
    {
      UniqueCount(Ids(buckets), x);
    }
    CountUnique(ids);
    AddConsumerOrdered(buckets, priority, id);
    AddConsumerNonEmpty(buckets, priority, id);
    AddConsumerAt(buckets, priority, id);
  }

  /** The list with every occurrence of the id removed (List.RemoveAll); the length drops by
      the number removed. */
  function Without(s: seq<string>, id: string): (r: seq<string>)
    ensures multiset(r) == multiset(s)[id := 0]
    ensures |r| + multiset(s)[id] == |s|
  {
    if s == [] then []
    else
      assert s == [s[0]] + s[1..];
      if s[0] == id then Without(s[1..], id)
      else [s[0]] + Without(s[1..], id)
  }

  lemma {:induction false} WithoutAppend(a: seq<string>, b: seq<string>, id: string)
    ensures Without(a + b, id) == Without(a, id) + Without(b, id)
  {
    if a == [] {
      assert a + b == b;
    } else {
      assert (a + b)[0] == a[0] && (a + b)[1..] == a[1..] + b;
      WithoutAppend(a[1..], b, id);
    }
  }

  lemma {:induction false} WithoutAbsent(s: seq<string>, id: string)
    requires id !in s
    ensures Without(s, id) == s
  {
    if s != [] {
      WithoutAbsent(s[1..], id);
      assert s == [s[0]] + s[1..];
    }
  }

  /** The table after UnregisterConsumer: the first bucket, in priority order, that holds the
      id loses it, and is dropped when nothing is left in it. */
  function RemoveConsumer(buckets: seq<Bucket>, id: string): seq<Bucket>
  {
    if buckets == [] then []
    else if id in buckets[0].consumers then
      var rest := Without(buckets[0].consumers, id);
      if rest == [] then buckets[1..] else [Bucket(buckets[0].priority, rest)] + buckets[1..]
    else [buckets[0]] + RemoveConsumer(buckets[1..], id)
  }

  /** A table without the id is left as it is. */
  lemma {:induction false} RemoveAbsent(buckets: seq<Bucket>, id: string)
    requires forall k :: 0 <= k < |buckets| ==> id !in buckets[k].consumers
    ensures RemoveConsumer(buckets, id) == buckets
    ensures id !in Ids(buckets)
  {
    if buckets != [] {
      RemoveAbsent(buckets[1..], id);
    }
  }

  /** Buckets before the first one holding the id are kept as they are. */
  lemma {:induction false} RemoveSkips(buckets: seq<Bucket>, id: string, i: nat)
    requires i <= |buckets|
    requires forall k :: 0 <= k < i ==> id !in buckets[k].consumers
    ensures RemoveConsumer(buckets, id) == buckets[..i] + RemoveConsumer(buckets[i..], id)
  {
    if i == 0 {
      assert buckets[..0] == [] && buckets[0..] == buckets;
    } else {
      var tail := buckets[1..];
      RemoveSkips(tail, id, i - 1);
      assert tail[..i - 1] == buckets[1..i] && tail[i - 1..] == buckets[i..];
      assert buckets[..i] == [buckets[0]] + buckets[1..i];
      AppendAssoc([buckets[0]], buckets[1..i], RemoveConsumer(buckets[i..], id));
    }
  }

  /** An id held by some bucket is among the table's ids. */
  lemma {:induction false} HeldIsListed(buckets: seq<Bucket>, id: string, i: nat)
    requires i < |buckets| && id in buckets[i].consumers
    ensures id in Ids(buckets)
  {
    if i > 0 {
      HeldIsListed(buckets[1..], id, i - 1);
    }
  }

  /** When bucket i is the first to hold the id, unregistering edits that bucket alone. */
  lemma RemoveAtFirst(buckets: seq<Bucket>, id: string, i: nat)
    requires i < |buckets| && id in buckets[i].consumers
    requires forall k :: 0 <= k < i ==> id !in buckets[k].consumers
    ensures var rest := Without(buckets[i].consumers, id);
            RemoveConsumer(buckets, id)
            == buckets[..i] + (if rest == [] then [] else [Bucket(buckets[i].priority, rest)]) + buckets[i + 1..]
    ensures id in Ids(buckets)
  {
    RemoveSkips(buckets, id, i);
    HeldIsListed(buckets, id, i);
    var suffix := buckets[i..];
    assert suffix[0] == buckets[i] && suffix[1..] == buckets[i + 1..];
    var rest := Without(buckets[i].consumers, id);
    AppendAssoc(buckets[..i], if rest == [] then [] else [Bucket(buckets[i].priority, rest)], buckets[i + 1..]);
  }

  lemma {:induction false} UniqueSuffix(a: seq<string>, c: seq<string>)
    requires Unique(a + c)
    ensures Unique(c)
  {
    if a != [] {
      assert (a + c)[1..] == a[1..] + c;
      UniqueSuffix(a[1..], c);
    } else {
      assert a + c == c;
    }
  }

  lemma IdsPrefix(buckets: seq<Bucket>, k: nat)
    requires k < |buckets|
    ensures Ids(buckets[..k + 1]) == Ids(buckets[..k]) + buckets[k].consumers
  {
    assert buckets[..k + 1] == buckets[..k] + [buckets[k]];
    IdsAppend(buckets[..k], [buckets[k]]);
    IdsOfOne(buckets[k]);
  }

  /** An id in the front part of a list without repeats is absent from the rest. */
  lemma UniqueFront(m: seq<string>, c: seq<string>, id: string)
    requires Unique(m + c) && id in m
    ensures id !in c
  {
    UniqueCount(m + c, id);
    assert multiset(m + c) == multiset(m) + multiset(c);
    assert multiset(m)[id] >= 1;
  }

  lemma UniqueWithout(s: seq<string>, id: string)
    requires Unique(s)
    ensures Unique(Without(s, id))
  {
    var r := Without(s, id);
    forall x | x in r
      ensures multiset(r)[x] <= 1
    {
      UniqueCount(s, x);
    }
    CountUnique(r);
  }

  /** Unregistering from a table removes exactly that id from the enumeration order and keeps
      everything else in its place. */
  lemma {:induction false} RemoveConsumerIds(buckets: seq<Bucket>, id: string)
    requires Unique(Ids(buckets))
    ensures Ids(RemoveConsumer(buckets, id)) == Without(Ids(buckets), id)
  {
    if buckets != [] {
      var b, tail := buckets[0], buckets[1..];
      var r := RemoveConsumer(buckets, id);
      WithoutAppend(b.consumers, Ids(tail), id);
      if id in b.consumers {
        var rest := Without(b.consumers, id);
        assert Ids(buckets) == b.consumers + Ids(tail);
        UniqueFront(b.consumers, Ids(tail), id);
        WithoutAbsent(Ids(tail), id);
        if rest != [] {
          assert r[0] == Bucket(b.priority, rest) && r[1..] == tail;
        }
      } else {
        WithoutAbsent(b.consumers, id);
        UniqueSuffix(b.consumers, Ids(tail));
        RemoveConsumerIds(tail, id);
        assert r[0] == b && r[1..] == RemoveConsumer(tail, id);
      }
    }
  }

  /** Unregistering above a bound keeps every priority above it. */
  lemma {:induction false} RemoveConsumerAbove(buckets: seq<Bucket>, id: string, bound: int)
    requires forall k :: 0 <= k < |buckets| ==> buckets[k].priority > bound
    ensures forall k :: 0 <= k < |RemoveConsumer(buckets, id)| ==> RemoveConsumer(buckets, id)[k].priority > bound
  {
    if buckets != [] && id !in buckets[0].consumers {
      var r := RemoveConsumer(buckets, id);
      RemoveConsumerAbove(buckets[1..], id, bound);
      assert forall k :: 1 <= k < |r| ==> r[k] == RemoveConsumer(buckets[1..], id)[k - 1];
    }
  }

  /** Unregistering keeps the buckets ordered and none of them empty. */
  lemma {:induction false} RemoveConsumerOrdered(buckets: seq<Bucket>, id: string)
    requires Ordered(buckets) && NonEmpty(buckets)
    ensures Ordered(RemoveConsumer(buckets, id)) && NonEmpty(RemoveConsumer(buckets, id))
  {
    if buckets != [] {
      var r := RemoveConsumer(buckets, id);
      if id in buckets[0].consumers {
        if Without(buckets[0].consumers, id) != [] {
          assert forall k :: 0 <= k < |r| ==> r[k].priority == buckets[k].priority;
          assert forall k :: 1 <= k < |r| ==> r[k] == buckets[k];
        }
      } else {
        var rest := RemoveConsumer(buckets[1..], id);
        RemoveConsumerOrdered(buckets[1..], id);
        RemoveConsumerAbove(buckets[1..], id, buckets[0].priority);
        assert forall k :: 1 <= k < |r| ==> r[k] == rest[k - 1];
      }
    }
  }

  /** Unregistering keeps a table a table. */
  lemma RemoveConsumerTable(buckets: seq<Bucket>, id: string)
    requires Table(buckets)
    ensures Table(RemoveConsumer(buckets, id))
  {
    RemoveConsumerIds(buckets, id);
    UniqueWithout(Ids(buckets), id);
    RemoveConsumerOrdered(buckets, id);
  }

  /** The consumer calls of one tick: every id in order, all with the same context. */
  function Invocations(ids: seq<string>, context: TickContext): (r: seq<Event>)
    ensures |r| == |ids|
  {
    if ids == [] then [] else [Invoked(ids[0], context)] + Invocations(ids[1..], context)
  }

  /** Everything one tick makes observable: the calls, then the telemetry event. */
  function TickEvents(ids: seq<string>, context: TickContext): seq<Event>
  {
    Invocations(ids, context) + [TickExecuted(context.tickIndex, |ids|)]
  }

  lemma AppendAssoc<T>(a: seq<T>, b: seq<T>, c: seq<T>)
    ensures (a + b) + c == a + (b + c)
  {
  }

  /** Calling one more consumer appends one call. */
  lemma {:induction false} InvocationsSnoc(ids: seq<string>, id: string, context: TickContext)
    ensures Invocations(ids + [id], context) == Invocations(ids, context) + [Invoked(id, context)]
  {
    if ids != [] {
      assert (ids + [id])[0] == ids[0] && (ids + [id])[1..] == ids[1..] + [id];
      InvocationsSnoc(ids[1..], id, context);
    }
  }

  /** The i-th call of a tick hands the i-th id the tick's context. */
  lemma {:induction false} InvocationsAt(ids: seq<string>, context: TickContext, i: nat)
    requires i < |ids|
    ensures Invocations(ids, context)[i] == Invoked(ids[i], context)
  {
    if i > 0 {
      InvocationsAt(ids[1..], context, i - 1);
    }
  }

  /** Everything consecutive ticks make observable, starting at the given index, one clock
      reading per tick. */
  function RunTrace(ids: seq<string>, start: int, tickDuration: int, readings: seq<int>): seq<Event>
    decreases readings
  {
    if readings == [] then []
    else TickEvents(ids, TickContext(start, tickDuration, readings[0])) + RunTrace(ids, start + 1, tickDuration, readings[1..])
  }

  /** Running one more tick appends that tick's events. */
  lemma {:induction false} RunTraceSnoc(ids: seq<string>, start: int, tickDuration: int, readings: seq<int>, now: int)
    ensures RunTrace(ids, start, tickDuration, readings + [now])
            == RunTrace(ids, start, tickDuration, readings) + TickEvents(ids, TickContext(start + |readings|, tickDuration, now))
    decreases readings
  {
    if readings == [] {
      assert RunTrace(ids, start + 1, tickDuration, []) == [];
      assert [now][1..] == [];
    } else {
      assert (readings + [now])[0] == readings[0] && (readings + [now])[1..] == readings[1..] + [now];
      RunTraceSnoc(ids, start + 1, tickDuration, readings[1..], now);
    }
  }

  lemma RunTraceStep(ids: seq<string>, start: int, tickDuration: int, readings: seq<int>, i: nat)
    requires i < |readings|
    ensures RunTrace(ids, start, tickDuration, readings[..i + 1])
            == RunTrace(ids, start, tickDuration, readings[..i]) + TickEvents(ids, TickContext(start + i, tickDuration, readings[i]))
  {
    assert readings[..i + 1] == readings[..i] + [readings[i]];
    RunTraceSnoc(ids, start, tickDuration, readings[..i], readings[i]);
  }

  /** The telemetry events of consecutive ticks that start at the given index. */
  function RunTelemetry(count: nat, start: int, ticks: nat): (r: seq<Event>)
    ensures |r| == ticks
    decreases ticks
  {
    if ticks == 0 then [] else [TickExecuted(start, count)] + RunTelemetry(count, start + 1, ticks - 1)
  }

  /** The k-th telemetry event of a run reports tick start + k and the same consumer count. */
  lemma {:induction false} RunTelemetryAt(count: nat, start: int, ticks: nat, k: nat)
    requires k < ticks
    ensures RunTelemetry(count, start, ticks)[k] == TickExecuted(start + k, count)
    decreases ticks
  {
    if k > 0 {
      RunTelemetryAt(count, start + 1, ticks - 1, k - 1);
    }
  }

  /** The integers start, start + 1, ..., start + n - 1. */
  function Range(start: int, n: nat): (r: seq<int>)
    ensures |r| == n
    decreases n
  {
    if n == 0 then [] else [start] + Range(start + 1, n - 1)
  }

  lemma {:induction false} RangeAt(start: int, n: nat, k: nat)
    requires k < n
    ensures Range(start, n)[k] == start + k
    decreases n
  {
    if k > 0 {
      RangeAt(start + 1, n - 1, k - 1);
    }
  }

  /** The telemetry events of a trace, in order. */
  function Published(trace: seq<Event>): seq<Event>
  {
    if trace == [] then []
    else (if trace[0].TickExecuted? then [trace[0]] else []) + Published(trace[1..])
  }

  lemma {:induction false} PublishedAppend(a: seq<Event>, b: seq<Event>)
    ensures Published(a + b) == Published(a) + Published(b)
  {
    if a == [] {
      assert a + b == b;
    } else {
      assert (a + b)[0] == a[0] && (a + b)[1..] == a[1..] + b;
      PublishedAppend(a[1..], b);
    }
  }

  lemma {:induction false} NoTelemetryInCalls(ids: seq<string>, context: TickContext)
    ensures Published(Invocations(ids, context)) == []
  {
    if ids != [] {
      NoTelemetryInCalls(ids[1..], context);
    }
  }

  /** A tick publishes exactly its own telemetry event. */
  lemma PublishedInTick(ids: seq<string>, context: TickContext)
    ensures Published(TickEvents(ids, context)) == [TickExecuted(context.tickIndex, |ids|)]
  {
    var e := TickExecuted(context.tickIndex, |ids|);
    PublishedAppend(Invocations(ids, context), [e]);
    NoTelemetryInCalls(ids, context);
    assert Published([e]) == [e] + Published([]) by {
      assert [e][1..] == [];
    }
  }

  /** One telemetry event per tick, in tick order, each counting every registered consumer. */
  lemma {:induction false} PublishedPerTick(ids: seq<string>, start: int, tickDuration: int, readings: seq<int>)
    ensures Published(RunTrace(ids, start, tickDuration, readings)) == RunTelemetry(|ids|, start, |readings|)
    decreases readings
  {
    if readings != [] {
      var context := TickContext(start, tickDuration, readings[0]);
      PublishedAppend(TickEvents(ids, context), RunTrace(ids, start + 1, tickDuration, readings[1..]));
      PublishedInTick(ids, context);
      PublishedPerTick(ids, start + 1, tickDuration, readings[1..]);
    }
  }

  /** The tick indices a consumer has been handed, in order. */
  function SeenBy(trace: seq<Event>, id: string): seq<int>
  {
    if trace == [] then []
    else (if trace[0].Invoked? && trace[0].consumerId == id then [trace[0].context.tickIndex] else []) + SeenBy(trace[1..], id)
  }

  lemma {:induction false} SeenByAppend(a: seq<Event>, b: seq<Event>, id: string)
    ensures SeenBy(a + b, id) == SeenBy(a, id) + SeenBy(b, id)
  {
    if a == [] {
      assert a + b == b;
    } else {
      assert (a + b)[0] == a[0] && (a + b)[1..] == a[1..] + b;
      SeenByAppend(a[1..], b, id);
    }
  }

  /** A constant sequence. */
  function Repeat(x: int, n: nat): (r: seq<int>)
    ensures |r| == n
  {
    if n == 0 then [] else [x] + Repeat(x, n - 1)
  }

  /** In one tick's calls a consumer is handed the tick's index once for each time its id
      occurs. */
  lemma {:induction false} SeenInOneTick(ids: seq<string>, context: TickContext, id: string)
    ensures SeenBy(Invocations(ids, context), id) == Repeat(context.tickIndex, multiset(ids)[id])
  {
    if ids != [] {
      var e, rest := Invoked(ids[0], context), Invocations(ids[1..], context);
      assert ([e] + rest)[0] == e && ([e] + rest)[1..] == rest;
      SeenInOneTick(ids[1..], context, id);
      assert ids == [ids[0]] + ids[1..];
      var m := multiset(ids[1..])[id];
      if ids[0] == id {
        assert multiset(ids)[id] == m + 1;
        assert SeenBy(Invocations(ids, context), id) == [context.tickIndex] + Repeat(context.tickIndex, m);
      } else {
        assert multiset(ids)[id] == m;
        assert SeenBy(Invocations(ids, context), id) == Repeat(context.tickIndex, m);
      }
    }
  }

  /** A consumer registered once is handed the index of each tick exactly once. */
  lemma SeenOnceInTick(ids: seq<string>, context: TickContext, id: string)
    requires multiset(ids)[id] == 1
    ensures SeenBy(TickEvents(ids, context), id) == [context.tickIndex]
  {
    var e := TickExecuted(context.tickIndex, |ids|);
    SeenInOneTick(ids, context, id);
    SeenByAppend(Invocations(ids, context), [e], id);
    assert SeenBy([e], id) == [] by {
      assert [e][1..] == [];
    }
  }

  /** Over a run of ticks, every consumer registered once is handed each tick index exactly
      once, in increasing order. */
  lemma {:induction false} SeenOnEveryTick(ids: seq<string>, start: int, tickDuration: int, readings: seq<int>, id: string)
    requires multiset(ids)[id] == 1
    ensures SeenBy(RunTrace(ids, start, tickDuration, readings), id) == Range(start, |readings|)
    decreases readings
  {
    if readings != [] {
      var context := TickContext(start, tickDuration, readings[0]);
      SeenByAppend(TickEvents(ids, context), RunTrace(ids, start + 1, tickDuration, readings[1..]), id);
      SeenOnceInTick(ids, context, id);
      SeenOnEveryTick(ids, start + 1, tickDuration, readings[1..], id);
    }
  }

  /** The scheduler test: a lone consumer sees ticks 0 to 4 across five ticks. */
  lemma LoneConsumerSeesFiveTicks(readings: seq<int>)
    requires |readings| == 5
    ensures SeenBy(RunTrace(["core"], 0, 1_000_000, readings), "core") == [0, 1, 2, 3, 4]
  {
    assert multiset(["core"])["core"] == 1;
    SeenOnEveryTick(["core"], 0, 1_000_000, readings, "core");
  }

  class TickScheduler {
    const tickDuration: int
    var buckets: seq<Bucket>
    var tickIndex: int
    /** Every OnTick call and TickExecuted event so far, in order. */
    ghost var log: seq<Event>

    ghost predicate Valid()
      reads this
    {
      tickDuration > 0 && Table(buckets) && tickIndex >= 0
    }

    constructor(tickDuration: int)
      requires tickDuration > 0
      ensures Valid() && this.tickDuration == tickDuration
      ensures buckets == [] && tickIndex == 0 && log == []
    {
      this.tickDuration := tickDuration;
      buckets, tickIndex, log := [], 0, [];
    }

    /** The public constructor: refuses a tick duration that is not positive. */
    static method Create(tickDuration: int) returns (r: Result<TickScheduler, SchedulerError>)
      ensures r.Err? <==> tickDuration <= 0
      ensures r.Err? ==> r.error == NonPositiveTickDuration
      ensures r.Ok? ==> fresh(r.value) && r.value.Valid() && r.value.tickDuration == tickDuration
                        && r.value.buckets == [] && r.value.tickIndex == 0 && r.value.log == []
    {
      if tickDuration <= 0 {
        return Err(NonPositiveTickDuration);
      }
      var s := new TickScheduler(tickDuration);
      r := Ok(s);
    }

    /** Adds a consumer at a priority; an id already registered at any priority is refused. */
    method RegisterConsumer(id: string, priority: int) returns (r: Result<(), SchedulerError>)
      requires Valid()
      modifies this`buckets
      ensures Valid()
      ensures r.Err? <==> id in Ids(old(buckets))
      ensures r.Err? ==> r.error == DuplicateConsumer && buckets == old(buckets)
      ensures r.Ok? ==> buckets == AddConsumer(old(buckets), priority, id)
    {
      if id in Ids(buckets) {
        return Err(DuplicateConsumer);
      }
      AddConsumerEffect(buckets, priority, id);
      buckets := AddConsumer(buckets, priority, id);
      r := Ok(());
    }

    /** Removes a consumer: the buckets are searched in priority order and the first one that
        holds the id loses it, and is dropped when it becomes empty. */
    method UnregisterConsumer(id: string) returns (r: Result<bool, SchedulerError>)
      requires Valid()
      modifies this`buckets
      ensures Valid()
      ensures IsBlank(id) ==> r == Err(BlankConsumerId) && buckets == old(buckets)
      ensures !IsBlank(id) ==> r == Ok(id in Ids(old(buckets))) && buckets == RemoveConsumer(old(buckets), id)
    {
      if IsBlank(id) {
        return Err(BlankConsumerId);
      }
      RemoveConsumerTable(buckets, id);
      var i := 0;
      while i < |buckets|
        invariant 0 <= i <= |buckets| && buckets == old(buckets)
        invariant forall k :: 0 <= k < i ==> id !in buckets[k].consumers
      {
        var consumers := buckets[i].consumers;
        var rest := Without(consumers, id);
        var removed := |consumers| - |rest|;
        if removed > 0 {
          assert id in multiset(consumers);
          RemoveAtFirst(buckets, id, i);
          if |rest| == 0 {
            buckets := buckets[..i] + [] + buckets[i + 1..];
          } else {
            buckets := buckets[..i] + [Bucket(buckets[i].priority, rest)] + buckets[i + 1..];
          }
          return Ok(true);
        }
        assert id !in multiset(consumers);
        i := i + 1;
      }
      RemoveAbsent(buckets, id);
      r := Ok(false);
    }

    /** One tick: every consumer registered when it starts is handed the same context, in
        enumeration order; then the telemetry event is published and the index advances. */
    method RunSingleTick(now: int)
      modifies this`tickIndex, this`log
      ensures tickIndex == old(tickIndex) + 1
      ensures log == old(log) + TickEvents(Ids(buckets), TickContext(old(tickIndex), tickDuration, now))
    {
      var snapshot := buckets;
      var context := TickContext(tickIndex, tickDuration, now);
      ghost var before := log;
      ghost var done: seq<string> := [];
      var consumerCount := 0;
      var b := 0;
      while b < |snapshot|
        invariant 0 <= b <= |snapshot| && done == Ids(snapshot[..b]) && consumerCount == |done|
        invariant log == before + Invocations(done, context) && tickIndex == old(tickIndex)
      {
        var consumers := snapshot[b].consumers;
        var c := 0;
        assert done + consumers[..c] == done;
        while c < |consumers|
          invariant 0 <= c <= |consumers| && tickIndex == old(tickIndex)
          invariant log == before + Invocations(done + consumers[..c], context)
        {
          assert done + consumers[..c + 1] == (done + consumers[..c]) + [consumers[c]];
          InvocationsSnoc(done + consumers[..c], consumers[c], context);
          AppendAssoc(before, Invocations(done + consumers[..c], context), [Invoked(consumers[c], context)]);
          log := log + [Invoked(consumers[c], context)];
          c := c + 1;
        }
        assert consumers[..c] == consumers;
        IdsPrefix(snapshot, b);
        done := done + consumers;
        consumerCount := consumerCount + |consumers|;
        b := b + 1;
      }
      assert snapshot[..b] == snapshot;
      AppendAssoc(before, Invocations(done, context), [TickExecuted(context.tickIndex, consumerCount)]);
      log := log + [TickExecuted(context.tickIndex, consumerCount)];
      tickIndex := tickIndex + 1;
    }

    /** Runs the given number of ticks, reading the clock once per tick; a count that is not
        positive is refused. */
    method RunTicks(tickCount: int, readings: seq<int>) returns (r: Result<(), SchedulerError>)
      requires Valid() && tickCount <= |readings|
      modifies this`tickIndex, this`log
      ensures Valid()
      ensures tickCount <= 0 ==> r == Err(NonPositiveTickCount) && tickIndex == old(tickIndex) && log == old(log)
      ensures tickCount > 0 ==> r == Ok(()) && tickIndex == old(tickIndex) + tickCount
                                && log == old(log) + RunTrace(Ids(buckets), old(tickIndex), tickDuration, readings[..tickCount])
    {
      if tickCount <= 0 {
        return Err(NonPositiveTickCount);
      }
      RunTickLoop(tickCount, readings);
      r := Ok(());
    }

    /** The loop of RunTicks: one tick per clock reading. */
    method RunTickLoop(tickCount: nat, readings: seq<int>)
      requires tickCount <= |readings|
      modifies this`tickIndex, this`log
      ensures tickIndex == old(tickIndex) + tickCount
      ensures log == old(log) + RunTrace(Ids(buckets), old(tickIndex), tickDuration, readings[..tickCount])
    {
      ghost var ids := Ids(buckets);
      var i := 0;
      while i < tickCount
        invariant 0 <= i <= tickCount && tickIndex == old(tickIndex) + i
        invariant log == old(log) + RunTrace(ids, old(tickIndex), tickDuration, readings[..i])
      {
        ghost var run := RunTrace(ids, old(tickIndex), tickDuration, readings[..i]);
        RunSingleTick(readings[i]);
        RunTraceStep(ids, old(tickIndex), tickDuration, readings, i);
        AppendAssoc(old(log), run, TickEvents(ids, TickContext(old(tickIndex) + i, tickDuration, readings[i])));
        i := i + 1;
      }
    }
  }
}

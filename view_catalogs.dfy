/** The two catalogs the dashboard reads its layout from: module view documents gathered per
    request from the module providers, and panel descriptors gathered once. Both order their
    contents by zone, then by order, then by title ignoring case, and keep the providers' order
    among equals. The providers are outside the model: their answers are parameters. */
module ViewCatalogs {
  import opened Wrappers
  import opened Text
  import opened Sorting
  import opened Views

  /** Order, then title ignoring case: the two keys both catalogs share. */
  predicate OrderThenTitle(a: ViewDescriptor, b: ViewDescriptor)
  {
    if a.order != b.order then a.order < b.order else OrdinalLe(Fold(a.title), Fold(b.title))
  }

  /** ModuleViewCatalog's order: zone ignoring case first. */
  predicate DocumentFirst(a: ViewDocument, b: ViewDocument)
  {
    var za, zb := Fold(a.descriptor.zone), Fold(b.descriptor.zone);
    if za != zb then OrdinalLe(za, zb) else OrderThenTitle(a.descriptor, b.descriptor)
  }

  /** DashboardViewCatalog's order: zone compared exactly first. */
  predicate PanelFirst(a: ViewDescriptor, b: ViewDescriptor)
  {
    if a.zone != b.zone then OrdinalLe(a.zone, b.zone) else OrderThenTitle(a, b)
  }

  lemma CatalogOrdersArePreorders()
    ensures TotalPreorder(DocumentFirst) && TotalPreorder(PanelFirst)
  {
    OrdinalLeTotalOrder();
  }

  /** The documents present in one provider's answer, in its order; an absent answer
      contributes none, and neither does a missing document. */
  function Present(answer: Option<seq<Option<ViewDocument>>>): seq<ViewDocument>
  {
    if answer.None? then [] else Somes(answer.value)
  }

  function Somes(s: seq<Option<ViewDocument>>): seq<ViewDocument>
  {
    if s == [] then [] else Somes(s[..|s| - 1]) + (if s[|s| - 1].Some? then [s[|s| - 1].value] else [])
  }

  /** A document is present in an answer exactly when the answer holds it. */
  lemma {:induction false} SomesContents(s: seq<Option<ViewDocument>>)
    ensures forall x :: x in Somes(s) <==> Some(x) in s
  {
    if s != [] {
      SomesContents(s[..|s| - 1]);
      assert s == s[..|s| - 1] + [s[|s| - 1]];
    }
  }

  /** Every document present in the providers' answers, provider by provider. */
  function Collected(answers: seq<Option<seq<Option<ViewDocument>>>>): seq<ViewDocument>
  {
    if answers == [] then [] else Collected(answers[..|answers| - 1]) + Present(answers[|answers| - 1])
  }

  /** The catalog holds exactly the documents the providers gave. */
  lemma {:induction false} CollectedContents(answers: seq<Option<seq<Option<ViewDocument>>>>)
    ensures forall d :: d in Collected(answers) <==>
              exists i | 0 <= i < |answers| :: answers[i].Some? && Some(d) in answers[i].value
  {
    if answers != [] {
      var n := |answers| - 1;
      CollectedContents(answers[..n]);
      assert forall i | 0 <= i < n :: answers[..n][i] == answers[i];
      if answers[n].Some? {
        SomesContents(answers[n].value);
      }
    }
  }

  /** The catalog's answer: the collected documents in the catalog's order. A stable sort, so
      documents that rank equally stay in the providers' order. */
  function Arranged(answers: seq<Option<seq<Option<ViewDocument>>>>): (r: seq<ViewDocument>)
    ensures multiset(r) == multiset(Collected(answers))
    ensures Sorted(r, DocumentFirst)
    ensures forall c :: Class(r, DocumentFirst, c) == Class(Collected(answers), DocumentFirst, c)
  {
    CatalogOrdersArePreorders();
    SortSorted(Collected(answers), DocumentFirst);
    forall c ensures Class(Sort(Collected(answers), DocumentFirst), DocumentFirst, c)
                     == Class(Collected(answers), DocumentFirst, c) {
      SortStable(Collected(answers), DocumentFirst, c);
    }
    Sort(Collected(answers), DocumentFirst)
  }

  /** ModuleViewCatalog.List: asks each provider in turn, appends the documents it gives, and
      orders the whole. No providers, or no documents, give an empty list. */
  method ListDocuments(answers: seq<Option<seq<Option<ViewDocument>>>>) returns (r: seq<ViewDocument>)
    ensures r == Arranged(answers)
  {
    if |answers| == 0 {
      return [];
    }
    var documents: seq<ViewDocument> := [];
    var i := 0;
    while i < |answers|
      invariant 0 <= i <= |answers|
      invariant documents == Collected(answers[..i])
    {
      assert answers[..i + 1][..i] == answers[..i];
      if answers[i].Some? && |answers[i].value| > 0 {
        documents := documents + Somes(answers[i].value);
      }
      i := i + 1;
    }
    assert answers[..i] == answers;
    if |documents| == 0 {
      return [];
    }
    r := Sort(documents, DocumentFirst);
  }

  /** The test's three panels, offered as [leaderboard, stats] by one provider and
      [simulation] by another, come out hero, primary, secondary. */
  lemma ZoneOrderExample()
    ensures Arranged(ExampleAnswers) == [ExampleHero, ExampleStats, ExampleBoard]
  {
    ExampleCollected();
    ExampleSorted();
  }

  const ExampleAnswers := [Some([Some(ExampleBoard), Some(ExampleStats)]), Some([Some(ExampleHero)])]

  lemma ExampleCollected()
    ensures Collected(ExampleAnswers) == [ExampleBoard, ExampleStats, ExampleHero]
  {
    var first, second := [Some(ExampleBoard), Some(ExampleStats)], [Some(ExampleHero)];
    assert Somes(first) == [ExampleBoard, ExampleStats] by {
      assert first[..1] == [Some(ExampleBoard)] && first[..1][..0] == [];
      assert Somes(first[..1]) == [ExampleBoard];
    }
    assert Somes(second) == [ExampleHero] by {
      assert second[..0] == [];
    }
    var answers := ExampleAnswers;
    assert answers[..1] == [Some(first)] && answers[..1][..0] == [];
    assert Collected(answers[..1]) == [ExampleBoard, ExampleStats];
  }

  lemma ExampleSorted()
    ensures Sort([ExampleBoard, ExampleStats, ExampleHero], DocumentFirst) == [ExampleHero, ExampleStats, ExampleBoard]
  {
    ExampleRanks();
    SortReversesThree(ExampleBoard, ExampleStats, ExampleHero, DocumentFirst);
  }

  /** Three elements offered in reverse rank order come out reversed. */
  lemma SortReversesThree<T>(a: T, b: T, c: T, le: (T, T) -> bool)
    requires !le(a, b) && !le(b, c)
    ensures Sort([a, b, c], le) == [c, b, a]
  {
    SortReversesTwo(a, b, le);
    assert [a, b, c][..2] == [a, b];
    assert Insert(c, [b, a], le) == [c] + [b, a];
  }

  lemma SortReversesTwo<T>(a: T, b: T, le: (T, T) -> bool)
    requires !le(a, b)
    ensures Sort([a, b], le) == [b, a]
  {
    assert Sort([a], le) == [a] by {
      assert [a][..0] == [];
    }
    assert [a, b][..1] == [a];
    assert Insert(b, [a], le) == [b] + [a];
  }

  const ExampleHero := ViewDocument(ViewDescriptor("core.simulation", "Core", "Simulation", "GPU viewport", "hero", 5, 9), [], None)
  const ExampleStats := ViewDocument(ViewDescriptor("statistics.panel", "Statistics", "Stats", "Totals", "primary", 1, 4), [], None)
  const ExampleBoard := ViewDocument(ViewDescriptor("core.leaderboard", "Core", "Leaderboard", "Scores", "secondary", 1, 4), [], None)

  /** Hero comes before primary, and primary before secondary, ignoring case. */
  lemma ExampleRanks()
    ensures !DocumentFirst(ExampleBoard, ExampleStats) && !DocumentFirst(ExampleStats, ExampleHero)
  {
    var hero, primary, secondary := Fold("hero"), Fold("primary"), Fold("secondary");
    assert hero[0] == 'H' && primary[0] == 'P' && secondary[0] == 'S';
    OrdinalLessFirst(primary, secondary);
    OrdinalLessFirst(hero, primary);
  }

  /** The whole panel list, provider by provider. */
  function Flatten(providers: seq<seq<ViewDescriptor>>): seq<ViewDescriptor>
  {
    if providers == [] then [] else Flatten(providers[..|providers| - 1]) + providers[|providers| - 1]
  }

  /** The catalog holds every panel of every provider, and nothing else. */
  lemma {:induction false} FlattenContents(providers: seq<seq<ViewDescriptor>>)
    ensures forall d :: d in Flatten(providers) <==> exists i | 0 <= i < |providers| :: d in providers[i]
  {
    if providers != [] {
      var n := |providers| - 1;
      FlattenContents(providers[..n]);
      assert forall i | 0 <= i < n :: providers[..n][i] == providers[i];
    }
  }

  /** DashboardViewCatalog's constructor: every provider's panels, in the catalog's order.
      List hands back this one list every time. */
  function Panels(providers: seq<seq<ViewDescriptor>>): (r: seq<ViewDescriptor>)
    ensures multiset(r) == multiset(Flatten(providers))
    ensures Sorted(r, PanelFirst)
    ensures forall c :: Class(r, PanelFirst, c) == Class(Flatten(providers), PanelFirst, c)
  {
    CatalogOrdersArePreorders();
    SortSorted(Flatten(providers), PanelFirst);
    forall c ensures Class(Sort(Flatten(providers), PanelFirst), PanelFirst, c) == Class(Flatten(providers), PanelFirst, c) {
      SortStable(Flatten(providers), PanelFirst, c);
    }
    Sort(Flatten(providers), PanelFirst)
  }
}

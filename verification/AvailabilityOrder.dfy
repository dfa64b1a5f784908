/** When the wait for the packaged components depends on the order in which the components are visited. Changed
    components are always checked before new ones (findNewOrChangedRKE2PackagedComponents in
    internal/upgrade/reconcilers/rke2_core.go). */
module AvailabilityOrder {
  import opened Wrappers
  import opened Api
  import opened Clusters
  import opened PackagedComponents

  // ---------------------------------------------------------------- what is found

  /** A component of the given kind, new or changed, is found whose check gives this answer. */
  ghost predicate Gives(c: Cluster, hash: Hash, s: SnapshotMap, isNew: bool, answer: Result<bool, Error>) {
    var components := Components(c.charts);
    exists n | n in components ::
      && (n !in s.data <==> isNew) && Found(components, hash, s.data, n)
      && ReadyVerdict(c, PairOf(components, s.data, n), s.creationTime) == answer
  }

  /** One found component of the kind fails its check and another is not ready. */
  ghost predicate Mixed(c: Cluster, hash: Hash, s: SnapshotMap, isNew: bool) {
    Gives(c, hash, s, isNew, Err(ApiError)) && Gives(c, hash, s, isNew, Ok(false))
  }

  ghost predicate ChangedReady(c: Cluster, hash: Hash, s: SnapshotMap) {
    !Gives(c, hash, s, false, Err(ApiError)) && !Gives(c, hash, s, false, Ok(false))
  }

  lemma VerdictRange(c: Cluster, p: Pair, since: nat)
    ensures ReadyVerdict(c, p, since) in {Err(ApiError), Ok(false), Ok(true)}
  {
  }

  /** The pairs of one kind, in the given order. */
  function PairsOf(c: Cluster, hash: Hash, s: SnapshotMap, isNew: bool, names: seq<string>): seq<Pair>
    requires forall n | n in names :: n in Components(c.charts)
  {
    if isNew then NewPairs(Components(c.charts), s.data, names)
    else ChangedPairs(Components(c.charts), hash, s.data, names)
  }

  lemma PairsGive(c: Cluster, hash: Hash, s: SnapshotMap, isNew: bool, names: seq<string>, answer: Result<bool, Error>)
    requires Lists(names, Components(c.charts).Keys)
    ensures Answered(c, PairsOf(c, hash, s, isNew, names), s.creationTime, answer) <==> Gives(c, hash, s, isNew, answer)
  {
    var components := Components(c.charts);
    forall p ensures p in PairsOf(c, hash, s, isNew, names) <==>
                     exists n :: n in names && (n !in s.data <==> isNew) && Found(components, hash, s.data, n)
                                 && p == PairOf(components, s.data, n) {
      InChangedPairs(components, hash, s.data, names, p);
      InNewPairs(components, hash, s.data, names, p);
    }
    if Gives(c, hash, s, isNew, answer) {
      var n :| n in components && (n !in s.data <==> isNew) && Found(components, hash, s.data, n)
               && ReadyVerdict(c, PairOf(components, s.data, n), s.creationTime) == answer;
      assert n in names && PairOf(components, s.data, n) in PairsOf(c, hash, s, isNew, names);
    }
  }

  // ---------------------------------------------------------------- the answer without an order

  /** The answer of one kind of pairs, a failing check before one that is not ready. */
  ghost function KindAnswer(c: Cluster, hash: Hash, s: SnapshotMap, isNew: bool): Result<bool, Error> {
    if Gives(c, hash, s, isNew, Err(ApiError)) then Err(ApiError)
    else Ok(!Gives(c, hash, s, isNew, Ok(false)))
  }

  lemma KindReady(c: Cluster, hash: Hash, s: SnapshotMap, isNew: bool, names: seq<string>)
    requires Lists(names, Components(c.charts).Keys) && !Mixed(c, hash, s, isNew)
    ensures PairsReady(c, PairsOf(c, hash, s, isNew, names), s.creationTime).1 == KindAnswer(c, hash, s, isNew)
  {
    var pairs := PairsOf(c, hash, s, isNew, names);
    PairsReadyExact(c, pairs, s.creationTime);
    PairsGive(c, hash, s, isNew, names, Err(ApiError));
    PairsGive(c, hash, s, isNew, names, Ok(false));
    forall p | p in pairs ensures ReadyVerdict(c, p, s.creationTime) in {Err(ApiError), Ok(false), Ok(true)} {
      VerdictRange(c, p, s.creationTime);
    }
  }

  lemma {:induction false} PairsReadyConcat(c: Cluster, a: seq<Pair>, b: seq<Pair>, since: nat)
    ensures PairsReady(c, a + b, since).1 ==
            if PairsReady(c, a, since).1 == Ok(true) then PairsReady(c, b, since).1 else PairsReady(c, a, since).1
    decreases |a|
  {
    if a == [] {
      assert a + b == b;
    } else {
      var (c1, r) := PairReady(c, a[0], since);
      assert (a + b)[0] == a[0] && (a + b)[1..] == a[1..] + b;
      if r == Ok(true) {
        PairReadyReads(c, a[0], since);
        PairsReadyConcat(c1, a[1..], b, since);
        ReadyAfterRead(c, c1, b, since);
      }
    }
  }

  lemma {:induction false} ReadyAfterRead(c: Cluster, c': Cluster, pairs: seq<Pair>, since: nat)
    requires c' == c.(trace := c'.trace)
    ensures PairsReady(c', pairs, since).1 == PairsReady(c, pairs, since).1
    decreases |pairs|
  {
    if pairs != [] {
      PairReadyReads(c, pairs[0], since);
      PairReadyReads(c', pairs[0], since);
      assert ReadyVerdict(c', pairs[0], since) == ReadyVerdict(c, pairs[0], since) by {
        assert c'.(trace := []) == c.(trace := []);
      }
      ReadyAfterRead(PairReady(c, pairs[0], since).0, PairReady(c', pairs[0], since).0, pairs[1..], since);
    }
  }

  /** The check of all found pairs, by the checks of the changed and of the new ones. */
  lemma FoundAnswer(c: Cluster, hash: Hash, s: SnapshotMap, names: seq<string>)
    requires forall n | n in names :: n in Components(c.charts)
    ensures var changed := PairsReady(c, PairsOf(c, hash, s, false, names), s.creationTime).1;
            PairsReady(c, FindChanged(Components(c.charts), hash, s.data, names), s.creationTime).1 ==
            if changed == Ok(true) then PairsReady(c, PairsOf(c, hash, s, true, names), s.creationTime).1 else changed
  {
    PairsReadyConcat(c, PairsOf(c, hash, s, false, names), PairsOf(c, hash, s, true, names), s.creationTime);
  }

  /** What the wait answers when the components are visited in the order of `names`. */
  function AnswerFor(c: Cluster, hash: Hash, names: seq<string>, target: string, s: SnapshotMap): Result<State, Error>
    requires forall n | n in names :: n in Components(c.charts)
  {
    var pairs := FindChanged(Components(c.charts), hash, s.data, names);
    if pairs == [] then Ok(if target == s.sourceVersion then PackagedComponentsAvailable else InProgress)
    else
      var done := PairsReady(c, pairs, s.creationTime).1;
      if done.Err? then Err(done.error) else Ok(if done.value then PackagedComponentsAvailable else InProgress)
  }

  lemma AvailabilityByNames(c: Cluster, hash: Hash, order: MapOrder, target: string, s: SnapshotMap)
    requires Enumerates(order) && Read(ChartsT) !in c.faults
    ensures Availability(c, hash, order, target, s).1
         == AnswerFor(c, hash, Listed(order, |c.trace| + 1, Components(c.charts).Keys), target, s)
  {
    var c1 := FindComponents(c).0;
    ReadyAfterRead(c, c1, FindChanged(Components(c.charts), hash, s.data,
                                      Listed(order, |c.trace| + 1, Components(c.charts).Keys)), s.creationTime);
  }

  /** No changed components are mixed, and when all of them are ready no new ones are either. */
  ghost predicate OrderFree(c: Cluster, hash: Hash, s: SnapshotMap) {
    !Mixed(c, hash, s, false) && (ChangedReady(c, hash, s) ==> !Mixed(c, hash, s, true))
  }

  lemma AnswersAgree(c: Cluster, hash: Hash, names: seq<string>, names': seq<string>, target: string, s: SnapshotMap)
    requires Lists(names, Components(c.charts).Keys) && Lists(names', Components(c.charts).Keys)
             && OrderFree(c, hash, s)
    ensures AnswerFor(c, hash, names, target, s) == AnswerFor(c, hash, names', target, s)
  {
    FoundAnswer(c, hash, s, names);
    FoundAnswer(c, hash, s, names');
    FoundNone(Components(c.charts), hash, s.data, names);
    FoundNone(Components(c.charts), hash, s.data, names');
    KindReady(c, hash, s, false, names);
    KindReady(c, hash, s, false, names');
    if ChangedReady(c, hash, s) {
      KindReady(c, hash, s, true, names);
      KindReady(c, hash, s, true, names');
    }
  }

  // ---------------------------------------------------------------- orders that disagree

  /** Some order of a set. */
  ghost function Enumeration(keys: set<string>): (names: seq<string>)
    ensures Lists(names, keys)
  {
    if keys == {} then []
    else
      var k :| k in keys;
      [k] + Enumeration(keys - {k})
  }

  /** An order that starts with `first` wherever it occurs. */
  ghost function StartingWith(first: string): (order: MapOrder)
    ensures Enumerates(order)
    ensures forall calls, keys | first in keys :: order(calls, keys) == [first] + Enumeration(keys - {first})
  {
    (calls, keys) => if first in keys then [first] + Enumeration(keys - {first}) else Enumeration(keys)
  }

  lemma {:induction false} FirstChanged(components: map<string, HelmChart>, hash: Hash,
                                        data: map<string, ComponentRecord>, names: seq<string>)
    requires names != [] && forall n | n in names :: n in components
    requires names[0] in data && Found(components, hash, data, names[0])
    ensures var pairs := ChangedPairs(components, hash, data, names);
            pairs != [] && pairs[0] == PairOf(components, data, names[0])
    decreases |names|
  {
    if |names| > 1 {
      FirstChanged(components, hash, data, names[..|names| - 1]);
    } else {
      assert names[..0] == [];
    }
  }

  lemma {:induction false} FirstNew(components: map<string, HelmChart>, data: map<string, ComponentRecord>,
                                    names: seq<string>)
    requires names != [] && (forall n | n in names :: n in components) && names[0] !in data
    ensures var pairs := NewPairs(components, data, names);
            pairs != [] && pairs[0] == PairOf(components, data, names[0])
    decreases |names|
  {
    if |names| > 1 {
      FirstNew(components, data, names[..|names| - 1]);
    } else {
      assert names[..0] == [];
    }
  }

  /** When a component of the kind is visited first and does not pass, its answer is the answer. */
  lemma FirstDecides(c: Cluster, hash: Hash, s: SnapshotMap, isNew: bool, names: seq<string>, target: string)
    requires Lists(names, Components(c.charts).Keys) && names != [] && (names[0] !in s.data <==> isNew)
    requires Found(Components(c.charts), hash, s.data, names[0]) && (isNew ==> ChangedReady(c, hash, s))
    requires ReadyVerdict(c, PairOf(Components(c.charts), s.data, names[0]), s.creationTime) != Ok(true)
    ensures AnswerFor(c, hash, names, target, s)
         == if ReadyVerdict(c, PairOf(Components(c.charts), s.data, names[0]), s.creationTime).Err?
            then Err(ApiError) else Ok(InProgress)
  {
    var components := Components(c.charts);
    var p := PairOf(components, s.data, names[0]);
    if isNew {
      FirstNew(components, s.data, names);
      KindReady(c, hash, s, false, names);
    } else {
      FirstChanged(components, hash, s.data, names);
    }
    var pairs := PairsOf(c, hash, s, isNew, names);
    assert pairs[0] == p;
    PairReadyReads(c, p, s.creationTime);
    VerdictRange(c, p, s.creationTime);
    FoundAnswer(c, hash, s, names);
  }

  lemma MixedDisagree(c: Cluster, hash: Hash, s: SnapshotMap, isNew: bool, target: string)
    returns (order: MapOrder, order': MapOrder)
    requires Mixed(c, hash, s, isNew) && (isNew ==> ChangedReady(c, hash, s)) && Read(ChartsT) !in c.faults
    ensures Enumerates(order) && Availability(c, hash, order, target, s).1 == Err(ApiError)
    ensures Enumerates(order') && Availability(c, hash, order', target, s).1 == Ok(InProgress)
  {
    var components := Components(c.charts);
    var a :| a in components && (a !in s.data <==> isNew) && Found(components, hash, s.data, a)
             && ReadyVerdict(c, PairOf(components, s.data, a), s.creationTime) == Err(ApiError);
    var b :| b in components && (b !in s.data <==> isNew) && Found(components, hash, s.data, b)
             && ReadyVerdict(c, PairOf(components, s.data, b), s.creationTime) == Ok(false);
    order, order' := StartingWith(a), StartingWith(b);
    AvailabilityByNames(c, hash, order, target, s);
    AvailabilityByNames(c, hash, order', target, s);
    FirstDecides(c, hash, s, isNew, Listed(order, |c.trace| + 1, components.Keys), target);
    FirstDecides(c, hash, s, isNew, Listed(order', |c.trace| + 1, components.Keys), target);
  }

  // ---------------------------------------------------------------- exactly when the order matters

  ghost predicate SameForAllOrders(c: Cluster, hash: Hash, target: string, s: SnapshotMap) {
    forall order, order' | Enumerates(order) && Enumerates(order') ::
      Availability(c, hash, order, target, s).1 == Availability(c, hash, order', target, s).1
  }

  /** The answer is the same for all orders exactly when the components cannot be
      listed, or no failing check competes with a component that is not ready: neither
      among the changed ones nor, when these are all ready, among the new ones. */
  lemma OrderFreeIff(c: Cluster, hash: Hash, target: string, s: SnapshotMap)
    ensures SameForAllOrders(c, hash, target, s) <==> Read(ChartsT) in c.faults || OrderFree(c, hash, s)
  {
    if Read(ChartsT) !in c.faults {
      if OrderFree(c, hash, s) {
        forall order, order' | Enumerates(order) && Enumerates(order')
          ensures Availability(c, hash, order, target, s).1 == Availability(c, hash, order', target, s).1
        {
          AvailabilityByNames(c, hash, order, target, s);
          AvailabilityByNames(c, hash, order', target, s);
          var keys := Components(c.charts).Keys;
          AnswersAgree(c, hash, Listed(order, |c.trace| + 1, keys), Listed(order', |c.trace| + 1, keys), target, s);
        }
      } else {
        var order, order' := MixedDisagree(c, hash, s, !Mixed(c, hash, s, false), target);
        assert Availability(c, hash, order, target, s).1 != Availability(c, hash, order', target, s).1;
      }
    }
  }

  const COMPONENT_ANNOTATIONS: map<string, string> :=
    map[OWNER_ANNOTATION := "addon", OWNER_GVK_ANNOTATION := ADDON_OWNER, CHART_URL_ANNOTATION := "https://charts"]

  function ChangedComponent(name: string, jobName: string): HelmChart {
    HelmChart(name, map[], COMPONENT_ANNOTATIONS, HelmSpec("", "", "", "", None, [], None, "new"),
              HelmStatus(jobName, []))
  }

  function ComponentRecordOf(name: string): ComponentRecord {
    ComponentRecord(name, "https://charts", "", "1", 1)
  }

  lemma ChangedIsComponent(name: string, jobName: string)
    requires NAME_PREFIX <= name
    ensures IsComponent(ChangedComponent(name, jobName))
  {
    assert OWNER_ANNOTATION != OWNER_GVK_ANNOTATION by {
      assert |OWNER_ANNOTATION| != |OWNER_GVK_ANNOTATION|;
    }
    assert CHART_URL_ANNOTATION[0] != OWNER_GVK_ANNOTATION[0];
  }

  /** Two changed components, the job of one of which cannot be read while the other has no job yet: visited in one
      order the wait fails, in the other it goes on. */
  lemma OrderMatters(hash: Hash, target: string) returns (c: Cluster, s: SnapshotMap, order: MapOrder, order': MapOrder)
    requires CollisionFree(hash)
    ensures Enumerates(order) && Availability(c, hash, order, target, s).1 == Err(ApiError)
    ensures Enumerates(order') && Availability(c, hash, order', target, s).1 == Ok(InProgress)
  {
    var a, b := "rke2-a", "rke2-b";
    assert a[5] != b[5] && NAME_PREFIX <= a && NAME_PREFIX <= b;
    ChangedIsComponent(a, "job");
    ChangedIsComponent(b, "");
    c := Cluster([], map[], map[a := ChangedComponent(a, "job"), b := ChangedComponent(b, "")], map[], map[], None,
                 None, 0, {Read(JobT("job"))}, []);
    s := SnapshotMap(map[], "", map[a := ComponentRecordOf(a), b := ComponentRecordOf(b)], 0);
    var components := Components(c.charts);
    assert a in components && b in components && a in s.data && b in s.data;
    assert ReadyVerdict(c, PairOf(components, s.data, a), 0) == Err(ApiError);
    assert ReadyVerdict(c, PairOf(components, s.data, b), 0) == Ok(false);
    order, order' := MixedDisagree(c, hash, s, false, target);
  }
}

/** Removing the plans of the version applied before (cleanupOldVersionPlans in
    internal/controller/release_controller.go). */
module PlanCleanup {
  import opened Wrappers
  import opened Api
  import opened Clusters
  import opened HelmReconciler
  import opened Plans
  import opened PackagedComponents
  import opened Controller

  /** The plans labelled for an owner. */
  function PlansOf(plans: map<string, Plan>, o: Owner): set<string> {
    set n | n in plans && HasLabels(plans[n].labels, OwnerLabels(o))
  }

  /** The names whose deletion currently fails. */
  function Undeletable(c: Cluster, names: set<string>): set<string> {
    set n | n in names && Delete(PlanT(n)) in c.faults
  }

  function Names(names: seq<string>): set<string> {
    set n | n in names
  }

  lemma NamesStep(c: Cluster, names: seq<string>)
    requires names != []
    ensures var first := if Delete(PlanT(names[0])) in c.faults then {} else {names[0]};
            var listed, later := Names(names), Names(names[1..]);
            && listed - Undeletable(c, listed) == first + (later - Undeletable(c, later))
            && (Undeletable(c, listed) == {} <==> Delete(PlanT(names[0])) !in c.faults && Undeletable(c, later) == {})
  {
    assert Names(names) == {names[0]} + Names(names[1..]);
    var listed, later := Names(names), Names(names[1..]);
    assert Delete(PlanT(names[0])) in c.faults ==> names[0] in Undeletable(c, listed);
    assert Delete(PlanT(names[0])) !in c.faults ==> Undeletable(c, listed) == Undeletable(c, later);
  }

  lemma {:induction false} DeleteAllExact(c: Cluster, names: seq<string>)
    ensures var (c', ok) := DeleteAll(c, names);
            && c' == c.(trace := c'.trace, plans := c.plans - (Names(names) - Undeletable(c, Names(names))))
            && (ok <==> Undeletable(c, Names(names)) == {})
    decreases |names|
  {
    if names == [] {
      assert c.plans - {} == c.plans;
    } else {
      var c1 := c.DeletePlan(names[0]).0;
      DeleteAllExact(c1, names[1..]);
      NamesStep(c, names);
      var first := if Delete(PlanT(names[0])) in c.faults then {} else {names[0]};
      var later := Names(names[1..]) - Undeletable(c, Names(names[1..]));
      assert Undeletable(c1, Names(names[1..])) == Undeletable(c, Names(names[1..]));
      assert c.plans - {} == c.plans;
      assert c1.plans == c.plans - first;
      assert c.plans - (first + later) == (c.plans - first) - later;
    }
  }

  /** Exactly the plans labelled for the old version go, except those whose deletion fails; it succeeds exactly when the
      list call and every deletion do. */
  lemma CleanupExact(c: Cluster, o: Owner, order: MapOrder)
    requires Enumerates(order)
    ensures var (c', ok) := Cleanup(c, o, order);
            var gone := if Read(PlansT) in c.faults then {} else PlansOf(c.plans, o);
            && c' == c.(trace := c'.trace, plans := c.plans - (gone - Undeletable(c, gone)))
            && (ok <==> Read(PlansT) !in c.faults && Undeletable(c, gone) == {})
  {
    var (c1, plans) := c.ListPlans(OwnerLabels(o));
    if plans.Ok? {
      var names := Listed(order, |c1.trace|, plans.value);
      DeleteAllExact(c1, names);
      assert Names(names) == PlansOf(c.plans, o);
    } else {
      assert c.plans - ({} - Undeletable(c, {})) == c.plans;
    }
  }

  /** A plan made for one version of a release is taken for a plan of another version exactly when both versions have
      the same sanitized form. */
  lemma MistakenIff(base: string, name: string, made: string, other: string, version: string,
                    selector: seq<Requirement>)
    ensures HasLabels(NewPlan(base, Owner(name, made), version, selector).labels, OwnerLabels(Owner(name, other))) <==>
            SanitizeVersion(made) == SanitizeVersion(other)
  {
    var have, want := OwnerLabels(Owner(name, made)), OwnerLabels(Owner(name, other));
    assert RELEASE_NAME_LABEL != RELEASE_VERSION_LABEL by {
      assert RELEASE_NAME_LABEL[|RELEASE_NAME_LABEL| - 1] != RELEASE_VERSION_LABEL[|RELEASE_VERSION_LABEL| - 1];
    }
    assert RELEASE_VERSION_LABEL in want;
    assert have[RELEASE_VERSION_LABEL] == SanitizeVersion(made)
           && want[RELEASE_VERSION_LABEL] == SanitizeVersion(other);
  }
}

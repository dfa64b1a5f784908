/** The upgrade pipeline: phases in order, each only after the one before completed (internal/upgrade/pipeline.go). */
module Pipeline {
  import opened Wrappers
  import opened Api
  import opened Clusters
  import opened ReleaseConfig
  import opened Conditions

  /** A phase and what one pass of its handler does to the cluster and reports. */
  datatype Handler = Handler(phase: Phase, reconcile: (Cluster, Config) -> (Cluster, Result<State, Error>))

  function Phases(hs: seq<Handler>): (phases: seq<Phase>)
    ensures |phases| == |hs|
    ensures forall i | 0 <= i < |hs| :: phases[i] == hs[i].phase
  {
    seq(|hs|, i requires 0 <= i < |hs| => hs[i].phase)
  }

  datatype Report = Report(phase: Phase, state: State)

  /** The phase states reported, in order; `failed` is the phase whose handler returned an error. */
  datatype Run = Run(cluster: Cluster, reports: seq<Report>, failed: Option<Phase>)

  function RunPipeline(hs: seq<Handler>, cfg: Config, c: Cluster): Run
    decreases |hs|
  {
    if hs == [] then Run(c, [], None)
    else
      var (c1, r) := hs[0].reconcile(c, cfg);
      if r.Err? then Run(c1, [], Some(hs[0].phase))
      else if !Completes(r.value) then Run(c1, [Report(hs[0].phase, r.value)], None)
      else
        var rest := RunPipeline(hs[1..], cfg, c1);
        Run(rest.cluster, [Report(hs[0].phase, r.value)] + rest.reports, rest.failed)
  }

  /** The result map: one state per phase, the last report of a phase winning. */
  function Recorded(reports: seq<Report>): map<Phase, State> {
    if reports == [] then map[]
    else
      var last := reports[|reports| - 1];
      Recorded(reports[..|reports| - 1])[last.phase := last.state]
  }

  function Order(reports: seq<Report>): (order: seq<Phase>)
    ensures |order| == |reports|
    ensures forall i | 0 <= i < |reports| :: order[i] == reports[i].phase
  {
    seq(|reports|, i requires 0 <= i < |reports| => reports[i].phase)
  }

  predicate AllComplete(states: map<Phase, State>) {
    forall p | p in states :: Completes(states[p])
  }

  class Pipeline {
    const handlers: seq<Handler>
    const client: Client

    constructor (handlers: seq<Handler>, client: Client)
      ensures this.handlers == handlers && this.client == client
    {
      this.handlers, this.client := handlers, client;
    }

    method GetPhases() returns (phases: seq<Phase>)
      ensures phases == Phases(handlers)
    {
      phases := [];
      for i := 0 to |handlers|
        invariant phases == Phases(handlers)[..i]
      {
        phases := phases + [handlers[i].phase];
      }
    }

    /** The recorded states, and the phase whose handler returned an error, if any. */
    method Reconcile(cfg: Config) returns (states: map<Phase, State>, failed: Option<Phase>)
      modifies client
      ensures var run := RunPipeline(handlers, cfg, old(client.cluster));
              && client.cluster == run.cluster && states == Recorded(run.reports) && failed == run.failed
    {
      ghost var run := RunPipeline(handlers, cfg, client.cluster);
      ghost var done: seq<Report> := [];
      states, failed := map[], None;
      for i := 0 to |handlers|
        invariant states == Recorded(done) && failed == None
        invariant run == After(done, RunPipeline(handlers[i..], cfg, client.cluster))
      {
        ghost var rest := handlers[i..];
        assert rest[0] == handlers[i] && rest[1..] == handlers[i + 1..];
        var (c1, r) := handlers[i].reconcile(client.cluster, cfg);
        client.cluster := c1;
        if r.Err? {
          assert done + [] == done;
          failed := Some(handlers[i].phase);
          return;
        }
        AfterOne(done, Report(handlers[i].phase, r.value), RunPipeline(rest[1..], cfg, c1));
        done := done + [Report(handlers[i].phase, r.value)];
        states := states[handlers[i].phase := r.value];
        if !Completes(r.value) {
          return;
        }
      }
      assert done + [] == done;
    }
  }

  function After(done: seq<Report>, rest: Run): Run {
    Run(rest.cluster, done + rest.reports, rest.failed)
  }

  lemma AfterOne(done: seq<Report>, r: Report, rest: Run)
    ensures After(done, Run(rest.cluster, [r] + rest.reports, rest.failed)) == After(done + [r], rest)
    ensures Recorded(done + [r]) == Recorded(done)[r.phase := r.state]
  {
    assert done + ([r] + rest.reports) == (done + [r]) + rest.reports;
    assert (done + [r])[..|done|] == done;
  }

  // ---------------------------------------------------------------- shape of a run

  predicate DistinctPhases(hs: seq<Handler>) {
    forall i, j | 0 <= i < j < |hs| :: hs[i].phase != hs[j].phase
  }

  /** The clusters a run goes through: each handler works on the one its predecessor left, and the states reported are
      the answers it gave. */
  ghost predicate Passed(hs: seq<Handler>, cfg: Config, c: Cluster, run: Run, cs: seq<Cluster>) {
    var n := |run.reports|;
    && n <= |hs| && |cs| == n + 1 && cs[0] == c
    && (forall i | 0 <= i < n ::
          run.reports[i].phase == hs[i].phase && hs[i].reconcile(cs[i], cfg) == (cs[i + 1], Ok(run.reports[i].state)))
    && (if run.failed.None? then run.cluster == cs[n]
        else
          && n < |hs| && run.failed == Some(hs[n].phase)
          && hs[n].reconcile(cs[n], cfg).0 == run.cluster && hs[n].reconcile(cs[n], cfg).1.Err?)
  }

  lemma {:induction false} RunPasses(hs: seq<Handler>, cfg: Config, c: Cluster) returns (cs: seq<Cluster>)
    ensures Passed(hs, cfg, c, RunPipeline(hs, cfg, c), cs)
    decreases |hs|
  {
    cs := [c];
    if hs != [] {
      var (c1, r) := hs[0].reconcile(c, cfg);
      if r.Ok? && Completes(r.value) {
        cs := RunPasses(hs[1..], cfg, c1);
        cs := [c] + cs;
      } else if r.Ok? {
        cs := [c, c1];
      }
    }
  }

  /** A run reports a prefix of the phases. All but the last of them completed; a run that stopped without an error
      stopped at a phase that did not; an error comes from the phase after the prefix. */
  lemma {:induction false} RunShape(hs: seq<Handler>, cfg: Config, c: Cluster)
    ensures var run := RunPipeline(hs, cfg, c);
            var n := |run.reports|;
            && n <= |hs|
            && (forall i | 0 <= i < n :: run.reports[i].phase == hs[i].phase)
            && (forall i | 0 <= i < n - 1 :: Completes(run.reports[i].state))
            && (run.failed.Some? ==> n < |hs| && run.failed.value == hs[n].phase
                                     && (n > 0 ==> Completes(run.reports[n - 1].state)))
            && (run.failed.None? && n < |hs| ==> n > 0 && !Completes(run.reports[n - 1].state))
    decreases |hs|
  {
    if hs != [] {
      var (c1, r) := hs[0].reconcile(c, cfg);
      if r.Ok? && Completes(r.value) {
        RunShape(hs[1..], cfg, c1);
        var run, rest := RunPipeline(hs, cfg, c), RunPipeline(hs[1..], cfg, c1);
        var n := |run.reports|;
        forall i | 0 < i < n ensures run.reports[i] == rest.reports[i - 1] && run.reports[i].phase == hs[i].phase {
        }
      }
    }
  }

  /** With distinct phases, each report is recorded. */
  lemma {:induction false} RecordedExact(reports: seq<Report>)
    requires forall i, j | 0 <= i < j < |reports| :: reports[i].phase != reports[j].phase
    ensures forall i | 0 <= i < |reports| ::
              reports[i].phase in Recorded(reports) && Recorded(reports)[reports[i].phase] == reports[i].state
    ensures Conditions.IsOrderOf(Order(reports), Recorded(reports).Keys)
    decreases |reports|
  {
    if reports != [] {
      var k := |reports| - 1;
      RecordedExact(reports[..k]);
      assert Order(reports) == Order(reports[..k]) + [reports[k].phase];
    }
  }

  /** Over a partial result, AllComplete means that every handler ran and completed, because the phase at which the
      pipeline stops is recorded. */
  lemma CompleteIffAllRan(hs: seq<Handler>, cfg: Config, c: Cluster)
    requires DistinctPhases(hs) && RunPipeline(hs, cfg, c).failed.None?
    ensures var reports := RunPipeline(hs, cfg, c).reports;
            AllComplete(Recorded(reports)) <==> |reports| == |hs| && forall r | r in reports :: Completes(r.state)
  {
    RunShape(hs, cfg, c);
    var reports := RunPipeline(hs, cfg, c).reports;
    RecordedExact(reports);
    var states := Recorded(reports);
    if AllComplete(states) {
      forall i | 0 <= i < |reports| ensures Completes(reports[i].state) {
        assert states[reports[i].phase] == reports[i].state;
      }
    } else {
      var p :| p in states && !Completes(states[p]);
      assert p in Order(reports);
      var i :| 0 <= i < |reports| && Order(reports)[i] == p;
      assert reports[i] in reports;
    }
  }

  // ---------------------------------------------------------------- one action at a time

  /** From states that satisfy `ok`, the handler starts at most
      one action, as its last call, and none when it completes. */
  ghost predicate Frugal(h: Handler, ok: Cluster -> bool) {
    forall c, cfg | ok(c) ::
      var (c', r) := h.reconcile(c, cfg);
      && ok(c') && StartsLast(c, c')
      && (r.Ok? && Completes(r.value) ==> Quiet(c, c'))
  }

  /** A pipeline of such handlers starts at most one action, as
      its last call, so after it no later phase was touched. */
  lemma {:induction false} PipelineStarts(hs: seq<Handler>, cfg: Config, c: Cluster, ok: Cluster -> bool)
    requires ok(c) && forall h | h in hs :: Frugal(h, ok)
    ensures var run := RunPipeline(hs, cfg, c);
            && ok(run.cluster) && StartsLast(c, run.cluster)
            && (run.failed.None? && (forall r | r in run.reports :: Completes(r.state)) ==> Quiet(c, run.cluster))
    decreases |hs|
  {
    if hs != [] {
      assert Frugal(hs[0], ok);
      var (c1, r) := hs[0].reconcile(c, cfg);
      if r.Ok? && Completes(r.value) {
        PipelineStarts(hs[1..], cfg, c1, ok);
        var run, rest := RunPipeline(hs, cfg, c), RunPipeline(hs[1..], cfg, c1);
        QuietThen(c, c1, rest.cluster);
        assert forall r | r in rest.reports :: r in run.reports;
      } else if r.Ok? {
        assert Report(hs[0].phase, r.value) in RunPipeline(hs, cfg, c).reports;
      }
    } else {
      assert Since(c, c) == [];
    }
  }
}

/** What becomes of an interrupted Clusteragent run once the calls succeed again and the user
    leaves the resource alone: it settles, and of the restarts it owed it makes up for exactly
    those whose annotation it had not yet saved. */
module ClusteragentRecovery {
  import opened Text
  import opened ControllerUrl
  import opened ClusteragentSpec
  import opened ClusteragentMachine
  import opened ClusteragentRuns
  import opened ClusteragentConvergence

  // ---------- Repeated passes ----------

  lemma {:induction false} QuietTimesAdd(m: Machine, a: nat, b: nat)
    requires m.pc.Idle?
    ensures QuietTimes(m, a + b) == QuietTimes(QuietTimes(m, a), b)
    decreases a
  {
    hide Quiet;
    if a > 0 {
      QuietTimesAdd(Quiet(m), a - 1, b);
    }
  }

  /** The quiet passes that work off what differs, and one more to be done. */
  function Passes(s: Store): nat {
    if s.deployment.Some? then One(ImageGap(s)) + One(KeyGap(s)) + 1 else 1
  }

  // ---------- Failed restarts ----------

  lemma FailedCallChangesNothing(m: Machine)
    requires !m.pc.Idle?
    ensures CallStep(m, false).store == m.store && CallStep(m, false).restarts == m.restarts
  {
    hide ParseUrl, Defaults, Json, RenderMon, RenderLog, RenderAgent, NewDeployment, DeploymentDefaults;
  }

  /** When a failing call ends the pass, later passes delete the pod once if at that moment the
      stored URL or account differs from the annotation, and never otherwise. */
  lemma FailedPassIsMadeUpFor(m: Machine, n: nat)
    requires !m.pc.Idle? && CallStep(m, false).pc.Idle?
    requires m.store.deployment.Some? && ValidUrl(m.store.spec)
    ensures QuietTimes(CallStep(m, false), Passes(m.store) + n).restarts == m.restarts + One(KeyGap(m.store))
  {
    hide CallStep, ParseUrl, Defaults, Json, RenderMon, RenderLog, RenderAgent, Quiet, QuietTimes;
    var f := CallStep(m, false);
    FailedCallChangesNothing(m);
    SettlesInSteps(f);
    QuietTimesAdd(f, Passes(m.store), n);
    DefaultsKeep(m.store.spec);
    DefaultsKeep(Defaults(m.store.spec));
    NoKeyGapNoRestart(QuietTimes(f, Passes(m.store)), n);
  }

  /** The Deployment is to be updated for a restart, or has been. */
  predicate RestartDecided(m: Machine) {
    m.pc == DeploymentUpdate(true) || m.pc.PodList? || m.pc.PodDelete?
  }

  /** In every reachable state where a restart has been decided and the user has not edited URL or
      account again: if the next call fails, later passes make up for the restart exactly when the
      new annotation had not yet been written. From then on the restart is lost. */
  lemma FailedRestartIsForgotten(m: Machine, n: nat)
    requires Inv(m) && RestartDecided(m)
    requires m.store.deployment.Some? && Key(m.store.spec) == Key(m.spec)
    ensures CallStep(m, false).pc.Idle? && CallStep(m, false).outcome == Failed
    ensures KeyGap(m.store) <==> m.pc.DeploymentUpdate?
    ensures QuietTimes(CallStep(m, false), Passes(m.store) + n).restarts == m.restarts + One(m.pc.DeploymentUpdate?)
    ensures Drive(m).restarts == m.restarts + 1
  {
    hide ParseUrl, Defaults, Json, RenderMon, RenderLog, RenderAgent, Quiet, QuietTimes, Passes, Supported;
    FailedPassIsMadeUpFor(m, n);
    var next := CallStep(m, true);
    assert Drive(m) == Drive(next);
    if !next.pc.Idle? {
      var last := CallStep(next, true);
      assert Drive(next) == Drive(last);
      if !last.pc.Idle? {
        assert Drive(last) == Drive(CallStep(last, true));
      }
    }
  }

  lemma CallTowardsPodList(m: Machine)
    requires !m.pc.Idle? && !m.pc.PodList? && !m.pc.PodDelete? && !m.pc.SpecUpdate?
    ensures var next := CallStep(m, true);
            && next.restarts == m.restarts && next.store.spec == m.store.spec && Key(next.spec) == Key(m.spec)
            && !next.pc.PodDelete?
  {
    hide ParseUrl, Json, RenderMon, RenderLog, RenderAgent, NewDeployment;
  }

  /** A pass that restarts the agent comes to list the pods. */
  lemma {:induction false} ReachesPodList(m: Machine) returns (calls: nat)
    requires !m.pc.Idle? && !m.pc.PodDelete? && Drive(m).restarts > m.restarts && Key(m.spec) == Key(m.store.spec)
    ensures var r := Run(m, AllSucceed(calls));
            && r.pc.PodList? && r.restarts == m.restarts
            && r.store.spec == m.store.spec && Key(r.spec) == Key(r.store.spec)
    decreases CallsLeft(m.pc)
  {
    hide CallStep;
    if m.pc.PodList? {
      calls := 0;
    } else {
      if m.pc.SpecUpdate? {
        DriveDecision(m);
      }
      CallTowardsPodList(m);
      CallDecreases(m, true);
      calls := ReachesPodList(CallStep(m, true));
      PrependCall(m, calls);
      calls := calls + 1;
    }
  }

  /** Restarts are lost in reach of every installation: let the agent be installed, change its URL
      or account, and let the pod list fail in the pass that would restart it. The edit counts, the
      pod is never deleted. */
  lemma RestartCanBeLost(m: Machine, edit: Spec) returns (events: seq<Event>)
    requires Initial(m) && ValidUrl(m.store.spec)
    requires ValidUrl(edit) && Key(edit) != Key(m.store.spec)
    ensures var r := Run(m, events);
            && r.pc.PodList? && r.store.spec == edit && r.store.deployment.Some? && r.restarts == 0
            && CallStep(r, false).pc.Idle?
            && forall n: nat :: QuietTimes(CallStep(r, false), n).restarts == 0
  {
    hide CallStep, ParseUrl, Json, Defaults, Quiet, QuietTimes, Inv, Run, Passes, AllSucceed;
    var installing := QuietIsRun(m);
    var edited := Step(Quiet(m), Edit(edit));
    InstalledThenEdited(m, edit);
    var restarting := Restarting(edited);
    events := AllSucceed(installing) + [Edit(edit)] + AllSucceed(restarting);
    RunConcat(m, AllSucceed(installing) + [Edit(edit)], AllSucceed(restarting));
    RunOne(m, AllSucceed(installing), Edit(edit));
    var r := Run(m, events);
    assert Inv(m) by {
      InitialInv(m);
    }
    RunKeepsInv(m, events);
    FailedRestartIsForgotten(r, 0);
    FailedCallChangesNothing(r);
    forall n: nat
      ensures QuietTimes(CallStep(r, false), n).restarts == 0
    {
      NoKeyGapNoRestart(CallStep(r, false), n);
    }
  }

  lemma InitialInv(m: Machine)
    requires Initial(m)
    ensures Inv(m)
  {
  }

  lemma RunOne(m: Machine, events: seq<Event>, e: Event)
    ensures Run(m, events + [e]) == Step(Run(m, events), e)
  {
    hide Step;
    var all := events + [e];
    assert all[..|all| - 1] == events;
  }

  lemma InstalledThenEdited(m: Machine, edit: Spec)
    requires m.pc.Idle? && m.store.deployment.None? && ValidUrl(m.store.spec) && Key(edit) != Key(m.store.spec)
    ensures var edited := Step(Quiet(m), Edit(edit));
            && edited.pc.Idle? && edited.restarts == m.restarts && edited.store.spec == edit && KeyGap(edited.store)
  {
    hide ParseUrl, Json, Defaults, Quiet, RenderMon, RenderLog, RenderAgent;
    QuietCreate(m);
    DefaultsKeep(m.store.spec);
    DefaultsKeep(DeploymentDefaults(Defaults(m.store.spec)));
  }

  lemma {:induction false} AllSucceedAdd(a: nat, b: nat)
    ensures AllSucceed(a + b) == AllSucceed(a) + AllSucceed(b)
  {
    if b > 0 {
      AllSucceedAdd(a, b - 1);
    }
  }

  /** A changed URL or account leads to a pod list, after one more pass if the image changed too. */
  lemma {:induction false} Restarting(m: Machine) returns (calls: nat)
    requires m.pc.Idle? && KeyGap(m.store) && ValidUrl(m.store.spec)
    ensures var r := Run(m, AllSucceed(calls));
            && r.pc.PodList? && r.restarts == m.restarts && r.store.spec == m.store.spec
            && Key(r.spec) == Key(r.store.spec) && r.store.deployment.Some?
    decreases One(ImageGap(m.store))
  {
    hide ParseUrl, Json, Defaults, Quiet, AllSucceed, Run, RenderMon, RenderLog, RenderAgent;
    QuietUpdate(m);
    if ImageGap(m.store) {
      var updating := QuietIsRun(m);
      calls := Restarting(Quiet(m));
      AllSucceedAdd(updating, calls);
      RunConcat(m, AllSucceed(updating), AllSucceed(calls));
      calls := updating + calls;
    } else {
      var begun := CallStep(m, true);
      QuietBegins(m);
      calls := ReachesPodList(begun);
      KeepsDeployment(begun, calls);
      PrependCall(m, calls);
      calls := calls + 1;
    }
  }

  lemma QuietBegins(m: Machine)
    requires m.pc.Idle?
    ensures Quiet(m) == Drive(CallStep(m, true))
  {
    hide CallStep, Drive;
  }

  /** No call removes the Deployment. */
  lemma {:induction false} KeepsDeployment(m: Machine, n: nat)
    requires m.store.deployment.Some?
    ensures Run(m, AllSucceed(n)).store.deployment.Some?
  {
    hide CallStep;
    if n > 0 {
      KeepsDeployment(m, n - 1);
      CallKeepsDeployment(Run(m, AllSucceed(n - 1)));
    }
  }

  lemma CallKeepsDeployment(m: Machine)
    requires m.store.deployment.Some?
    ensures CallStep(m, true).store.deployment.Some?
  {
    hide ParseUrl, Defaults, Json, RenderMon, RenderLog, RenderAgent, NewDeployment, DeploymentDefaults;
  }

  // ---------- Every run settles ----------

  lemma {:induction false} DriveKeepsValid(m: Machine)
    requires Inv(m) && ValidUrl(m.store.spec)
    ensures Inv(Drive(m)) && ValidUrl(Drive(m).store.spec)
    decreases CallsLeft(m.pc)
  {
    hide CallStep, Inv, ParseUrl;
    if !m.pc.Idle? {
      CallDecreases(m, true);
      StepKeepsInv(m, Call(true));
      CallKeepsValid(m);
      DriveKeepsValid(CallStep(m, true));
    }
  }

  lemma CallKeepsValid(m: Machine)
    requires Inv(m) && ValidUrl(m.store.spec) && !m.pc.Idle?
    ensures ValidUrl(CallStep(m, true).store.spec)
  {
    hide ParseUrl, RenderMon, RenderLog, RenderAgent, NewDeployment, DeploymentDefaults, Defaults, Supported, InStep;
    hide Owed;
    assert Key(Json(m.spec)) == Key(m.spec);
  }

  /** Everything follows the stored spec, and another pass writes nothing new. */
  predicate Steady(s: Store) {
    && ValidUrl(s.spec) && s.deployment.Some? && Measure(s) == 0
    && s.spec == Json(Defaults(s.spec))
    && Rendered(Defaults(s.spec), s.agent, s.mon, s.log)
  }

  lemma {:induction false} SteadyForever(m: Machine, n: nat)
    requires m.pc.Idle? && m.outcome == Done && Steady(m.store) && Quiet(m).store == m.store
    ensures var q := QuietTimes(m, n);
            q.store == m.store && q.restarts == m.restarts && q.outcome == Done && Quiet(q).store == q.store
    decreases n
  {
    hide Defaults, Json, Rendered, ParseUrl, Quiet, RenderMon, RenderLog, RenderAgent;
    if n > 0 {
      QuietUpdate(m);
      QuietPassProgress(m);
      QuietUpdate(Quiet(m));
      SteadyForever(Quiet(m), n - 1);
    }
  }

  /** One pass after a finished one with a tidy spec is steady. */
  lemma TidyThenSteady(m: Machine)
    requires m.pc.Idle? && m.store.deployment.Some? && ValidUrl(m.store.spec) && Measure(m.store) == 0
    requires Tidy(m.store.spec)
    ensures var q := Quiet(m);
            q.outcome == Done && q.restarts == m.restarts && Steady(q.store) && Quiet(q).store == q.store
  {
    hide Defaults, Json, Rendered, ParseUrl, Quiet, RenderMon, RenderLog, RenderAgent, Tidy;
    DoneIsStable(m);
    QuietPassProgress(m);
    QuietUpdate(m);
    DefaultsKeep(m.store.spec);
    DefaultsKeep(Defaults(m.store.spec));
    QuietPassProgress(Quiet(m));
  }

  /** From every state of every run, however interrupted, with an acceptable stored URL: once calls
      succeed and the user stays away, the pass under way ends, and after four more everything
      follows the stored spec, and nothing ever changes again. */
  lemma EveryRunSettles(m: Machine, events: seq<Event>, n: nat)
    requires Initial(m) && ValidUrl(Run(m, events).store.spec)
    ensures Drive(Run(m, events)).pc.Idle?
    ensures var q := QuietTimes(Drive(Run(m, events)), 4);
            var r := QuietTimes(q, n);
            && q.outcome == r.outcome == Done && Steady(q.store)
            && r.store == q.store && r.restarts == q.restarts
  {
    hide Defaults, Json, Rendered, ParseUrl, Quiet, QuietTimes, Drive, Inv, Steady, Run, Tidy;
    InitialInv(m);
    RunKeepsInv(m, events);
    DriveKeepsValid(Run(m, events));
    var d := Drive(Run(m, events));
    DriveEnds(Run(m, events));
    var k := Passes(d.store);
    DoneAfterPasses(d);
    var x := QuietTimes(d, k);
    TidyThenSteady(x);
    QuietTimesAdd(d, k, 1);
    QuietOnce(x);
    var y := Quiet(x);
    assert QuietTimes(d, k + 1) == y;
    QuietTimesAdd(d, k + 1, 3 - k);
    SteadyForever(y, 3 - k);
    SteadyForever(QuietTimes(y, 3 - k), n);
  }

  lemma QuietOnce(m: Machine)
    requires m.pc.Idle?
    ensures QuietTimes(m, 1) == Quiet(m)
  {
    hide Quiet;
    assert QuietTimes(Quiet(m), 0) == Quiet(m);
  }

  lemma DoneAfterPasses(m: Machine)
    requires m.pc.Idle? && ValidUrl(m.store.spec)
    ensures 1 <= Passes(m.store) <= 3
    ensures var x := QuietTimes(m, Passes(m.store));
            && x.store.deployment.Some? && ValidUrl(x.store.spec) && Measure(x.store) == 0 && Tidy(x.store.spec)
  {
    hide Defaults, Json, Rendered, ParseUrl, Quiet, QuietTimes, RenderMon, RenderLog, RenderAgent;
    var s := m.store.spec;
    DefaultsKeep(s);
    if m.store.deployment.Some? {
      SettlesInSteps(m);
      DefaultsKeep(Defaults(s));
      JsonTwice(Defaults(s));
    } else {
      QuietCreate(m);
      QuietOnce(m);
      DefaultsKeep(DeploymentDefaults(Defaults(s)));
      JsonTwice(DeploymentDefaults(Defaults(s)));
    }
  }

  lemma JsonTwice(s: Spec)
    ensures Json(Json(s)) == Json(s)
  {
  }
}

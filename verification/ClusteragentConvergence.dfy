/** Where fault-free, edit-free Reconciles take the cluster, pass by pass. */
module ClusteragentConvergence {
  import opened Text
  import opened GoTypes
  import opened ControllerUrl
  import opened ClusteragentSpec
  import opened ClusteragentMachine

  // ---------- One quiet pass ----------

  /** A bound on the calls left before the machine is idle. */
  function CallsLeft(pc: Pc): nat {
    match pc
    case Idle => 0
    case DeploymentGet => 16
    case CleanGet => 15
    case CleanDelete => 14
    case SecretGet => 13
    case SecretCreate => 12
    case SecretReload => 11
    case MonGet => 10
    case MonPut(_) => 9
    case AgentGet => 8
    case AgentPut(_) => 7
    case LogGet => 6
    case LogPut(_) => 5
    case ProxyGet => 4
    case DeploymentCreate => 3
    case DeploymentUpdate(_) => 3
    case PodList => 2
    case PodDelete => 1
    case SpecUpdate => 2
    case StatusUpdate => 1
  }

  lemma CallDecreases(m: Machine, ok: bool)
    requires !m.pc.Idle?
    ensures CallsLeft(CallStep(m, ok).pc) < CallsLeft(m.pc)
  {
    hide ParseUrl, Defaults, Json, RenderMon, RenderLog, RenderAgent, NewDeployment, DeploymentDefaults;
  }

  /** Every call succeeds until the Reconcile is over. */
  function Drive(m: Machine): Machine
    decreases CallsLeft(m.pc)
  {
    if m.pc.Idle? then m
    else
      CallDecreases(m, true);
      Drive(CallStep(m, true))
  }

  lemma {:induction false} DriveEnds(m: Machine)
    ensures Drive(m).pc.Idle?
    decreases CallsLeft(m.pc)
  {
    hide CallStep;
    if !m.pc.Idle? {
      CallDecreases(m, true);
      DriveEnds(CallStep(m, true));
    }
  }

  /** One Reconcile without failures and without user events. */
  function Quiet(m: Machine): (q: Machine)
    requires m.pc.Idle?
    ensures q.pc.Idle?
  {
    DriveEnds(CallStep(m, true));
    Drive(CallStep(m, true))
  }

  function AllSucceed(n: nat): seq<Event> {
    if n == 0 then [] else AllSucceed(n - 1) + [Call(true)]
  }

  lemma {:induction false} DriveIsRun(m: Machine) returns (calls: nat)
    ensures Drive(m) == Run(m, AllSucceed(calls))
    decreases CallsLeft(m.pc)
  {
    hide CallStep;
    if m.pc.Idle? {
      calls := 0;
    } else {
      CallDecreases(m, true);
      calls := DriveIsRun(CallStep(m, true));
      PrependCall(m, calls);
      calls := calls + 1;
    }
  }

  lemma {:induction false} PrependCall(m: Machine, n: nat)
    ensures Run(m, AllSucceed(n + 1)) == Run(CallStep(m, true), AllSucceed(n))
  {
    hide CallStep;
    var s := AllSucceed(n + 1);
    assert s[..|s| - 1] == AllSucceed(n);
    if n > 0 {
      PrependCall(m, n - 1);
      var t := AllSucceed(n);
      assert t[..|t| - 1] == AllSucceed(n - 1);
    }
  }

  lemma CallBeginsPass(m: Machine, ok: bool)
    ensures CallStep(m, ok).passes == m.passes + One(m.pc.Idle?)
  {
    hide ParseUrl, Defaults, Json, RenderMon, RenderLog, RenderAgent, NewDeployment, DeploymentDefaults;
  }

  lemma {:induction false} PassesGrow(m: Machine, n: nat)
    ensures Run(m, AllSucceed(n)).passes >= m.passes + One(m.pc.Idle? && n > 0)
  {
    hide CallStep;
    if n > 0 {
      PassesGrow(m, n - 1);
      CallBeginsPass(Run(m, AllSucceed(n - 1)), true);
    }
  }

  lemma {:induction false} OnlyDrive(m: Machine, n: nat)
    requires !m.pc.Idle?
    requires Run(m, AllSucceed(n)).pc.Idle? && Run(m, AllSucceed(n)).passes == m.passes
    ensures Run(m, AllSucceed(n)) == Drive(m)
    decreases n
  {
    hide CallStep;
    var next := CallStep(m, true);
    PrependCall(m, n - 1);
    CallBeginsPass(m, true);
    if next.pc.Idle? {
      PassesGrow(next, n - 1);
    } else {
      OnlyDrive(next, n - 1);
    }
  }

  lemma DriveIdle(m: Machine)
    requires m.pc.Idle?
    ensures Drive(m) == m && Run(m, AllSucceed(0)) == m
  {
  }

  /** Conversely, successful calls that begin one pass and end it are the quiet pass. */
  lemma UndisturbedIsQuiet(m: Machine, n: nat)
    requires m.pc.Idle?
    requires Run(m, AllSucceed(n)).pc.Idle? && Run(m, AllSucceed(n)).passes == m.passes + 1
    ensures Run(m, AllSucceed(n)) == Quiet(m)
  {
    hide CallStep, Drive, Run, AllSucceed;
    DriveIdle(m);
    if n > 0 {
      PrependCall(m, n - 1);
      var next := CallStep(m, true);
      CallBeginsPass(m, true);
      if next.pc.Idle? {
        DriveIdle(next);
        PassesGrow(next, n - 1);
      } else {
        OnlyDrive(next, n - 1);
      }
    }
  }

  /** A quiet pass is a run of the machine: the calls of one Reconcile, all of them successful. */
  lemma QuietIsRun(m: Machine) returns (calls: nat)
    requires m.pc.Idle?
    ensures Quiet(m) == Run(m, AllSucceed(calls))
  {
    hide CallStep;
    calls := DriveIsRun(CallStep(m, true));
    PrependCall(m, calls);
    calls := calls + 1;
  }

  // ---------- What a pass computes ----------

  function WithSecret(s: Store): Store {
    s.(secrets := s.secrets + {SecretName(s.spec)})
  }

  function WithConfig(s: Store, spec: Spec): Store
    requires ValidUrl(spec)
  {
    s.(agent := Some(RenderAgent(spec, ParseUrl(spec.controllerUrl).endpoint)),
       mon := Some(RenderMon(spec)), log := Some(RenderLog(spec)))
  }

  lemma DriveSecret(m: Machine)
    requires m.pc.SecretGet?
    ensures Drive(m) == Drive(EnterConfig(m.(store := m.store.(secrets := m.store.secrets + {SecretName(m.spec)}))))
  {
    hide ParseUrl, Defaults, ConfigCall, CommitCall;
    if SecretName(m.spec) in m.store.secrets {
      assert m.store.secrets + {SecretName(m.spec)} == m.store.secrets;
      assert m.store.(secrets := m.store.secrets) == m.store;
      assert Drive(m) == Drive(CallStep(m, true));
    } else {
      var created := CallStep(m, true);
      assert Drive(m) == Drive(created);
      var reload := CallStep(created, true);
      assert Drive(created) == Drive(reload);
      assert Drive(reload) == Drive(CallStep(reload, true));
    }
  }

  /** The second half of a pass, on the refreshed ConfigMaps. */
  function AfterConfig(m: Machine): Machine
    requires ValidUrl(m.spec)
  {
    var written := m.(store := WithConfig(m.store, m.spec));
    if m.creating then BuildDeployment(written) else Decide(written)
  }

  lemma DriveConfig(m: Machine)
    requires m.pc.MonGet? && ValidUrl(m.spec)
    ensures Drive(m) == Drive(AfterConfig(m))
  {
    hide ParseUrl, RenderMon, RenderLog, RenderAgent, Json, Defaults, PrepareCall, CommitCall;
    var m1 := CallStep(m, true);
    var m2 := CallStep(m1, true);
    var m3 := CallStep(m2, true);
    var m4 := CallStep(m3, true);
    var m5 := CallStep(m4, true);
    assert Drive(m) == Drive(m1);
    assert Drive(m1) == Drive(m2);
    assert Drive(m2) == Drive(m3);
    assert Drive(m3) == Drive(m4);
    assert Drive(m4) == Drive(m5);
    assert m5.store.(log := Some(RenderLog(m.spec))) == WithConfig(m.store, m.spec);
    assert Drive(m5) == Drive(CallStep(m5, true));
  }

  predicate ImageGap(s: Store) {
    s.deployment.Some? && s.spec.image != "" && s.deployment.value.image != s.spec.image
  }

  predicate KeyGap(s: Store) {
    s.deployment.Some? && Key(s.deployment.value.annotation) != Key(s.spec)
  }

  /** The measure of what is left to do: the image counts twice, as it is updated first. */
  function Measure(s: Store): nat {
    2 * One(ImageGap(s)) + One(KeyGap(s))
  }

  /** A quiet pass over an existing Deployment. */
  function UpdatePass(s: Store): (Store, Outcome)
    requires s.deployment.Some? && ValidUrl(s.spec) && ValidUrl(Defaults(s.spec))
  {
    var spec := Defaults(s.spec);
    var t := WithConfig(WithSecret(s), spec);
    var d := s.deployment.value;
    if ImageGap(s) then (t.(deployment := Some(d.(image := s.spec.image))), Requeued)
    else if KeyGap(s) then (t.(deployment := Some(d.(annotation := Json(spec)))), Requeued)
    else (t.(spec := Json(spec)), Done)
  }

  lemma DefaultsKeep(s: Spec)
    ensures ValidUrl(Defaults(s)) == ValidUrl(s)
    ensures Key(Defaults(s)) == Key(s) && Defaults(s).image == s.image
    ensures SecretName(Defaults(s)) == SecretName(s)
    ensures Key(Json(s)) == Key(s) && Json(s).image == s.image
    ensures ValidUrl(Json(s)) == ValidUrl(s) && SecretName(Json(s)) == SecretName(s)
  {
    hide ParseUrl;
  }

  lemma DriveDecision(m: Machine)
    requires m.pc.SpecUpdate? || m.pc.DeploymentUpdate?
    requires m.pc.DeploymentUpdate? ==> m.store.deployment.Some?
    ensures var q := Drive(m);
            && q.pc.Idle?
            && (m.pc.SpecUpdate? ==>
                  q.outcome == Done && q.restarts == m.restarts && q.store == m.store.(spec := Json(m.spec)))
            && (m.pc.DeploymentUpdate? ==>
                  && q.outcome == Requeued && q.restarts == m.restarts + One(m.pc.restart)
                  && q.store == m.store.(deployment := Some(m.draft)))
  {
    hide ParseUrl, Json;
    var m1 := CallStep(m, true);
    assert Drive(m) == Drive(m1);
    if !m1.pc.Idle? {
      var m2 := CallStep(m1, true);
      assert Drive(m1) == Drive(m2);
      if !m2.pc.Idle? {
        assert Drive(m2) == Drive(CallStep(m2, true));
      }
    }
  }

  lemma QuietUpdate(m: Machine)
    requires m.pc.Idle? && m.store.deployment.Some? && ValidUrl(m.store.spec)
    ensures ValidUrl(Defaults(m.store.spec))
    ensures var q := Quiet(m);
            && q.pc.Idle? && (q.store, q.outcome) == UpdatePass(m.store)
            && q.restarts == m.restarts + One(KeyGap(m.store) && !ImageGap(m.store))
  {
    hide ParseUrl, Defaults, Json, RenderMon, RenderLog, RenderAgent;
    DefaultsKeep(m.store.spec);
    var m1 := CallStep(m, true);
    var m2 := CallStep(m1, true);
    assert Drive(m1) == Drive(m2);
    DriveSecret(m2);
    var m3 := EnterConfig(m2.(store := m2.store.(secrets := m2.store.secrets + {SecretName(m2.spec)})));
    DriveConfig(m3);
    DriveDecision(AfterConfig(m3));
  }

  // ---------- Convergence ----------

  /** A quiet pass asks for a requeue exactly when the measure is positive, and then lowers it;
      otherwise it leaves the Deployment alone, and ConfigMaps and stored spec are the defaulted
      spec's. */
  lemma QuietPassProgress(m: Machine)
    requires m.pc.Idle? && m.store.deployment.Some? && ValidUrl(m.store.spec)
    ensures var q := Quiet(m);
            && q.pc.Idle? && q.outcome != Failed && q.store.deployment.Some?
            && (q.outcome == Requeued <==> Measure(m.store) > 0)
            && (q.outcome == Requeued ==> Measure(q.store) < Measure(m.store) && q.store.spec == m.store.spec)
            && (q.outcome == Done ==>
                  && Measure(q.store) == 0 && q.store.deployment == m.store.deployment
                  && q.store.spec == Json(Defaults(m.store.spec))
                  && Rendered(Defaults(m.store.spec), q.store.agent, q.store.mon, q.store.log))
  {
    hide ParseUrl, Defaults, Json, RenderMon, RenderLog, RenderAgent, Quiet;
    QuietUpdate(m);
    DefaultsKeep(m.store.spec);
    DefaultsKeep(Defaults(m.store.spec));
  }

  function QuietTimes(m: Machine, n: nat): (q: Machine)
    requires m.pc.Idle?
    ensures q.pc.Idle?
    decreases n
  {
    if n == 0 then m else QuietTimes(Quiet(m), n - 1)
  }

  /** From any state with a Deployment, an image change and a key change are worked off one pass
      each, the image first, and the pass after them is Done; the pod is deleted once if the key
      had changed and not at all otherwise. */
  lemma {:induction false} SettlesInSteps(m: Machine)
    requires m.pc.Idle? && m.store.deployment.Some? && ValidUrl(m.store.spec)
    ensures var passes := One(ImageGap(m.store)) + One(KeyGap(m.store)) + 1;
            var q := QuietTimes(m, passes);
            && q.outcome == Done && q.restarts == m.restarts + One(KeyGap(m.store))
            && q.store.deployment.Some? && Measure(q.store) == 0
            && q.store.spec == Json(Defaults(m.store.spec))
            && Rendered(Defaults(m.store.spec), q.store.agent, q.store.mon, q.store.log)
            && (KeyGap(m.store) && ImageGap(m.store) ==> Quiet(m).restarts == m.restarts)
    decreases Measure(m.store)
  {
    hide ParseUrl, Defaults, Json, RenderMon, RenderLog, RenderAgent, Quiet;
    QuietPassProgress(m);
    QuietUpdate(m);
    DefaultsKeep(m.store.spec);
    var q := Quiet(m);
    if q.outcome == Requeued {
      SettlesInSteps(q);
      assert QuietTimes(m, One(ImageGap(m.store)) + One(KeyGap(m.store)) + 1)
          == QuietTimes(q, One(ImageGap(m.store)) + One(KeyGap(m.store)));
    } else {
      assert QuietTimes(m, 1) == QuietTimes(q, 0);
    }
  }

  /** After a Done pass the next pass changes nothing exactly when the spec had no list that is
      present but empty: the operator's own write drops such a list, and the ConfigMaps follow
      one pass later. From then on nothing changes any more. */
  lemma DoneIsStable(m: Machine)
    requires m.pc.Idle? && m.store.deployment.Some? && ValidUrl(m.store.spec) && Measure(m.store) == 0
    ensures var q := Quiet(m);
            var r := Quiet(q);
            && r.pc.Idle?
            && (r.store == q.store <==> Tidy(m.store.spec))
            && Quiet(r).store == r.store
            && Quiet(r).outcome == r.outcome == Done && Quiet(r).restarts == r.restarts == m.restarts
  {
    hide ParseUrl, Defaults, Json, RenderMon, RenderLog, RenderAgent, Quiet;
    var spec := m.store.spec;
    QuietPassProgress(m);
    QuietUpdate(m);
    var q := Quiet(m);
    DefaultsKeep(spec);
    DefaultsKeep(Defaults(spec));
    QuietPassProgress(q);
    QuietUpdate(q);
    var r := Quiet(q);
    DefaultsKeep(q.store.spec);
    DefaultsKeep(Defaults(q.store.spec));
    QuietUpdate(r);
    RereadRendersSame(spec);
    WriteTwice(spec);
  }

  lemma WriteTwice(s: Spec)
    ensures var d := Defaults(s);
            var e := Defaults(Json(d));
            Defaults(Json(e)) == e && Json(Json(e)) == Json(e) && (Tidy(s) ==> Json(e) == Json(d))
  {
    hide ParseUrl;
  }

  lemma UntidyExample(s: Spec)
    requires s.nsToMonitor == List([])
    ensures !Tidy(s)
    ensures RenderAgent(Defaults(s), Endpoint("", 0, false)).monitoredNamespaces == ""
    ensures RenderAgent(Defaults(Json(Defaults(s))), Endpoint("", 0, false)).monitoredNamespaces == "default"
  {
    hide ParseUrl, Itoa;
    assert Join(["default"], ',') == "default";
  }

  // ---------- First installation ----------

  /** The Deployment a quiet pass creates, and the spec it stores with it. */
  function CreatePass(s: Store): Store
    requires ValidUrl(s.spec) && ValidUrl(Defaults(s.spec))
  {
    var spec := DeploymentDefaults(Defaults(s.spec));
    var t := WithConfig(WithSecret(s), Defaults(s.spec));
    t.(spec := Json(spec),
       deployment := Some(NewDeployment(spec, spec.proxyUser != "" && PROXY_SECRET in t.secrets)))
  }

  lemma DriveCreate(m: Machine)
    requires m.pc.DeploymentCreate? && m.store.deployment.None?
    ensures var q := Drive(m);
            && q.pc.Idle? && q.outcome == Done && q.restarts == m.restarts
            && q.store == m.store.(deployment := Some(m.draft), spec := Json(m.spec))
  {
    hide ParseUrl, Json;
    var m1 := CallStep(m, true);
    assert Drive(m) == Drive(m1);
    DriveDecision(m1);
    assert m1.store.(spec := Json(m.spec)) == m.store.(deployment := Some(m.draft), spec := Json(m.spec));
  }

  lemma DriveBuild(m: Machine)
    requires m.store.deployment.None?
    ensures var s := DeploymentDefaults(m.spec);
            var q := Drive(BuildDeployment(m));
            && q.pc.Idle? && q.outcome == Done && q.restarts == m.restarts
            && q.store == m.store.(
                 spec := Json(s),
                 deployment := Some(NewDeployment(s, s.proxyUser != "" && PROXY_SECRET in m.store.secrets)))
  {
    hide ParseUrl, Json, NewDeployment;
    var b := BuildDeployment(m);
    if b.pc.ProxyGet? {
      assert Drive(b) == Drive(CallStep(b, true));
      DriveCreate(CallStep(b, true));
    } else {
      DriveCreate(b);
    }
  }

  lemma DriveCleanUp(m: Machine)
    requires m.pc.CleanGet?
    ensures Drive(m) == Drive(m.(pc := SecretGet, store := m.store.(agent := None)))
  {
    hide ParseUrl;
    var m1 := CallStep(m, true);
    assert Drive(m) == Drive(m1);
    if m.store.agent.Some? {
      assert Drive(m1) == Drive(CallStep(m1, true));
    } else {
      assert m.store.(agent := None) == m.store;
    }
  }

  /** Without a Deployment one quiet pass installs everything: it is Done with nothing left to
      do, the ConfigMaps and the stored spec are the defaulted spec's, and the new Deployment is
      annotated with the stored spec. */
  lemma QuietCreate(m: Machine)
    requires m.pc.Idle? && m.store.deployment.None? && ValidUrl(m.store.spec)
    ensures ValidUrl(Defaults(m.store.spec))
    ensures var q := Quiet(m);
            && q.outcome == Done && q.restarts == m.restarts && q.store == CreatePass(m.store)
            && Measure(q.store) == 0 && Supported(q.store)
            && q.store.deployment.value.annotation == q.store.spec
            && Rendered(Defaults(m.store.spec), q.store.agent, q.store.mon, q.store.log)
  {
    hide ParseUrl, Defaults, Json, RenderMon, RenderLog, RenderAgent;
    DefaultsKeep(m.store.spec);
    DefaultsKeep(DeploymentDefaults(Defaults(m.store.spec)));
    var m1 := CallStep(m, true);
    var m2 := CallStep(m1, true);
    assert Drive(m1) == Drive(m2);
    DriveCleanUp(m2);
    var m3 := m2.(pc := SecretGet, store := m2.store.(agent := None));
    DriveSecret(m3);
    var m4 := EnterConfig(m3.(store := m3.store.(secrets := m3.store.secrets + {SecretName(m3.spec)})));
    DriveConfig(m4);
    DriveBuild(m4.(store := WithConfig(m4.store, m4.spec)));
    assert Quiet(m).store == CreatePass(m.store);
  }

  lemma {:induction false} NoKeyGapNoRestart(m: Machine, n: nat)
    requires m.pc.Idle? && m.store.deployment.Some? && ValidUrl(m.store.spec) && !KeyGap(m.store)
    ensures QuietTimes(m, n).restarts == m.restarts
    decreases n
  {
    hide ParseUrl, Defaults, Json, RenderMon, RenderLog, RenderAgent, Quiet;
    if n > 0 {
      QuietUpdate(m);
      DefaultsKeep(m.store.spec);
      DefaultsKeep(Defaults(m.store.spec));
      NoKeyGapNoRestart(Quiet(m), n - 1);
    }
  }
}

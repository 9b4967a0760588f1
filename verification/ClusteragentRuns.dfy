/** What holds in every run of the Clusteragent reconciler, whatever calls fail and whatever
    the user does between two calls. */
module ClusteragentRuns {
  import opened Text
  import opened ControllerUrl
  import opened ClusteragentSpec
  import opened ClusteragentMachine

  lemma {:induction false} RunKeepsInv(m: Machine, events: seq<Event>)
    requires Inv(m)
    ensures Inv(Run(m, events))
  {
    hide Inv, Step;
    if events != [] {
      RunKeepsInv(m, events[..|events| - 1]);
      StepKeepsInv(Run(m, events[..|events| - 1]), events[|events| - 1]);
    }
  }

  // ---------- Restarts ----------

  function EditCount(events: seq<Event>): nat {
    if events == [] then 0
    else EditCount(events[..|events| - 1]) + One(events[|events| - 1].Edit?)
  }

  lemma CallCountsNoEdit(m: Machine, ok: bool)
    ensures CallStep(m, ok).edits == m.edits
    ensures CallStep(m, ok).restarts <= m.restarts + 1
  {
    hide ParseUrl, Defaults, Json, RenderMon, RenderLog, RenderAgent, NewDeployment, DeploymentDefaults;
  }

  lemma {:induction false} EditsAreEvents(m: Machine, events: seq<Event>)
    ensures Run(m, events).edits <= m.edits + EditCount(events)
  {
    hide CallStep;
    if events != [] {
      var before := Run(m, events[..|events| - 1]);
      EditsAreEvents(m, events[..|events| - 1]);
      match events[|events| - 1]
      case Call(ok) => CallCountsNoEdit(before, ok);
      case Edit(_) =>
      case DeploymentDeleted =>
      case SecretAdded(_) =>
    }
  }

  /** In every run the controller deletes at most one pod for each user edit that changes the
      controller URL or the account. */
  lemma RestartsBoundedByEdits(m: Machine, events: seq<Event>)
    requires Initial(m)
    ensures Run(m, events).restarts <= Run(m, events).edits <= EditCount(events)
  {
    assert Inv(m);
    RunKeepsInv(m, events);
    EditsAreEvents(m, events);
  }

  /** In every state of every run, an existing Deployment finds the secret it references and all
      three ConfigMaps, and the spec saved in its annotation has an acceptable controller URL. */
  lemma DeploymentIsSupported(m: Machine, events: seq<Event>)
    requires Initial(m)
    ensures Supported(Run(m, events).store)
  {
    assert Inv(m);
    RunKeepsInv(m, events);
  }

  // ---------- Rejected URLs ----------

  /** What the user's own events make of the spec and the Deployment. */
  function UserSpec(spec: Spec, events: seq<Event>): Spec {
    if events == [] then spec
    else
      match events[|events| - 1]
      case Edit(newSpec) => newSpec
      case _ => UserSpec(spec, events[..|events| - 1])
  }

  function UserDeployment(deployment: Option<Deployment>, events: seq<Event>): Option<Deployment> {
    if events == [] then deployment
    else
      match events[|events| - 1]
      case DeploymentDeleted => None
      case _ => UserDeployment(deployment, events[..|events| - 1])
  }

  /** The events make up (part of) one Reconcile: the machine is busy before each of them. */
  predicate OneReconcile(m: Machine, events: seq<Event>) {
    forall k | 0 <= k < |events| :: !Run(m, events[..k]).pc.Idle?
  }

  lemma RejectedCall(m: Machine, ok: bool)
    requires Inv(m) && !m.pc.Idle? && !ValidUrl(m.spec)
    ensures var n := CallStep(m, ok);
            && n.store.spec == m.store.spec && n.store.deployment == m.store.deployment
            && n.restarts == m.restarts && !ValidUrl(n.spec)
            && (n.pc.Idle? ==> n.outcome == Failed)
  {
    hide ParseUrl, RenderMon, RenderLog, RenderAgent, Supported, InStep, Owed;
    DefaultsKeepUrl(m.spec);
    assert !UrlReady(m.pc);
  }

  lemma DefaultsKeepUrl(s: Spec)
    ensures Defaults(s).controllerUrl == s.controllerUrl
  {
  }

  /** A Reconcile that has read a spec with a rejected URL, interrupted anywhere and by anything,
      leaves the Deployment, the pods and the stored resource as the user leaves them, and can
      only end in an error. */
  lemma {:induction false} RejectedUrlChangesNothing(m: Machine, events: seq<Event>)
    requires Inv(m) && !m.pc.Idle? && !ValidUrl(m.spec) && OneReconcile(m, events)
    ensures var n := Run(m, events);
            && n.store.spec == UserSpec(m.store.spec, events)
            && n.store.deployment == UserDeployment(m.store.deployment, events)
            && n.restarts == m.restarts && !ValidUrl(n.spec)
            && (n.pc.Idle? ==> n.outcome == Failed)
  {
    hide ParseUrl, CallStep, Inv;
    if events != [] {
      var front := events[..|events| - 1];
      assert OneReconcile(m, front) by {
        assert forall k | 0 <= k < |front| :: front[..k] == events[..k];
      }
      RejectedUrlChangesNothing(m, front);
      RunKeepsInv(m, front);
      var before := Run(m, front);
      match events[|events| - 1]
      case Call(ok) => RejectedCall(before, ok);
      case Edit(_) =>
      case DeploymentDeleted =>
      case SecretAdded(_) =>
    }
  }
}

/** The Clusteragent reconciler as the operator runs it: an object that makes API calls and
    mutates its own copies. Every call advances the machine of ClusteragentMachine, so each
    execution of Reconcile, with its failures and the user's interference, is a run of it. */
module ClusteragentController {
  import opened Text
  import opened GoTypes
  import opened ControllerUrl
  import opened ClusteragentSpec
  import opened ClusteragentMachine
  import opened ClusteragentRuns
  import opened ClusteragentConvergence
  import PodFilter

  datatype ApiError = NoError | NotFound | OtherError

  predicate Advanced(now: Machine, before: Machine, pc: Pc) {
    && now.pc == pc && now.spec == before.spec && now.draft == before.draft
    && now.creating == before.creating && now.passes == before.passes
  }

  /** The Reconcile that `before` was in has ended. */
  predicate Ended(now: Machine, before: Machine, outcome: Outcome) {
    now.pc.Idle? && now.outcome == outcome && now.passes == before.passes
  }

  predicate GaveUp(now: Machine, before: Machine) {
    Ended(now, before, Failed)
  }

  /** The API server as the client sees it. `m` is the machine it keeps up with, `events` what
      has happened since `start`. */
  class Cluster {
    var store: Store
    ghost var m: Machine
    ghost var events: seq<Event>
    ghost const start: Machine

    ghost predicate Valid()
      reads this
    {
      m == Run(start, events) && m.store == store
    }

    constructor (store: Store, ghost start: Machine)
      requires start.store == store
      ensures Valid() && this.start == start && events == [] && m == start
    {
      this.store := store;
      this.start := start;
      m := start;
      events := [];
    }

    /** What every run guarantees, about this cluster. */
    lemma RunFacts()
      requires Valid()
      ensures Initial(start) ==> Supported(store) && m.restarts <= EditCount(events)
    {
      hide Run, Supported, EditCount;
      if Initial(start) {
        DeploymentIsSupported(start, events);
        RestartsBoundedByEdits(start, events);
      }
    }

    /** One pass without failures and user events is the quiet one. */
    lemma QuietFacts(before: Machine, earlier: seq<Event>)
      requires Valid() && before == Run(start, earlier)
      requires before.pc.Idle? && m.pc.Idle? && m.passes == before.passes + 1
      ensures forall n: nat :: events == earlier + AllSucceed(n) ==> m == Quiet(before)
    {
      hide Run, CallStep;
      forall n: nat | events == earlier + AllSucceed(n)
        ensures m == Quiet(before)
      {
        RunConcat(start, earlier, AllSucceed(n));
        UndisturbedIsQuiet(before, n);
      }
    }

    ghost method Record(e: Event)
      requires m == Run(start, events)
      modifies this`m, this`events
      ensures m == Step(old(m), e) == Run(start, events) && events == old(events) + [e]
    {
      assert (events + [e])[..|events + [e]| - 1] == events;
      events := events + [e];
      m := Step(m, e);
    }

    /** Anything the user may do between two calls. */
    method Interfere()
      requires Valid()
      modifies this
      ensures Valid() && old(events) <= events
      ensures Advanced(m, old(m), old(m.pc)) && m.outcome == old(m.outcome)
      ensures old(store.secrets) <= store.secrets
    {
      hide CallStep, Run, ParseUrl;
      var rounds: int := *;
      while rounds > 0
        invariant Valid() && old(events) <= events
        invariant Advanced(m, old(m), old(m.pc)) && m.outcome == old(m.outcome)
        invariant old(store.secrets) <= store.secrets
      {
        var newSpec: Spec := *;
        var name: string := *;
        var kind: int := *;
        if kind == 0 {
          store := store.(spec := newSpec);
          Record(Edit(newSpec));
        } else if kind == 1 {
          store := store.(deployment := None);
          Record(DeploymentDeleted);
        } else {
          store := store.(secrets := store.secrets + {name});
          Record(SecretAdded(name));
        }
        rounds := rounds - 1;
      }
    }

    /** The fate of one call: true unless it fails for a reason of its own. */
    method Attempt() returns (ok: bool)
      requires Valid()
      modifies this
      ensures Valid() && old(events) <= events
      ensures Advanced(m, old(m), old(m.pc)) && m.outcome == old(m.outcome)
      ensures old(store.secrets) <= store.secrets
    {
      Interfere();
      ok := *;
    }

    method GetSpec() returns (err: ApiError, spec: Spec)
      requires Valid() && m.pc.Idle?
      modifies this
      ensures Valid() && old(events) <= events
      ensures m.passes == old(m.passes) + 1
      ensures if err.NoError? then m.pc.DeploymentGet? && m.spec == spec else m.pc.Idle? && m.outcome == Failed
    {
      hide ConfigCall, CommitCall, Run, ParseUrl;
      var ok := Attempt();
      spec := store.spec;
      err := if ok then NoError else OtherError;
      Record(Call(ok));
    }

    method GetDeployment() returns (err: ApiError, found: Option<Deployment>)
      requires Valid() && m.pc.DeploymentGet?
      modifies this
      ensures Valid() && old(events) <= events
      ensures m.passes == old(m.passes)
      ensures match err
              case NoError => found.Some? && m.pc.SecretGet? && m.spec == old(m.spec)
                              && !m.creating && m.draft == found.value
              case NotFound => m.pc.CleanGet? && m.spec == old(m.spec) && m.creating
              case OtherError => GaveUp(m, old(m))
    {
      hide ConfigCall, CommitCall, Run, ParseUrl;
      var ok := Attempt();
      found := store.deployment;
      err := if !ok then OtherError else if found.Some? then NoError else NotFound;
      Record(Call(ok));
    }

    method GetAgentConfig() returns (err: ApiError)
      requires Valid() && (m.pc.CleanGet? || m.pc.AgentGet?)
      modifies this
      ensures Valid() && old(events) <= events
      ensures old(m.pc.CleanGet?) ==> Advanced(m, old(m), if err.NoError? then CleanDelete else SecretGet)
      ensures old(m.pc.AgentGet?) ==>
                if err.OtherError? || !ValidUrl(old(m.spec)) then GaveUp(m, old(m))
                else Advanced(m, old(m), AgentPut(err.NoError?))
    {
      hide CommitCall, Run, ParseUrl;
      var ok := Attempt();
      err := if !ok then OtherError else if store.agent.Some? then NoError else NotFound;
      Record(Call(ok));
    }

    method DeleteAgentConfig() returns (err: ApiError)
      requires Valid() && m.pc.CleanDelete?
      modifies this
      ensures Valid() && old(events) <= events
      ensures Advanced(m, old(m), SecretGet)
    {
      hide ConfigCall, CommitCall, Run, ParseUrl;
      var ok := Attempt();
      if ok {
        store := store.(agent := None);
      }
      err := if ok then NoError else OtherError;
      Record(Call(ok));
    }

    method GetSecret(name: string) returns (err: ApiError)
      requires Valid() && (m.pc.SecretGet? || m.pc.SecretReload?) && name == SecretName(m.spec)
      requires m.pc.SecretReload? ==> name in store.secrets
      modifies this
      ensures Valid() && old(events) <= events
      ensures match err
              case NoError => Advanced(m, old(m.(spec := Defaults(m.spec))), MonGet)
              case NotFound => old(m.pc.SecretGet?) && Advanced(m, old(m), SecretCreate)
              case OtherError => GaveUp(m, old(m))
    {
      hide ConfigCall, CommitCall, Run, ParseUrl, Defaults;
      var ok := Attempt();
      err := if !ok then OtherError else if name in store.secrets then NoError else NotFound;
      Record(Call(ok));
    }

    method CreateSecret(name: string) returns (err: ApiError)
      requires Valid() && m.pc.SecretCreate? && name == SecretName(m.spec)
      modifies this
      ensures Valid() && old(events) <= events
      ensures if err.NoError? then Advanced(m, old(m), SecretReload) && name in store.secrets else GaveUp(m, old(m))
    {
      hide ConfigCall, CommitCall, Run, ParseUrl;
      var ok := Attempt();
      err := if ok && name !in store.secrets then NoError else OtherError;
      if err.NoError? {
        store := store.(secrets := store.secrets + {name});
      }
      Record(Call(ok));
    }

    method GetMonConfig() returns (err: ApiError)
      requires Valid() && m.pc.MonGet?
      modifies this
      ensures Valid() && old(events) <= events
      ensures if err.OtherError? then GaveUp(m, old(m)) else Advanced(m, old(m), MonPut(err.NoError?))
    {
      hide PrepareCall, CommitCall, Run, ParseUrl;
      var ok := Attempt();
      err := if !ok then OtherError else if store.mon.Some? then NoError else NotFound;
      Record(Call(ok));
    }

    method PutMonConfig(create: bool, data: MonConfig) returns (err: ApiError)
      requires Valid() && m.pc == MonPut(!create) && data == RenderMon(m.spec)
      modifies this
      ensures Valid() && old(events) <= events
      ensures if err.NoError? then Advanced(m, old(m), AgentGet) else GaveUp(m, old(m))
    {
      hide PrepareCall, CommitCall, Run, ParseUrl, RenderMon;
      var ok := Attempt();
      err := if ok && create == store.mon.None? then NoError else OtherError;
      if err.NoError? {
        store := store.(mon := Some(data));
      }
      Record(Call(ok));
    }

    method PutAgentConfig(create: bool, data: AgentConfig) returns (err: ApiError)
      requires Valid() && m.pc == AgentPut(!create) && ValidUrl(m.spec)
      requires data == RenderAgent(m.spec, ParseUrl(m.spec.controllerUrl).endpoint)
      modifies this
      ensures Valid() && old(events) <= events
      ensures if err.NoError? then Advanced(m, old(m), LogGet) else GaveUp(m, old(m))
    {
      hide PrepareCall, CommitCall, Run, ParseUrl, RenderAgent;
      var ok := Attempt();
      err := if ok && create == store.agent.None? then NoError else OtherError;
      if err.NoError? {
        store := store.(agent := Some(data));
      }
      Record(Call(ok));
    }

    method GetLogConfig() returns (err: ApiError)
      requires Valid() && m.pc.LogGet?
      modifies this
      ensures Valid() && old(events) <= events
      ensures if err.OtherError? then GaveUp(m, old(m)) else Advanced(m, old(m), LogPut(err.NoError?))
    {
      hide PrepareCall, CommitCall, Run, ParseUrl;
      var ok := Attempt();
      err := if !ok then OtherError else if store.log.Some? then NoError else NotFound;
      Record(Call(ok));
    }

    /** After the last ConfigMap the machine has already taken the local decision that follows. */
    method PutLogConfig(create: bool, data: LogConfig) returns (err: ApiError)
      requires Valid() && m.pc == LogPut(!create) && data == RenderLog(m.spec)
      modifies this
      ensures Valid() && old(events) <= events
      ensures if err.NoError? then Decided(m, old(m)) else GaveUp(m, old(m))
    {
      hide PrepareCall, CommitCall, Run, ParseUrl, RenderLog;
      var ok := Attempt();
      err := if ok && create == store.log.None? then NoError else OtherError;
      if err.NoError? {
        store := store.(log := Some(data));
      }
      Record(Call(ok));
    }

    method GetProxySecret() returns (err: ApiError)
      requires Valid() && m.pc.ProxyGet?
      modifies this
      ensures Valid() && old(events) <= events
      ensures Advanced(m, old(m.(draft := NewDeployment(m.spec, err.NoError?))), DeploymentCreate)
    {
      hide PrepareCall, ConfigCall, Run, ParseUrl, NewDeployment;
      var ok := Attempt();
      err := if !ok then OtherError else if PROXY_SECRET in store.secrets then NoError else NotFound;
      Record(Call(ok));
    }

    method CreateDeployment(d: Deployment) returns (err: ApiError)
      requires Valid() && m.pc.DeploymentCreate? && d == m.draft
      modifies this
      ensures Valid() && old(events) <= events
      ensures if err.NoError? then Advanced(m, old(m), SpecUpdate) else GaveUp(m, old(m))
    {
      hide PrepareCall, ConfigCall, Run, ParseUrl;
      var ok := Attempt();
      err := if ok && store.deployment.None? then NoError else OtherError;
      if err.NoError? {
        store := store.(deployment := Some(d));
      }
      Record(Call(ok));
    }

    method UpdateDeployment(d: Deployment) returns (err: ApiError)
      requires Valid() && m.pc.DeploymentUpdate? && d == m.draft
      modifies this
      ensures Valid() && old(events) <= events
      ensures if !err.NoError? then GaveUp(m, old(m))
              else if old(m.pc.restart) then Advanced(m, old(m), PodList)
              else Ended(m, old(m), Requeued)
    {
      hide PrepareCall, ConfigCall, Run, ParseUrl;
      var ok := Attempt();
      err := if ok && store.deployment.Some? then NoError else OtherError;
      if err.NoError? {
        store := store.(deployment := Some(d));
      }
      Record(Call(ok));
    }

    /** An empty list of pods is an error for the controller, so it counts as a failed call. */
    method ListPods() returns (err: ApiError)
      requires Valid() && m.pc.PodList?
      modifies this
      ensures Valid() && old(events) <= events
      ensures if err.NoError? then Advanced(m, old(m), PodDelete) else GaveUp(m, old(m))
    {
      hide PrepareCall, ConfigCall, Run, ParseUrl;
      var ok := Attempt();
      err := if ok then NoError else OtherError;
      Record(Call(ok));
    }

    method DeletePod() returns (err: ApiError)
      requires Valid() && m.pc.PodDelete?
      modifies this
      ensures Valid() && old(events) <= events
      ensures if err.NoError? then Ended(m, old(m), Requeued) else GaveUp(m, old(m))
    {
      hide PrepareCall, ConfigCall, Run, ParseUrl;
      var ok := Attempt();
      err := if ok then NoError else OtherError;
      Record(Call(ok));
    }

    method UpdateSpec(spec: Spec) returns (err: ApiError)
      requires Valid() && m.pc.SpecUpdate? && spec == m.spec
      modifies this
      ensures Valid() && old(events) <= events
      ensures if err.NoError? then m.pc.StatusUpdate? && m.passes == old(m.passes) else Ended(m, old(m), Done)
    {
      hide PrepareCall, ConfigCall, Run, ParseUrl;
      var ok := Attempt();
      if ok {
        store := store.(spec := Json(spec));
      }
      err := if ok then NoError else OtherError;
      Record(Call(ok));
    }

    method UpdateStatus() returns (err: ApiError)
      requires Valid() && m.pc.StatusUpdate?
      modifies this
      ensures Valid() && old(events) <= events
      ensures Ended(m, old(m), Done)
    {
      hide PrepareCall, ConfigCall, Run, ParseUrl;
      var ok := Attempt();
      err := if ok then NoError else OtherError;
      Record(Call(ok));
    }
  }

  /** What follows a written log ConfigMap. */
  predicate Decided(now: Machine, before: Machine) {
    var next := if before.creating then BuildDeployment(before) else Decide(before);
    && now.pc == next.pc && now.spec == next.spec && now.draft == next.draft
    && now.creating == before.creating && now.passes == before.passes
  }

  class DeploymentObject {
    var value: Deployment

    constructor (value: Deployment)
      ensures this.value == value
    {
      this.value := value;
    }
  }

  class ReconcileClusteragent {
    const client: Cluster

    constructor (client: Cluster)
      ensures this.client == client
    {
      this.client := client;
    }

    /** One Reconcile takes the machine through exactly one pass, whatever fails and whatever the
        user does meanwhile, so that every theorem about runs speaks about it. If every call
        succeeds and the user does nothing, it is the quiet pass of the convergence theorems. */
    method Reconcile() returns (outcome: Outcome)
      requires client.Valid() && client.m.pc.Idle?
      modifies client
      ensures client.Valid() && old(client.events) <= client.events
      ensures client.m.pc.Idle? && client.m.outcome == outcome && client.m.passes == old(client.m.passes) + 1
      ensures Initial(client.start) ==>
                Supported(client.store) && client.m.restarts <= EditCount(client.events)
      ensures forall n: nat :: client.events == old(client.events) + AllSucceed(n) ==> client.m == Quiet(old(client.m))
    {
      hide Run, CallStep, Defaults, Supported, EditCount, Initial, AllSucceed, Quiet;
      var err, spec := client.GetSpec();
      if err != NoError {
        client.RunFacts();
        client.QuietFacts(old(client.m), old(client.events));
        return Failed;
      }
      var clusterAgent := new Clusteragent(spec);
      var errGet, found := client.GetDeployment();
      if errGet == NotFound {
        outcome := InstallAgent(clusterAgent);
      } else if errGet != NoError {
        outcome := Failed;
      } else {
        var existingDeployment := new DeploymentObject(found.value);
        outcome := UpdateAgent(clusterAgent, existingDeployment);
      }
      client.RunFacts();
      client.QuietFacts(old(client.m), old(client.events));
    }

    /** The branch of Reconcile for a missing Deployment. */
    method InstallAgent(clusterAgent: Clusteragent) returns (outcome: Outcome)
      requires client.Valid() && client.m.pc.CleanGet?
      requires client.m.creating && client.m.spec == clusterAgent.spec
      modifies client, clusterAgent
      ensures client.Valid() && old(client.events) <= client.events
      ensures Ended(client.m, old(client.m), outcome)
    {
      hide Run, CallStep, Json, Defaults, NewDeployment, DeploymentDefaults;
      CleanUp();
      var esecret := EnsureSecret(clusterAgent);
      if esecret != NoError {
        return Failed;
      }
      var econfig := EnsureConfigMap(clusterAgent);
      if !econfig {
        return Failed;
      }
      var dep := NewAgentDeployment(clusterAgent);
      var errCreate := client.CreateDeployment(dep);
      if errCreate != NoError {
        return Failed;
      }
      UpdateStatus(clusterAgent);
      return Done;
    }

    /** The branch of Reconcile for an existing Deployment. */
    method UpdateAgent(clusterAgent: Clusteragent, existingDeployment: DeploymentObject) returns (outcome: Outcome)
      requires client.Valid() && client.m.pc.SecretGet?
      requires !client.m.creating && client.m.spec == clusterAgent.spec && client.m.draft == existingDeployment.value
      modifies client, clusterAgent, existingDeployment
      ensures client.Valid() && old(client.events) <= client.events
      ensures Ended(client.m, old(client.m), outcome)
    {
      hide Run, CallStep, Json, Defaults;
      var errsecret := EnsureSecret(clusterAgent);
      if errsecret != NoError {
        return Failed;
      }
      var econfig := EnsureConfigMap(clusterAgent);
      if !econfig {
        return Failed;
      }
      var breaking, updateDeployment := HasBreakingChanges(clusterAgent, existingDeployment);
      if breaking {
        SaveOrUpdateSpecAnnotation(clusterAgent, existingDeployment);
        var errUpdate := client.UpdateDeployment(existingDeployment.value);
        if errUpdate != NoError {
          return Failed;
        }
        var errRestart := RestartAgent();
        if errRestart != NoError {
          return Failed;
        }
      } else if updateDeployment {
        var errUpdate := client.UpdateDeployment(existingDeployment.value);
        if errUpdate != NoError {
          return Failed;
        }
      } else {
        UpdateStatus(clusterAgent);
        return Done;
      }
      return Requeued;
    }

    method UpdateStatus(clusterAgent: Clusteragent)
      requires client.Valid() && client.m.pc.SpecUpdate? && client.m.spec == clusterAgent.spec
      modifies client
      ensures client.Valid() && old(client.events) <= client.events
      ensures Ended(client.m, old(client.m), Done)
    {
      var errInstance := client.UpdateSpec(clusterAgent.spec);
      if errInstance == NoError {
        var _ := client.UpdateStatus();
      }
    }

    /** The image comparison comes last and overrides the restart; it also edits the Deployment. */
    method HasBreakingChanges(clusterAgent: Clusteragent, existingDeployment: DeploymentObject)
      returns (breaking: bool, updateDeployment: bool)
      modifies existingDeployment
      ensures var s := clusterAgent.spec;
              var d := old(existingDeployment.value);
              && updateDeployment == (s.image != "" && d.image != s.image)
              && breaking == (!updateDeployment && (d.annotation.controllerUrl != s.controllerUrl
                                                    || d.annotation.account != s.account))
              && existingDeployment.value == if updateDeployment then d.(image := s.image) else d
    {
      breaking := false;
      updateDeployment := false;
      var oldSpec := existingDeployment.value.annotation;
      if oldSpec.controllerUrl != clusterAgent.spec.controllerUrl || oldSpec.account != clusterAgent.spec.account {
        breaking := true;
      }
      if clusterAgent.spec.image != "" && existingDeployment.value.image != clusterAgent.spec.image {
        existingDeployment.value := existingDeployment.value.(image := clusterAgent.spec.image);
        return false, true;
      }
    }

    method SaveOrUpdateSpecAnnotation(clusterAgent: Clusteragent, dep: DeploymentObject)
      modifies dep
      ensures dep.value == old(dep.value).(annotation := Json(clusterAgent.spec))
    {
      dep.value := dep.value.(annotation := Json(clusterAgent.spec));
    }

    method CleanUp()
      requires client.Valid() && client.m.pc.CleanGet?
      modifies client
      ensures client.Valid() && old(client.events) <= client.events
      ensures Advanced(client.m, old(client.m), SecretGet)
    {
      var err := client.GetAgentConfig();
      if err == NoError {
        var _ := client.DeleteAgentConfig();
      }
    }

    method EnsureSecret(clusterAgent: Clusteragent) returns (err: ApiError)
      requires client.Valid() && client.m.pc.SecretGet? && client.m.spec == clusterAgent.spec
      modifies client
      ensures client.Valid() && old(client.events) <= client.events
      ensures if err.NoError? then Advanced(client.m, old(client.m.(spec := Defaults(client.m.spec))), MonGet)
              else GaveUp(client.m, old(client.m))
    {
      hide Run, Defaults;
      var secretName := "cluster-agent-secret";
      if clusterAgent.spec.accessSecret != "" {
        secretName := clusterAgent.spec.accessSecret;
      }
      err := client.GetSecret(secretName);
      if err == NotFound {
        err := client.CreateSecret(secretName);
        if err == NoError {
          err := client.GetSecret(secretName);
        }
      }
    }

    method EnsureConfigMap(clusterAgent: Clusteragent) returns (ok: bool)
      requires client.Valid() && client.m.pc.MonGet? && client.m.spec == Defaults(clusterAgent.spec)
      modifies client, clusterAgent
      ensures client.Valid() && old(client.events) <= client.events
      ensures clusterAgent.spec == Defaults(old(clusterAgent.spec))
      ensures if ok then Decided(client.m, old(client.m)) else GaveUp(client.m, old(client.m))
    {
      hide Run, Defaults, BuildDeployment, Decide;
      clusterAgent.SetConfigDefaults();
      ok := EnsureAgentMonConfig(clusterAgent);
      if !ok {
        return;
      }
      ok := EnsureAgentConfig(clusterAgent);
      if !ok {
        return;
      }
      label logging:
      ok := EnsureLogConfig(clusterAgent);
      if ok {
        SameDecision(client.m, old@logging(client.m), old(client.m));
      }
    }

    lemma SameDecision(now: Machine, before: Machine, earlier: Machine)
      requires Decided(now, before) && Advanced(before, earlier, before.pc)
      ensures Decided(now, earlier)
    {
      hide Json, NewDeployment;
    }

    method EnsureAgentMonConfig(clusterAgent: Clusteragent) returns (ok: bool)
      requires client.Valid() && client.m.pc.MonGet? && client.m.spec == clusterAgent.spec
      modifies client
      ensures client.Valid() && old(client.events) <= client.events
      ensures if ok then Advanced(client.m, old(client.m), AgentGet) else GaveUp(client.m, old(client.m))
    {
      hide Run;
      var s := clusterAgent.spec;
      var podFilter := PodFilter.CreatePodFilterString(s.podFilter);
      var data := MonConfig(s.metricsSyncInterval, s.clusterMetricsSyncInterval, s.metadataSyncInterval,
                            s.containerBatchSize, s.podBatchSize, s.metricUploadRetryCount,
                            s.metricUploadRetryIntervalMilliSeconds, s.maxPodsToRegisterCount, podFilter);
      var err := client.GetMonConfig();
      if err == OtherError {
        return false;
      }
      err := client.PutMonConfig(err == NotFound, data);
      ok := err == NoError;
    }

    method EnsureAgentConfig(clusterAgent: Clusteragent) returns (ok: bool)
      requires client.Valid() && client.m.pc.AgentGet? && client.m.spec == clusterAgent.spec
      modifies client
      ensures client.Valid() && old(client.events) <= client.events
      ensures if ok then Advanced(client.m, old(client.m), LogGet) else GaveUp(client.m, old(client.m))
    {
      hide Run;
      var s := clusterAgent.spec;
      var err := client.GetAgentConfig();
      if err == OtherError {
        return false;
      }
      var parsed := ValidateControllerUrl(s.controllerUrl);
      if parsed.Rejected? {
        return false;
      }
      var e := parsed.endpoint;
      var namespaces := Join(if s.nsToMonitor == Nil then [] else s.nsToMonitor.items, ',');
      var data := AgentConfig(s.account, e.host, Itoa(e.port), if e.ssl then "true" else "false",
                              s.appName, s.proxyUrl, s.proxyUser, namespaces,
                              Itoa(s.eventUploadInterval), Itoa(s.containerRegistrationInterval),
                              Itoa(s.httpClientTimeout));
      err := client.PutAgentConfig(err == NotFound, data);
      ok := err == NoError;
    }

    method EnsureLogConfig(clusterAgent: Clusteragent) returns (ok: bool)
      requires client.Valid() && client.m.pc.LogGet? && client.m.spec == clusterAgent.spec
      modifies client
      ensures client.Valid() && old(client.events) <= client.events
      ensures if ok then Decided(client.m, old(client.m)) else GaveUp(client.m, old(client.m))
    {
      hide Run, Json, NewDeployment;
      var s := clusterAgent.spec;
      var err := client.GetLogConfig();
      if err == OtherError {
        return false;
      }
      var data := LogConfig(s.logLevel, s.logFileSizeMb, s.logFileBackups, ToLower(s.stdoutLogging));
      err := client.PutLogConfig(err == NotFound, data);
      ok := err == NoError;
    }

    method NewAgentDeployment(clusterAgent: Clusteragent) returns (dep: Deployment)
      requires client.Valid() && client.m.spec == DeploymentDefaults(clusterAgent.spec)
      requires if client.m.spec.proxyUser != "" then client.m.pc.ProxyGet?
               else client.m.pc.DeploymentCreate? && client.m.draft == NewDeployment(client.m.spec, false)
      modifies client, clusterAgent
      ensures client.Valid() && old(client.events) <= client.events
      ensures client.m.pc.DeploymentCreate? && client.m.draft == dep
      ensures client.m.spec == old(client.m.spec) == clusterAgent.spec && client.m.passes == old(client.m.passes)
    {
      hide Run, CallStep, ParseUrl, DeploymentDefaults, Json;
      clusterAgent.SetDeploymentDefaults();
      var s := clusterAgent.spec;
      var secretName := "cluster-agent-secret";
      if s.accessSecret != "" {
        secretName := s.accessSecret;
      }
      var draft := new DeploymentObject(Deployment(s.image, s, secretName, s.serviceAccountName, false, s.template));
      if s.proxyUser != "" {
        var err := client.GetProxySecret();
        if err == NoError {
          draft.value := draft.value.(proxyPassword := true);
        }
      }
      SaveOrUpdateSpecAnnotation(clusterAgent, draft);
      dep := draft.value;
    }

    method RestartAgent() returns (err: ApiError)
      requires client.Valid() && client.m.pc.PodList?
      modifies client
      ensures client.Valid() && old(client.events) <= client.events
      ensures if err.NoError? then Ended(client.m, old(client.m), Requeued) else GaveUp(client.m, old(client.m))
    {
      err := client.ListPods();
      if err != NoError {
        return;
      }
      err := client.DeletePod();
    }
  }
}

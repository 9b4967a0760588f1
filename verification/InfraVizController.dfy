/** The InfraViz reconciler as the operator runs it: ordered API calls, any of which may fail, and
    defaults filled into the resource in place. Each method does to the stored objects what
    InfraVizFaults says for the calls that fail. */
module InfraVizController {
  import opened Text
  import opened GoTypes
  import opened ControllerUrl
  import opened InfraVizSpec
  import opened InfraVizPass
  import opened InfraVizFaults
  import InfraVizChange

  datatype ApiError = NoError | NotFound | OtherError

  /** The error of a Get that finds `present` unless it fails. */
  function GetError(failing: bool, present: bool): ApiError {
    if failing then OtherError else if present then NoError else NotFound
  }

  /** The API server as one pass sees it: the calls in `env.faults` fail. */
  class Cluster {
    var store: Store
    var deletedPods: nat
    const env: Env

    constructor (store: Store, env: Env)
      ensures this.store == store && this.env == env && deletedPods == 0
    {
      this.store, this.env, deletedPods := store, env, 0;
    }

    method Get(call: Call, present: bool) returns (err: ApiError)
      ensures err == GetError(call in env.faults, present)
    {
      err := GetError(call in env.faults, present);
    }

    /** A Create, Update or Delete that makes `next` of the stored objects. */
    method Write(call: Call, next: Store) returns (ok: bool)
      modifies this`store
      ensures ok <==> call !in env.faults
      ensures store == if ok then next else old(store)
    {
      ok := call !in env.faults;
      if ok {
        store := next;
      }
    }

    /** Deletes the pod listed at index `k`. */
    method DeletePod(k: nat) returns (ok: bool)
      modifies this`deletedPods
      ensures ok <==> k < env.deletable
      ensures deletedPods == old(deletedPods) + if ok then 1 else 0
    {
      ok := k < env.deletable;
      if ok {
        deletedPods := deletedPods + 1;
      }
    }
  }

  class InfraViz {
    var spec: Spec

    constructor (spec: Spec)
      ensures this.spec == spec
    {
      this.spec := spec;
    }

    method SetPodDefaults()
      modifies this
      ensures spec == PodDefaults(old(spec))
    {
      hide ImageDefaults, ContainerDefaults;
      SetImageDefaults();
      SetContainerDefaults();
    }

    method SetImageDefaults()
      modifies this
      ensures spec == ImageDefaults(old(spec))
    {
      if spec.biqPort == 0 {
        spec := spec.(biqPort := 9090);
      }
      if spec.image == "" {
        spec := spec.(image := "appdynamics/machine-agent-analytics:latest");
      }
      if spec.netVizImage == "" {
        spec := spec.(netVizImage := "appdynamics/machine-agent-netviz:latest");
      }
    }

    method SetContainerDefaults()
      modifies this
      ensures spec == ContainerDefaults(old(spec))
    {
      if spec.enableContainerHostId == "" {
        spec := spec.(enableContainerHostId := "true");
      }
      if spec.env == Nil || spec.env == List([]) {
        spec := spec.(env := List([AccessKey(spec)]));
      }
      if spec.enableDockerViz == "" {
        spec := spec.(enableDockerViz := "true");
      }
    }

    method SetConfigDefaults()
      modifies this
      ensures spec == ConfigDefaults(old(spec))
    {
      if spec.enableContainerHostId == "" {
        spec := spec.(enableContainerHostId := "true");
      }
      if spec.enableServerViz == "" {
        spec := spec.(enableServerViz := "true");
      }
      if spec.enableDockerViz == "" {
        spec := spec.(enableDockerViz := "true");
      }
    }
  }

  class ReconcileInfraViz {
    const client: Cluster

    constructor (client: Cluster)
      ensures this.client == client
    {
      this.client := client;
    }

    /** Failures are only logged. */
    method EnsureBasicObjects(s: Spec)
      modifies client`store
      ensures client.store == BasicsWith(old(client.store), s, client.env)
    {
      var t := client.store;
      var err := client.Get(GetService, t.service.Some?);
      if err == NotFound {
        var ports := (s.biqPort, if s.netVizPort > 0 then s.netVizPort else 0);
        var _ := client.Write(CreateService, t.(service := Some(ports)));
      }
      t := client.store;
      var name := SecretName(s);
      var errSecret := client.Get(GetSecret, name in t.secrets);
      if errSecret == NotFound {
        var _ := client.Write(CreateSecret, t.(secrets := t.secrets + {name}));
      } else if errSecret == NoError {
        assert t.secrets + {name} == t.secrets;
      }
    }

    /** The freshly read spec gets its pod defaults, and the DaemonSet is made from it. */
    method NewDaemonSet(infraViz: InfraViz) returns (ds: DaemonSet)
      modifies client`store, infraViz
      ensures infraViz.spec == PodDefaults(old(infraViz.spec))
      ensures ds == Desired(infraViz.spec) && OperatorWritten(ds)
      ensures client.store == BasicsWith(old(client.store), infraViz.spec, client.env)
    {
      hide OperatorWritten, PodDefaults, BasicsWith, Build, JsonPod, Json;
      infraViz.SetPodDefaults();
      EnsureBasicObjects(infraViz.spec);
      DesiredIsOperatorWritten(old(infraViz.spec));
      var podSpec := NewPodSpec(infraViz.spec);
      ds := DaemonSet(JsonPod(podSpec), Json(infraViz.spec));
    }

    /** Builds the pod template of a defaulted spec, appending to it as its options ask for. */
    method NewPodSpec(s: Spec) returns (podSpec: PodSpec)
      ensures podSpec == Build(s)
    {
      var mounts := [Mount("hostroot", "/hostroot", ""), Mount("ma-log-volume", "/opt/appdynamics/conf/logging", "")];
      var volumes := [Volume("hostroot", "/"), Volume("ma-log-volume", "ma-log-config")];
      var command, args, tolerations, priorityClassName := Nil, s.args, s.tolerations, "";
      var sidecars: seq<Container> := [];
      if s.priorityClassName != "" {
        priorityClassName := s.priorityClassName;
      }
      if s.enableMasters {
        tolerations := List([MASTER_TOLERATION]);
      }
      if s.enableDockerViz == "true" {
        var path := "/var/run/docker.sock";
        if s.pks {
          volumes := volumes + [Volume("docker-sock", "/var/vcap/data/sys")];
          path := "/mnt";
          command, args := List(["/bin/sh", "-c"]), List(PKS_ARGS);
        } else {
          volumes := volumes + [Volume("docker-sock", "/var/run/docker.sock")];
        }
        mounts := mounts + [Mount("docker-sock", path, "")];
      }
      if s.netVizPort > 0 {
        volumes := volumes + [Volume("netviz-volume", "netviz-config")];
        var netVizMount := Mount("netviz-volume", "/netviz-agent/conf/agent_config.lua", "agent_config.lua");
        sidecars := [Container("appd-netviz-agent", s.netVizImage, Nil, Nil, Nil, NETVIZ_RESOURCES,
                               [s.netVizPort], [netVizMount])];
      }
      if s.agentSSLStoreName != "" {
        volumes := volumes + [Volume("ssl-config-volume", "ma-ssl-config")];
        volumes := volumes + [Volume("ssl-volume", "appd-agent-ssl-store")];
        mounts := mounts + [Mount("ssl-volume", "/opt/appdynamics/conf/" + s.agentSSLStoreName, s.agentSSLStoreName)];
        mounts := mounts + [Mount("ssl-config-volume", "/opt/appdynamics/conf/controller-info.xml",
                                  "controller-info.xml")];
      }
      var agent := Container("appd-infra-agent", s.image, command, args, s.env, s.resources, [s.biqPort], mounts);
      assert mounts == AgentMounts(s);
      assert volumes == Volumes(s);
      podSpec := PodSpec([agent] + sidecars, s.nodeSelector, tolerations, volumes, priorityClassName);
    }

    method EnsureNetVizConfig(s: Spec)
      requires s.netVizPort > 0
      modifies client`store
      ensures client.store == NetVizWith(old(client.store), s, client.env)
    {
      var t := client.store;
      var err := client.Get(GetNetViz, t.netViz.Some?);
      if err != OtherError {
        var _ := client.Write(PutNetViz, t.(netViz := Some((s.netlibEnabled, s.netVizPort))));
      }
    }

    method EnsureLogFile(s: Spec, logLevel: string) returns (ok: bool)
      modifies client`store
      ensures ok <==> !LogFails(client.env)
      ensures client.store == if ok then old(client.store).(logFile :=
                                Some(LogFile(Contains(s.image, "4.5"), logLevel, s.stdoutLogging)))
                              else old(client.store)
    {
      hide Contains;
      var t := client.store;
      var err := client.Get(GetLogFile, t.logFile.Some?);
      if err == OtherError {
        return false;
      }
      ok := client.Write(PutLogFile, t.(logFile := Some(LogFile(Contains(s.image, "4.5"), logLevel, s.stdoutLogging))));
    }

    /** The existing ma-ssl-config is deleted and then updated, which fails as it is gone. */
    method EnsureSslConfig(s: Spec)
      modifies client`store
      ensures client.store == SslWith(old(client.store), s, client.env)
    {
      if s.agentSSLStoreName == "" {
        return;
      }
      var t := client.store;
      var errCheck := client.Get(GetSslStore, t.sslStore);
      if errCheck != NoError {
        return;
      }
      var err := client.Get(GetSslConfig, t.sslConfig.Some?);
      if err == NoError {
        var deleted := client.Write(DeleteSslConfig, t.(sslConfig := None));
        if !deleted {
          return;
        }
      }
      if err == OtherError {
        return;
      }
      if err == NotFound {
        var _ := client.Write(PutSslConfig, t.(sslConfig := Some((s.agentSSLStoreName, s.agentSSLPassword))));
      }
    }

    /** The error cases of the proxy and user fields. */
    method ReadProxy(s: Spec, endpoint: Endpoint) returns (inputs: Option<Inputs>)
      requires ParseUrl(s.controllerUrl) == Accepted(endpoint)
      ensures inputs == ReadInputs(s)
    {
      hide ParseUrl, Split, TrimLeft, EventUrl;
      var proxyHost, proxyPort, proxyUser, proxyPass := "", "", "", "";
      if s.proxyUrl != "" {
        var arr := Split(s.proxyUrl, ':');
        if |arr| != 3 {
          return None;
        }
        proxyHost, proxyPort := TrimLeft(arr[1], '/'), arr[2];
      }
      if s.proxyUser != "" {
        var arr := Split(s.proxyUser, '@');
        if |arr| != 2 {
          return None;
        }
        proxyUser, proxyPass := arr[0], arr[1];
      }
      var logLevel := "info";
      if s.logLevel != "" {
        logLevel := s.logLevel;
      }
      var eventUrl := EventUrl(s.eventServiceUrl, endpoint);
      inputs := Some(Inputs(endpoint, eventUrl, proxyHost, proxyPort, proxyUser, proxyPass, logLevel));
    }

    /** Deletes the pods one by one and stops at the first that cannot be deleted. */
    method RestartDaemonSet() returns (ok: bool)
      modifies client`deletedPods
      ensures ok <==> !RestartFails(client.env)
      ensures client.deletedPods == old(client.deletedPods) + Deleted(client.env)
    {
      if ListPods in client.env.faults {
        return false;
      }
      for i := 0 to client.env.pods
        invariant client.deletedPods == old(client.deletedPods) + i && i <= client.env.deletable
      {
        var deleted := client.DeletePod(i);
        if !deleted {
          return false;
        }
      }
      ok := true;
    }

    method HasBreakingEntries(c: Config, s: Spec, i: Inputs) returns (breaking: bool)
      ensures breaking == BreakingEntries(c, s, i)
    {
      hide Itoa;
      breaking :=
        || c.account != s.account
        || c.globalAccount != s.globalAccount
        || c.host != i.endpoint.host
        || c.port != Itoa(i.endpoint.port)
        || c.ssl != FormatBool(i.endpoint.ssl)
        || c.eventEndpoint != i.eventUrl
        || c.proxyHost != i.proxyHost
        || c.proxyPort != i.proxyPort
        || c.proxyUser != i.proxyUser
        || c.proxyPass != i.proxyPass
        || c.containerHostId != s.enableContainerHostId
        || c.serverViz != s.enableServerViz
        || c.dockerViz != s.enableDockerViz
        || c.metricLimit != s.metricsLimit
        || c.properties != s.propertyBag;
    }

    /** Rewrites the log file when needed, and compares the existing ma-config with the spec. */
    method CompareConfig(found: Option<Config>, s: Spec, i: Inputs, specDiffers: bool)
      returns (ok: bool, breaking: bool)
      requires i.logLevel == OrString(s.logLevel, "info")
      modifies client`store
      ensures var needed := found.None? || LogEntries(found.value, s, i);
              && ok == !(needed && LogFails(client.env))
              && client.store == (if needed && ok then old(client.store).(logFile := Some(LogFileOf(s, i)))
                                  else old(client.store))
      ensures ok ==> breaking == if found.None? then specDiffers
                                 else BreakingEntries(found.value, s, i)
                                      || (specDiffers && !LogEntries(found.value, s, i))
    {
      hide BreakingEntries, Contains;
      breaking := specDiffers;
      if found.Some? {
        if LogEntries(found.value, s, i) {
          breaking := false;
          ok := EnsureLogFile(s, i.logLevel);
          if !ok {
            return;
          }
        }
        var entries := HasBreakingEntries(found.value, s, i);
        if entries {
          breaking := true;
        }
        ok := true;
      } else {
        ok := EnsureLogFile(s, i.logLevel);
      }
    }

    /** Compares the saved and the read spec, rewrites log file and ma-config, and fills in the
        last defaults; a changed log entry takes back the first comparison. */
    method EnsureConfigMap(infraViz: InfraViz, existing: DaemonSet) returns (ok: bool, breaking: bool)
      modifies client`store, infraViz
      ensures ok ==> infraViz.spec == ConfigDefaults(old(infraViz.spec))
      ensures var s := old(infraViz.spec);
              var t := old(client.store);
              if ReadInputs(s).None? then !ok && client.store == t
              else
                var i := ReadInputs(s).value;
                && client.store == ConfigWith(t, s, i, client.env) && ok == ConfigWritten(t, s, i, client.env)
                && (ok ==> breaking == Breaking(t, s, i, existing.annotation))
    {
      hide ParseUrl, ReadInputs, Render, BreakingEntries, LogEntries, LogFileOf, SslWith, ConfigDefaults;
      var s := infraViz.spec;
      breaking := existing.annotation != s;
      var parsed := ValidateControllerUrl(s.controllerUrl);
      if parsed.Rejected? {
        RejectedInputs(s);
        return false, breaking;
      }
      var inputs := ReadProxy(s, parsed.endpoint);
      if inputs == None {
        return false, breaking;
      }
      var i := inputs.value;
      InputLevel(s);
      if s.netVizPort > 0 {
        EnsureNetVizConfig(s);
      }
      var found := client.store.config;
      var err := client.Get(GetConfig, found.Some?);
      if err == OtherError {
        return false, breaking;
      }
      var foreign := if err == NoError then found.value.foreign else map[];
      ok, breaking := CompareConfig(found, s, i, breaking);
      if !ok {
        return;
      }
      infraViz.SetConfigDefaults();
      var d := infraViz.spec;
      var data := Config(
        d.account, d.globalAccount, i.endpoint.host, Itoa(i.endpoint.port),
        if i.endpoint.ssl then "true" else "false", Itoa(d.netVizPort), d.enableContainerHostId,
        d.enableServerViz, d.enableDockerViz, i.eventUrl, i.proxyHost, i.proxyPort, i.proxyUser, i.proxyPass,
        d.metricsLimit, i.logLevel, FormatBool(d.stdoutLogging), d.propertyBag, foreign);
      RenderIs(d, i, foreign, data);
      ok := client.Write(PutConfig, client.store.(config := Some(data)));
      if !ok {
        return;
      }
      SameSsl(client.store, s, client.env);
      EnsureSslConfig(infraViz.spec);
    }

    lemma RejectedInputs(s: Spec)
      requires ParseUrl(s.controllerUrl).Rejected?
      ensures ReadInputs(s).None?
    {
      hide ParseUrl, Split, TrimLeft, EventUrl;
    }

    lemma InputLevel(s: Spec)
      ensures ReadInputs(s).Some? ==> ReadInputs(s).value.logLevel == OrString(s.logLevel, "info")
    {
      hide ParseUrl, Split, TrimLeft, EventUrl;
    }

    lemma RenderIs(s: Spec, i: Inputs, foreign: map<string, string>, data: Config)
      requires data == Config(
                 s.account, s.globalAccount, i.endpoint.host, Itoa(i.endpoint.port),
                 if i.endpoint.ssl then "true" else "false", Itoa(s.netVizPort), s.enableContainerHostId,
                 s.enableServerViz, s.enableDockerViz, i.eventUrl, i.proxyHost, i.proxyPort, i.proxyUser, i.proxyPass,
                 s.metricsLimit, i.logLevel, FormatBool(s.stdoutLogging), s.propertyBag, foreign)
      ensures data == Render(s, i, foreign)
    {
      hide Itoa;
    }

    lemma SameSsl(t: Store, s: Spec, e: Env)
      ensures SslWith(t, ConfigDefaults(s), e) == SslWith(t, s, e)
    {
    }

    /** `hasDSpecChanged` on the objects of the two templates and the resource. */
    method TemplateChanged(existing: PodSpec, desired: PodSpec, s: Spec) returns (changed: bool)
      ensures changed == Changed(existing, desired, s)
    {
      hide Changed, InfraVizChange.TemplateObject.Holds, InfraVizChange.SpecObject.View;
      var dsSpec := InfraVizChange.TemplateOf(existing);
      var newSpec := InfraVizChange.TemplateOf(desired);
      var ivSpec := InfraVizChange.SpecOf(s);
      changed := InfraVizChange.HasDSpecChanged(dsSpec, newSpec, ivSpec);
      assert dsSpec.Holds(existing) && newSpec.Holds(desired) && ivSpec.View() == s;
    }

    /** One Reconcile does to the stored objects and the pods, and reports, what PassWith says for
        the calls that fail; if none does, CalmPass makes it the pass of the convergence theorems. */
    method Reconcile() returns (failed: bool)
      modifies client
      ensures var r := PassWith(old(client.store), client.env);
              && client.store == r.store && failed == r.failed
              && client.deletedPods == old(client.deletedPods) + r.deleted
    {
      hide OperatorWritten, Desired, Build, Changed, PodDefaults, ConfigDefaults, ReadInputs;
      hide ConfigWith, ConfigWritten, Breaking, BasicsWith, Deleted, RestartFails;
      ghost var before := client.store;
      if GetInfraViz in client.env.faults {
        return true;
      }
      var infraViz := new InfraViz(client.store.spec);
      var desiredDS := NewDaemonSet(infraViz);
      var s := infraViz.spec;
      BasicsWithFrame(before, s, client.env);
      var errGet := client.Get(GetDaemonSet, client.store.daemonSet.Some?);
      if errGet == NotFound {
        var created := client.Write(CreateDaemonSet, client.store.(daemonSet := Some(desiredDS)));
        return !created;
      } else if errGet != NoError {
        return true;
      }
      var existingDs := client.store.daemonSet.value;
      var ok, hasBreakingChanges := EnsureConfigMap(infraViz, existingDs);
      if !ok {
        return true;
      }
      failed := ApplyChanges(infraViz, s, existingDs, desiredDS, hasBreakingChanges);
      if !failed {
        UpdateStatus(infraViz);
      }
    }

    /** Restarts the pods for breaking changes, then compares the existing template. */
    method ApplyChanges(infraViz: InfraViz, s: Spec, existingDs: DaemonSet, desiredDS: DaemonSet, breaking: bool)
      returns (failed: bool)
      requires infraViz.spec == ConfigDefaults(s) && desiredDS == Desired(s)
      modifies client
      ensures var changed := Changed(existingDs.template, Build(s), ConfigDefaults(s));
              var r := FinishPass(old(client.store), s, breaking, changed, client.env);
              && failed == r.failed && client.deletedPods == old(client.deletedPods) + r.deleted
              && (if failed then client.store == r.store
                  else r.store == if ListStatusPods in client.env.faults || UpdateInfraViz in client.env.faults
                                  then client.store else client.store.(spec := Json(ConfigDefaults(s))))
    {
      hide OperatorWritten, Desired, Build, Changed, ConfigDefaults, Deleted, RestartFails;
      if breaking {
        var updated := client.Write(UpdateBeforeRestart, client.store.(daemonSet := Some(desiredDS)));
        if !updated {
          return true;
        }
        var restarted := RestartDaemonSet();
        if !restarted {
          return true;
        }
      }
      var changed := TemplateChanged(existingDs.template, Build(s), infraViz.spec);
      if changed {
        var updated := client.Write(UpdateAfterChange, client.store.(daemonSet := Some(desiredDS)));
        if !updated {
          return true;
        }
      }
      failed := false;
    }

    lemma BasicsWithFrame(t: Store, s: Spec, e: Env)
      ensures BasicsWith(t, s, e).daemonSet == t.daemonSet
    {
    }

    /** Failures are not reported to Reconcile. */
    method UpdateStatus(infraViz: InfraViz)
      modifies client`store
      ensures client.store == if ListStatusPods in client.env.faults || UpdateInfraViz in client.env.faults
                              then old(client.store) else old(client.store).(spec := Json(infraViz.spec))
    {
      if ListStatusPods !in client.env.faults {
        var _ := client.Write(UpdateInfraViz, client.store.(spec := Json(infraViz.spec)));
      }
    }
  }
}

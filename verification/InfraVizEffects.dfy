/** What a Reconcile of InfraViz does, told by the fields that the user sets and that the agents and
    the cluster read. Defaults and comparisons are spelled out here, so that every statement stands
    on its own. */
module InfraVizEffects {
  import opened Text
  import opened GoTypes
  import opened ControllerUrl
  import opened InfraVizSpec
  import opened InfraVizPass
  import opened InfraVizFaults

  function StringOr(requested: string, default: string): string {
    if requested == "" then default else requested
  }

  // ---------- The inputs read from the spec ----------

  /** Exactly the readable specs, and what is read besides proxy and user. */
  lemma InputsRead(s: Spec)
    ensures ReadInputs(s).Some? <==>
              && ParseUrl(s.controllerUrl).Accepted?
              && (s.proxyUrl == "" || |Split(s.proxyUrl, ':')| == 3)
              && (s.proxyUser == "" || |Split(s.proxyUser, '@')| == 2)
    ensures ReadInputs(s).Some? ==>
              var i := ReadInputs(s).value;
              && ParseUrl(s.controllerUrl) == Accepted(i.endpoint)
              && i.logLevel == StringOr(s.logLevel, "info")
              && (s.eventServiceUrl != "" ==> i.eventUrl == s.eventServiceUrl)
              && (s.eventServiceUrl == "" && Contains(i.endpoint.host, "appdynamics.com") ==>
                    i.eventUrl == "https://analytics.api.appdynamics.com")
              && (s.eventServiceUrl == "" && !Contains(i.endpoint.host, "appdynamics.com") ==>
                    i.eventUrl == (if i.endpoint.ssl then "https" else "http") + "://" + i.endpoint.host + ":9080")
              && (s.proxyUrl == "" ==> i.proxyHost == i.proxyPort == "")
              && (s.proxyUser == "" ==> i.proxyUser == i.proxyPass == "")
  {
    hide ParseUrl, Contains, Split, TrimLeft;
  }

  /** A proxy URL of the documented form protocol://domain:port gives domain and port. */
  lemma ProxyRead(s: Spec, protocol: string, slashes: string, host: string, port: string)
    requires ReadInputs(s).Some? && s.proxyUrl == protocol + [':'] + (slashes + host + [':'] + port)
    requires Free(protocol, ':') && AllAre(slashes, '/') && Free(host, ':') && !StartsWith(host, '/') && Free(port, ':')
    ensures ReadInputs(s).value.proxyHost == host && ReadInputs(s).value.proxyPort == port
  {
    hide ParseUrl, EventUrl, Split, TrimLeft;
    assert Free(slashes + host, ':');
    SplitPrefix(protocol, slashes + host + [':'] + port, ':');
    SplitPrefix(slashes + host, port, ':');
    SplitPrefix(port, "", ':');
    TrimLeftPadding(slashes, host, '/');
  }

  /** A proxy user of the documented form user@pass gives user and password. */
  lemma ProxyUserRead(s: Spec, user: string, pass: string)
    requires ReadInputs(s).Some? && s.proxyUser == user + ['@'] + pass && Free(user, '@') && Free(pass, '@')
    ensures ReadInputs(s).value.proxyUser == user && ReadInputs(s).value.proxyPass == pass
  {
    hide ParseUrl, EventUrl, Split, TrimLeft;
    SplitPrefix(user, pass, '@');
    SplitPrefix(pass, "", '@');
  }

  // ---------- Restarts ----------

  /** The fifteen entries, as they are compared with a spec whose EnableServerViz may still be
      missing; the other two flags have their defaults by then. */
  predicate EntryDiffers(c: Config, s: Spec, i: Inputs) {
    || c.account != s.account || c.globalAccount != s.globalAccount
    || c.host != i.endpoint.host || c.port != Itoa(i.endpoint.port)
    || c.ssl != (if i.endpoint.ssl then "true" else "false") || c.eventEndpoint != i.eventUrl
    || c.proxyHost != i.proxyHost || c.proxyPort != i.proxyPort
    || c.proxyUser != i.proxyUser || c.proxyPass != i.proxyPass
    || c.containerHostId != StringOr(s.enableContainerHostId, "true") || c.serverViz != s.enableServerViz
    || c.dockerViz != StringOr(s.enableDockerViz, "true")
    || c.metricLimit != s.metricsLimit || c.properties != s.propertyBag
  }

  /** An undisturbed pass over an existing ma-config restarts the pods exactly when one of the fifteen
      entries differs, or when the annotated spec does and no log entry. Without a ma-config it is
      the annotated spec alone. */
  lemma RestartsFor(t: Store)
    requires t.daemonSet.Some? && ReadInputs(t.spec).Some?
    ensures var s, i, r := t.spec, ReadInputs(t.spec).value, Pass(t);
            && !r.failed
            && (t.config.None? ==> (r.restarted <==> t.daemonSet.value.annotation != PodDefaults(s)))
            && (t.config.Some? ==>
                  (r.restarted <==>
                     EntryDiffers(t.config.value, s, i)
                     || (t.daemonSet.value.annotation != PodDefaults(s)
                         && t.config.value.logLevel == i.logLevel
                         && t.config.value.logStdout == if s.stdoutLogging then "true" else "false")))
  {
    hide ReadInputs, WriteConfig, Changed, Build, JsonPod, Json, ConfigDefaults, Itoa;
    DefaultsKeepInputs(t.spec);
    BasicsFrame(t, PodDefaults(t.spec));
  }

  /** The comparisons miss nothing that is written: a ma-config agrees with the one to be written
      exactly if neither comparison finds a difference and the NetViz port is the same. */
  lemma ComparedAll(c: Config, s: Spec, i: Inputs)
    ensures Render(s, i, c.foreign) == c
            <==> !BreakingEntries(c, s, i) && !LogEntries(c, s, i) && c.netVizPort == Itoa(s.netVizPort)
  {
    hide Itoa;
  }

  // ---------- ma-config ----------

  /** An undisturbed pass leaves the ma-config of the fully defaulted spec. */
  lemma ConfigOfPass(t: Store)
    requires t.daemonSet.Some? && ReadInputs(t.spec).Some?
    ensures Pass(t).store.config
            == Some(Render(FullDefaults(t.spec), ReadInputs(t.spec).value,
                           if t.config.Some? then t.config.value.foreign else map[]))
  {
    hide ReadInputs, WriteConfig, Breaking, Changed, Desired, Json, Render, PodDefaults, ConfigDefaults, EnsureBasics;
    var s := PodDefaults(t.spec);
    DefaultsKeepInputs(t.spec);
    BasicsFrame(t, s);
    ConfigOfWrite(EnsureBasics(t, s), s, ReadInputs(s).value);
  }

  lemma ConfigOfWrite(t: Store, s: Spec, i: Inputs)
    ensures WriteConfig(t, s, i).config
            == Some(Render(ConfigDefaults(s), i, if t.config.Some? then t.config.value.foreign else map[]))
  {
    hide Render, LogEntries, LogFileOf, ConfigDefaults;
  }

  /** What the agents read from ma-config after an undisturbed pass. */
  lemma ConfigTells(t: Store)
    requires t.daemonSet.Some? && ReadInputs(t.spec).Some?
    ensures var s, i, u := t.spec, ReadInputs(t.spec).value, Pass(t).store;
            && u.config.Some?
            && u.config.value.account == s.account && u.config.value.globalAccount == s.globalAccount
            && u.config.value.host == i.endpoint.host && Atoi(u.config.value.port) == Some(i.endpoint.port)
            && u.config.value.ssl == (if i.endpoint.ssl then "true" else "false")
            && (MIN_INT <= s.netVizPort <= MAX_INT ==> Atoi(u.config.value.netVizPort) == Some(s.netVizPort))
            && u.config.value.containerHostId == StringOr(s.enableContainerHostId, "true")
            && u.config.value.serverViz == StringOr(s.enableServerViz, "true")
            && u.config.value.dockerViz == StringOr(s.enableDockerViz, "true")
    ensures var s, i, u := t.spec, ReadInputs(t.spec).value, Pass(t).store;
            && u.config.Some?
            && u.config.value.eventEndpoint == i.eventUrl
            && u.config.value.proxyHost == i.proxyHost && u.config.value.proxyPort == i.proxyPort
            && u.config.value.proxyUser == i.proxyUser && u.config.value.proxyPass == i.proxyPass
            && u.config.value.metricLimit == s.metricsLimit && u.config.value.properties == s.propertyBag
            && u.config.value.logLevel == i.logLevel
            && u.config.value.logStdout == (if s.stdoutLogging then "true" else "false")
            && u.config.value.foreign == if t.config.Some? then t.config.value.foreign else map[]
  {
    hide ReadInputs, Pass, Itoa, Atoi;
    var i := ReadInputs(t.spec).value;
    ConfigOfPass(t);
    InputPort(t.spec);
    ItoaThenAtoi(i.endpoint.port);
    if MIN_INT <= t.spec.netVizPort <= MAX_INT {
      ItoaThenAtoi(t.spec.netVizPort);
    }
  }

  lemma InputPort(s: Spec)
    requires ReadInputs(s).Some?
    ensures ReadInputs(s).value.endpoint.port <= MAX_INT
  {
    hide ReadInputs, ParseUrl;
    InputsRead(s);
    var _, _, _, _ := AcceptedShape(s.controllerUrl);
  }

  // ---------- The objects around the DaemonSet ----------

  /** Service, secret and NetViz config after an undisturbed pass. */
  lemma ObjectsTell(t: Store)
    requires t.daemonSet.Some? && ReadInputs(t.spec).Some?
    ensures var s, u := t.spec, Pass(t).store;
            && u.service == (if t.service.Some? then t.service
                             else Some((if s.biqPort == 0 then 9090 else s.biqPort,
                                        if s.netVizPort > 0 then s.netVizPort else 0)))
            && u.secrets == t.secrets + {StringOr(s.accessSecret, "cluster-agent-secret")}
            && u.netViz == (if s.netVizPort > 0 then Some((s.netlibEnabled, s.netVizPort)) else t.netViz)
            && u.sslStore == t.sslStore
  {
    hide ReadInputs, WriteConfig, Breaking, Changed, Desired, Json, ConfigDefaults;
    var s := PodDefaults(t.spec);
    DefaultsKeepInputs(t.spec);
    ObjectsOfWrite(EnsureBasics(t, s), s, ReadInputs(s).value);
  }

  lemma ObjectsOfWrite(t: Store, s: Spec, i: Inputs)
    ensures var u := WriteConfig(t, s, i);
            && u.service == t.service && u.secrets == t.secrets && u.sslStore == t.sslStore
            && u.netViz == (if s.netVizPort > 0 then Some((s.netlibEnabled, s.netVizPort)) else t.netViz)
  {
    hide Render, LogEntries, LogFileOf, ConfigDefaults;
  }

  /** Log file and SSL config after an undisturbed pass. The log file is rewritten with the first
      ma-config and when a log entry differs; the SSL config is there after every other pass. */
  lemma LogAndSslTell(t: Store)
    requires t.daemonSet.Some? && ReadInputs(t.spec).Some?
    ensures var s, i, u := t.spec, ReadInputs(t.spec).value, Pass(t).store;
            u.logFile == if t.config.Some? && t.config.value.logLevel == i.logLevel
                            && t.config.value.logStdout == (if s.stdoutLogging then "true" else "false")
                         then t.logFile
                         else Some(LogFile(
                           Contains(StringOr(s.image, "appdynamics/machine-agent-analytics:latest"), "4.5"),
                           i.logLevel, s.stdoutLogging))
    ensures var s, u := t.spec, Pass(t).store;
            && (s.agentSSLStoreName == "" || !t.sslStore ==> u.sslConfig == t.sslConfig)
            && (s.agentSSLStoreName != "" && t.sslStore && t.sslConfig.Some? ==> u.sslConfig == None)
            && (s.agentSSLStoreName != "" && t.sslStore && t.sslConfig.None? ==>
                  u.sslConfig == Some((s.agentSSLStoreName, s.agentSSLPassword)))
  {
    hide ReadInputs, WriteConfig, Breaking, Changed, Desired, Json, ConfigDefaults, PodDefaults, Contains;
    var s := PodDefaults(t.spec);
    DefaultsKeepInputs(t.spec);
    LogInputs(t.spec);
    LogAndSslOfWrite(EnsureBasics(t, s), s, ReadInputs(s).value);
  }

  lemma LogAndSslOfWrite(t: Store, s: Spec, i: Inputs)
    ensures var u := WriteConfig(t, s, i);
            && u.logFile == (if t.config.Some? && t.config.value.logLevel == i.logLevel
                                && t.config.value.logStdout == (if s.stdoutLogging then "true" else "false")
                             then t.logFile
                             else Some(LogFile(Contains(s.image, "4.5"), i.logLevel, s.stdoutLogging)))
            && u.sslConfig == if s.agentSSLStoreName == "" || !t.sslStore then t.sslConfig
                              else if t.sslConfig.Some? then None
                              else Some((s.agentSSLStoreName, s.agentSSLPassword))
  {
    hide Render, ConfigDefaults, Contains;
  }

  lemma LogInputs(s: Spec)
    ensures PodDefaults(s).stdoutLogging == s.stdoutLogging
    ensures PodDefaults(s).image == StringOr(s.image, "appdynamics/machine-agent-analytics:latest")
    ensures PodDefaults(s).agentSSLStoreName == s.agentSSLStoreName
    ensures PodDefaults(s).agentSSLPassword == s.agentSSLPassword
  {
  }

  /** The spec that an undisturbed pass stores: these six defaults, and nothing else changed but that
      empty lists and maps are gone. */
  lemma StoredSpec(t: Store)
    requires t.daemonSet.Some? && ReadInputs(t.spec).Some?
    ensures var s, u := t.spec, Pass(t).store.spec;
            && u.biqPort == (if s.biqPort == 0 then 9090 else s.biqPort)
            && u.image == StringOr(s.image, "appdynamics/machine-agent-analytics:latest")
            && u.netVizImage == StringOr(s.netVizImage, "appdynamics/machine-agent-netviz:latest")
            && u.enableContainerHostId == StringOr(s.enableContainerHostId, "true")
            && u.enableServerViz == StringOr(s.enableServerViz, "true")
            && u.enableDockerViz == StringOr(s.enableDockerViz, "true")
            && (if s.env == Nil || s.env.items == [] then
                  u.env == List([EnvVar("APPDYNAMICS_AGENT_ACCOUNT_ACCESS_KEY", "",
                                        Some((StringOr(s.accessSecret, "cluster-agent-secret"), "controller-key")))])
                else u.env == s.env)
    ensures var s, u := t.spec, Pass(t).store.spec;
            && GivenBack(s.tolerations, u.tolerations) && GivenBack(s.args, u.args)
            && MapGivenBack(s.nodeSelector, u.nodeSelector) && MapGivenBack(s.resources.limits, u.resources.limits)
            && MapGivenBack(s.resources.requests, u.resources.requests)
            && u.controllerUrl == s.controllerUrl && u.account == s.account && u.globalAccount == s.globalAccount
            && u.accessSecret == s.accessSecret && u.eventServiceUrl == s.eventServiceUrl
            && u.enableMasters == s.enableMasters && u.metricsLimit == s.metricsLimit
            && u.proxyUrl == s.proxyUrl && u.proxyUser == s.proxyUser && u.logLevel == s.logLevel
            && u.stdoutLogging == s.stdoutLogging && u.pks == s.pks && u.netVizPort == s.netVizPort
            && u.netlibEnabled == s.netlibEnabled && u.agentSSLStoreName == s.agentSSLStoreName
            && u.agentSSLPassword == s.agentSSLPassword && u.propertyBag == s.propertyBag
            && u.priorityClassName == s.priorityClassName && u.other == s.other
  {
    hide Pass, ReadInputs;
    PassWrites(t);
  }

  /** A list as the API server gives it back. */
  predicate GivenBack<T(==)>(before: GoList<T>, after: GoList<T>) {
    after == (if before.List? && |before.items| == 0 then Nil else before)
  }

  predicate MapGivenBack<K(==), V(==)>(before: GoMap<K, V>, after: GoMap<K, V>) {
    after == (if before.Map? && before.entries == map[] then NilMap else before)
  }

  // ---------- The template ----------

  /** The agent container of the DaemonSet that is written for a spec. */
  lemma AgentContainerTells(s: Spec)
    ensures var p := Desired(PodDefaults(s)).template;
            && |p.containers| == (if s.netVizPort > 0 then 2 else 1)
            && p.containers[0].name == "appd-infra-agent"
            && p.containers[0].image == StringOr(s.image, "appdynamics/machine-agent-analytics:latest")
            && p.containers[0].ports == [if s.biqPort == 0 then 9090 else s.biqPort]
            && MapGivenBack(s.resources.limits, p.containers[0].resources.limits)
            && MapGivenBack(s.resources.requests, p.containers[0].resources.requests)
            && (if s.env == Nil || s.env.items == [] then
                  p.containers[0].env
                  == List([EnvVar("APPDYNAMICS_AGENT_ACCOUNT_ACCESS_KEY", "",
                                  Some((StringOr(s.accessSecret, "cluster-agent-secret"), "controller-key")))])
                else p.containers[0].env == s.env)
  {
    hide AgentMounts, Volumes;
    var d := PodDefaults(s);
    assert Build(d).containers[0] == AgentContainer(d);
    assert Desired(d).template.containers[0] == JsonContainer(AgentContainer(d));
  }

  /** Where the pods of the DaemonSet may run. */
  lemma PlacementTells(s: Spec)
    ensures var p := Desired(PodDefaults(s)).template;
            && MapGivenBack(s.nodeSelector, p.nodeSelector) && p.priorityClassName == s.priorityClassName
            && if s.enableMasters then
                 p.tolerations == List([Toleration("node-role.kubernetes.io/master", "Exists", "", "NoSchedule", None)])
               else GivenBack(s.tolerations, p.tolerations)
  {
    hide AgentContainer, NetVizContainer, Volumes, JsonContainer;
  }

  /** The arguments that the user gives, unless the docker socket of PKS has to be linked first. */
  lemma AgentCommandTells(s: Spec)
    ensures var p := Desired(PodDefaults(s)).template;
            if s.pks && StringOr(s.enableDockerViz, "true") == "true" then
              && p.containers[0].command == List(["/bin/sh", "-c"])
              && p.containers[0].args
                 == List(["echo starting; mkdir -p /var/run/; ln -s /mnt/run/docker/docker.sock /var/run/docker.sock; "
                          + "/opt/appdynamics/startup.sh"])
            else p.containers[0].command == Nil && GivenBack(s.args, p.containers[0].args)
  {
    hide AgentMounts, Volumes;
    var d := PodDefaults(s);
    assert Build(d).containers[0] == AgentContainer(d);
    assert Desired(d).template.containers[0] == JsonContainer(AgentContainer(d));
  }

  /** The NetViz container, there exactly with a positive port. */
  lemma NetVizContainerTells(s: Spec)
    requires s.netVizPort > 0
    ensures var c := Desired(PodDefaults(s)).template.containers[1];
            && c.name == "appd-netviz-agent"
            && c.image == StringOr(s.netVizImage, "appdynamics/machine-agent-netviz:latest")
            && c.ports == [s.netVizPort] && c.command == Nil && c.args == Nil && c.env == Nil
            && c.resources.limits == Map(map["cpu" := "0.2", "memory" := "300Mi"])
            && c.resources.requests == Map(map["cpu" := "0.1", "memory" := "150Mi"])
            && c.mounts == [Mount("netviz-volume", "/netviz-agent/conf/agent_config.lua", "agent_config.lua")]
  {
    hide AgentMounts, Volumes, AgentContainer;
    var d := PodDefaults(s);
    assert Build(d).containers[1] == NetVizContainer(d);
    assert Desired(d).template.containers[1] == JsonContainer(NetVizContainer(d));
    NetVizResources();
  }

  lemma NetVizResources()
    ensures JsonResources(NETVIZ_RESOURCES) == NETVIZ_RESOURCES
  {
    var limits, requests := NETVIZ_RESOURCES.limits, NETVIZ_RESOURCES.requests;
    assert "cpu" in limits.entries && "cpu" in requests.entries;
    assert limits != Map(map[]) && requests != Map(map[]);
  }

  /** Exactly the mounts of the agent container. */
  lemma MountsTell(s: Spec, m: Mount)
    ensures var docker := StringOr(s.enableDockerViz, "true") == "true";
            m in Desired(PodDefaults(s)).template.containers[0].mounts <==>
              || m == Mount("hostroot", "/hostroot", "")
              || m == Mount("ma-log-volume", "/opt/appdynamics/conf/logging", "")
              || (docker && s.pks && m == Mount("docker-sock", "/mnt", ""))
              || (docker && !s.pks && m == Mount("docker-sock", "/var/run/docker.sock", ""))
              || (s.agentSSLStoreName != ""
                  && (m == Mount("ssl-volume", "/opt/appdynamics/conf/" + s.agentSSLStoreName, s.agentSSLStoreName)
                      || m == Mount("ssl-config-volume", "/opt/appdynamics/conf/controller-info.xml",
                                    "controller-info.xml")))
  {
    hide Volumes;
    var d := PodDefaults(s);
    assert Build(d).containers[0] == AgentContainer(d);
    assert Desired(d).template.containers[0].mounts == AgentMounts(d);
  }

  /** Exactly the volumes of the pod. */
  lemma VolumesTell(s: Spec, v: Volume)
    ensures var docker := StringOr(s.enableDockerViz, "true") == "true";
            v in Desired(PodDefaults(s)).template.volumes <==>
              || v == Volume("hostroot", "/") || v == Volume("ma-log-volume", "ma-log-config")
              || (docker && s.pks && v == Volume("docker-sock", "/var/vcap/data/sys"))
              || (docker && !s.pks && v == Volume("docker-sock", "/var/run/docker.sock"))
              || (s.netVizPort > 0 && v == Volume("netviz-volume", "netviz-config"))
              || (s.agentSSLStoreName != ""
                  && (v == Volume("ssl-config-volume", "ma-ssl-config")
                      || v == Volume("ssl-volume", "appd-agent-ssl-store")))
  {
    hide AgentMounts, AgentContainer, NetVizContainer;
  }

  predicate HasVolume(p: PodSpec, name: string) {
    exists v :: v in p.volumes && v.name == name
  }

  /** Every mount of every container names a volume of its pod. */
  lemma MountsHaveVolumes(s: Spec, k: nat, m: Mount)
    requires k < |Desired(PodDefaults(s)).template.containers|
    requires m in Desired(PodDefaults(s)).template.containers[k].mounts
    ensures HasVolume(Desired(PodDefaults(s)).template, m.name)
  {
    hide Desired, PodDefaults;
    var p := Desired(PodDefaults(s)).template;
    AgentContainerTells(s);
    VolumesTell(s, Volume("hostroot", "/"));
    VolumesTell(s, Volume("ma-log-volume", "ma-log-config"));
    VolumesTell(s, Volume("docker-sock", "/var/vcap/data/sys"));
    VolumesTell(s, Volume("docker-sock", "/var/run/docker.sock"));
    VolumesTell(s, Volume("netviz-volume", "netviz-config"));
    VolumesTell(s, Volume("ssl-config-volume", "ma-ssl-config"));
    VolumesTell(s, Volume("ssl-volume", "appd-agent-ssl-store"));
    if k == 0 {
      MountsTell(s, m);
    } else {
      NetVizContainerTells(s);
    }
  }

  /** What the change detector sees of the templates that it compares. */
  lemma FirstContainers(s: Spec)
    ensures |Desired(s).template.containers| == |Build(s).containers| == if s.netVizPort > 0 then 2 else 1
    ensures var c := Desired(s).template.containers[0];
            && c.image == s.image && c.env == JsonList(s.env)
            && c.resources == Resources(JsonMap(s.resources.limits), JsonMap(s.resources.requests))
            && c.args == (if s.enableDockerViz == "true" && s.pks then List(PKS_ARGS) else JsonList(s.args))
  {
    hide AgentMounts, Volumes, NetVizContainer;
    assert Build(s).containers[0] == AgentContainer(s);
    assert Desired(s).template.containers[0] == JsonContainer(AgentContainer(s));
  }

  lemma PodFields(s: Spec)
    ensures var p := Desired(s).template;
            && p.nodeSelector == JsonMap(s.nodeSelector)
            && p.tolerations == if s.enableMasters then List([MASTER_TOLERATION]) else JsonList(s.tolerations)
  {
    hide AgentContainer, Volumes, NetVizContainer, JsonContainer;
  }

  lemma SecondContainers(s: Spec)
    requires s.netVizPort > 0
    ensures |Desired(s).template.containers| == |Build(s).containers| == 2
    ensures Desired(s).template.containers[1].ports == Build(s).containers[1].ports == [s.netVizPort]
  {
    hide AgentContainer, Volumes;
    assert Build(s).containers[1] == NetVizContainer(s);
    assert Desired(s).template.containers[1] == JsonContainer(NetVizContainer(s));
  }

  /** When the change detector compares the stored template of one spec with another spec. */
  lemma ChangedBetween(s: Spec, t: Spec)
    ensures Changed(Desired(s).template, Build(t), t) <==>
              || (s.netVizPort > 0 && t.netVizPort <= 0) || (s.netVizPort <= 0 && t.netVizPort > 0)
              || (s.netVizPort > 0 && t.netVizPort > 0 && s.netVizPort != t.netVizPort)
              || s.image != t.image || JsonList(s.env) != t.env || JsonMap(s.nodeSelector) != t.nodeSelector
              || JsonMap(s.resources.limits) != t.resources.limits
              || JsonMap(s.resources.requests) != t.resources.requests
              || t.tolerations != (if s.enableMasters then List([MASTER_TOLERATION]) else JsonList(s.tolerations))
              || t.args != (if s.enableDockerViz == "true" && s.pks then List(PKS_ARGS) else JsonList(s.args))
  {
    hide Desired, Build, JsonList, JsonMap;
    FirstContainers(s);
    FirstContainers(t);
    PodFields(s);
    if s.netVizPort > 0 {
      SecondContainers(s);
    }
    if t.netVizPort > 0 {
      SecondContainers(t);
    }
  }

  // ---------- Failing calls ----------

  lemma FinishFrame(v: Store, s: Spec, breaking: bool, changed: bool, e: Env)
    ensures FinishPass(v, s, breaking, changed, e).store
            == v.(daemonSet := FinishPass(v, s, breaking, changed, e).store.daemonSet,
                  spec := FinishPass(v, s, breaking, changed, e).store.spec)
    ensures UpdateBeforeRestart in e.faults && UpdateAfterChange in e.faults ==>
              FinishPass(v, s, breaking, changed, e).store.daemonSet == v.daemonSet
    ensures ListStatusPods in e.faults || UpdateInfraViz in e.faults ==>
              FinishPass(v, s, breaking, changed, e).store.spec == v.spec
  {
    hide Desired, Json, ConfigDefaults;
  }

  /** A failing call leaves its object as it was: service, secret, DaemonSet and spec. */
  lemma FailingCallsWriteNothing(t: Store, e: Env)
    ensures var u := PassWith(t, e).store;
            && (GetService in e.faults || CreateService in e.faults ==> u.service == t.service)
            && (GetSecret in e.faults || CreateSecret in e.faults ==> u.secrets == t.secrets)
            && (CreateDaemonSet in e.faults && t.daemonSet.None? ==> u.daemonSet == None)
            && (UpdateBeforeRestart in e.faults && UpdateAfterChange in e.faults && t.daemonSet.Some? ==>
                  u.daemonSet == t.daemonSet)
            && (ListStatusPods in e.faults || UpdateInfraViz in e.faults ==> u.spec == t.spec)
  {
    hide ReadInputs, Breaking, Changed, Desired, Build, PodDefaults, ConfigDefaults, ConfigWith, ConfigWritten;
    hide FinishPass, Render;
    var s := PodDefaults(t.spec);
    var u := BasicsWith(t, s, e);
    if u.daemonSet.Some? && ReadInputs(s).Some? {
      var i, d := ReadInputs(s).value, u.daemonSet.value;
      ConfigWithFrame(u, s, i, e);
      FinishFrame(ConfigWith(u, s, i, e), s, Breaking(u, s, i, d.annotation),
                  Changed(d.template, Build(s), ConfigDefaults(s)), e);
    }
  }

  /** The same for the ConfigMaps. */
  lemma FailingConfigCallsWriteNothing(t: Store, e: Env)
    ensures ConfigCallsKeep(t, PassWith(t, e).store, e)
  {
    hide ReadInputs, Breaking, Changed, Desired, Build, PodDefaults, ConfigDefaults, ConfigWith, ConfigWritten;
    hide FinishPass, Render;
    var s := PodDefaults(t.spec);
    var u := BasicsWith(t, s, e);
    if u.daemonSet.Some? && ReadInputs(s).Some? {
      var i, d := ReadInputs(s).value, u.daemonSet.value;
      ConfigWithKeeps(u, s, i, e);
      FinishFrame(ConfigWith(u, s, i, e), s, Breaking(u, s, i, d.annotation),
                  Changed(d.template, Build(s), ConfigDefaults(s)), e);
    }
  }

  predicate ConfigCallsKeep(t: Store, u: Store, e: Env) {
    && (GetNetViz in e.faults || PutNetViz in e.faults ==> u.netViz == t.netViz)
    && (GetLogFile in e.faults || PutLogFile in e.faults ==> u.logFile == t.logFile)
    && (GetConfig in e.faults || PutConfig in e.faults ==> u.config == t.config)
    && (GetSslStore in e.faults || GetSslConfig in e.faults ==> u.sslConfig == t.sslConfig)
    && (DeleteSslConfig in e.faults && t.sslConfig.Some? ==> u.sslConfig == t.sslConfig)
    && (PutSslConfig in e.faults && t.sslConfig.None? ==> u.sslConfig == None)
  }

  lemma ConfigWithKeeps(t: Store, s: Spec, i: Inputs, e: Env)
    ensures ConfigCallsKeep(t, ConfigWith(t, s, i, e), e)
  {
    hide Render, LogEntries, LogFileOf, ConfigDefaults;
  }

  /** Exactly the passes that report an error. */
  lemma PassFails(t: Store, e: Env)
    requires t.daemonSet.Some?
    ensures var s, d := PodDefaults(t.spec), t.daemonSet.value;
            PassWith(t, e).failed <==>
              || GetInfraViz in e.faults || GetDaemonSet in e.faults || ReadInputs(s).None?
              || GetConfig in e.faults || PutConfig in e.faults
              || ((GetLogFile in e.faults || PutLogFile in e.faults)
                  && (t.config.None? || LogEntries(t.config.value, s, ReadInputs(s).value)))
              || (Breaking(t, s, ReadInputs(s).value, d.annotation)
                  && (UpdateBeforeRestart in e.faults || ListPods in e.faults || e.deletable < e.pods))
              || (Changed(d.template, Build(s), ConfigDefaults(s)) && UpdateAfterChange in e.faults)
  {
    hide ReadInputs, Breaking, Changed, Desired, Build, PodDefaults, ConfigDefaults, Render, LogEntries, ConfigWith;
    var s := PodDefaults(t.spec);
    var u := BasicsWith(t, s, e);
    assert u.config == t.config && u.daemonSet == t.daemonSet;
    BreakingFrame(t, u, s);
    if ReadInputs(s).Some? {
      ConfigWithFrame(u, s, ReadInputs(s).value, e);
    }
  }

  /** None of the calls fails. */
  predicate Succeed(calls: set<Call>, e: Env) {
    forall c :: c in calls ==> c !in e.faults
  }

  lemma FinishStores(v: Store, s: Spec, breaking: bool, changed: bool, e: Env)
    ensures var r := FinishPass(v, s, breaking, changed, e);
            !r.failed && ListStatusPods !in e.faults && UpdateInfraViz !in e.faults ==>
              r.store.spec == Json(ConfigDefaults(s))
    ensures var r := FinishPass(v, s, breaking, changed, e);
            r.deleted == if !breaking || UpdateBeforeRestart in e.faults || ListPods in e.faults then 0
                         else if e.deletable < e.pods then e.deletable else e.pods
  {
    hide Desired, Json, ConfigDefaults;
  }

  /** Whatever else fails, what does not fail is written: service, secret and DaemonSet. */
  lemma SucceedingCallsWrite(t: Store, e: Env)
    requires GetInfraViz !in e.faults
    ensures var s, u := t.spec, PassWith(t, e).store;
            && (Succeed({GetService, CreateService}, e) && t.service.None? ==>
                  u.service == Some((if s.biqPort == 0 then 9090 else s.biqPort,
                                     if s.netVizPort > 0 then s.netVizPort else 0)))
            && (t.service.Some? ==> u.service == t.service)
            && (Succeed({GetSecret, CreateSecret}, e) ==>
                  u.secrets == t.secrets + {StringOr(s.accessSecret, "cluster-agent-secret")})
            && (Succeed({GetDaemonSet, CreateDaemonSet}, e) && t.daemonSet.None? ==>
                  u.daemonSet == Some(Desired(PodDefaults(s))))
  {
    hide ReadInputs, Breaking, Changed, Desired, Build, ConfigDefaults, ConfigWith, ConfigWritten, FinishPass, Render;
    var s := PodDefaults(t.spec);
    var u := BasicsWith(t, s, e);
    if u.daemonSet.Some? && ReadInputs(s).Some? {
      var i, d := ReadInputs(s).value, u.daemonSet.value;
      ConfigWithFrame(u, s, i, e);
      FinishFrame(ConfigWith(u, s, i, e), s, Breaking(u, s, i, d.annotation),
                  Changed(d.template, Build(s), ConfigDefaults(s)), e);
    }
  }

  /** The same for NetViz config, log file and SSL config, which a pass over a DaemonSet writes. */
  predicate ConfigCallsWrite(t: Store, s: Spec, i: Inputs, u: Store, e: Env) {
    var logged := t.config.Some? && t.config.value.logLevel == i.logLevel
                  && t.config.value.logStdout == (if s.stdoutLogging then "true" else "false");
    && (Succeed({GetNetViz, PutNetViz}, e) && s.netVizPort > 0 ==> u.netViz == Some((s.netlibEnabled, s.netVizPort)))
    && (Succeed({GetConfig, GetLogFile, PutLogFile}, e) && !logged ==>
          u.logFile == Some(LogFile(Contains(s.image, "4.5"), i.logLevel, s.stdoutLogging)))
    && (Succeed({GetConfig, PutConfig, GetSslStore, GetSslConfig, DeleteSslConfig, PutSslConfig}, e)
        && (logged || Succeed({GetLogFile, PutLogFile}, e)) && s.agentSSLStoreName != "" && t.sslStore ==>
          u.sslConfig == if t.sslConfig.Some? then None else Some((s.agentSSLStoreName, s.agentSSLPassword)))
  }

  lemma ConfigWithWrites(t: Store, s: Spec, i: Inputs, e: Env)
    ensures ConfigCallsWrite(t, s, i, ConfigWith(t, s, i, e), e)
  {
    hide Render, ConfigDefaults, Contains;
  }

  /** Whatever else fails: the ConfigMaps that a pass over a DaemonSet writes, the stored spec, and how
      many pods are deleted, which are all that can be unless their list fails. */
  lemma SucceedingConfigCallsWrite(t: Store, e: Env)
    requires t.daemonSet.Some? && ReadInputs(t.spec).Some? && Succeed({GetInfraViz, GetDaemonSet}, e)
    ensures ConfigCallsWrite(t, PodDefaults(t.spec), ReadInputs(t.spec).value, PassWith(t, e).store, e)
    ensures !PassWith(t, e).failed && Succeed({ListStatusPods, UpdateInfraViz}, e) ==>
              PassWith(t, e).store.spec == Json(FullDefaults(t.spec))
    ensures Restarts(t, e) ==>
              PassWith(t, e).deleted == if ListPods in e.faults then 0
                                        else if e.deletable < e.pods then e.deletable else e.pods
    ensures !Restarts(t, e) ==> PassWith(t, e).deleted == 0
  {
    hide ReadInputs, Changed, Desired, Build, ConfigDefaults, ConfigWith, FinishPass, Render;
    hide Breaking, PodDefaults, Contains, LogEntries;
    var s := PodDefaults(t.spec);
    var u := BasicsWith(t, s, e);
    DefaultsKeepInputs(t.spec);
    var i, d := ReadInputs(s).value, u.daemonSet.value;
    BreakingFrame(t, u, s);
    ConfigWithFrame(u, s, i, e);
    ConfigWithWrites(u, s, i, e);
    FinishFrame(ConfigWith(u, s, i, e), s, Breaking(u, s, i, d.annotation),
                Changed(d.template, Build(s), ConfigDefaults(s)), e);
    FinishStores(ConfigWith(u, s, i, e), s, Breaking(u, s, i, d.annotation),
                 Changed(d.template, Build(s), ConfigDefaults(s)), e);
  }
}

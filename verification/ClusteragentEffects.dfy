/** What a Reconcile of the Clusteragent does, told by the fields that the user sets and that the
    agent and the cluster read. Defaults and comparisons are spelled out here, so that every
    statement stands on its own. */
module ClusteragentEffects {
  import opened Text
  import opened GoTypes
  import opened ControllerUrl
  import opened ClusteragentSpec
  import opened ClusteragentMachine
  import opened ClusteragentConvergence
  import PodFilter

  // ---------- Edits and restarts ----------

  /** The edits that the restart bound counts are those of the URL or the account. */
  lemma EditCounts(m: Machine, newSpec: Spec)
    ensures var n := Step(m, Edit(newSpec));
            && n.store.spec == newSpec && n.restarts == m.restarts
            && n.edits == m.edits + if newSpec.controllerUrl != m.store.spec.controllerUrl
                                       || newSpec.account != m.store.spec.account then 1 else 0
  {
  }

  predicate ImageEdited(d: Deployment, s: Spec) {
    s.image != "" && d.image != s.image
  }

  predicate ConnectionEdited(d: Deployment, s: Spec) {
    d.annotation.controllerUrl != s.controllerUrl || d.annotation.account != s.account
  }

  /** An undisturbed pass over an existing Deployment. A given image that differs replaces that of
      the Deployment and nothing else of it; otherwise a URL or account that differs from the
      annotated one deletes the pod and is annotated; otherwise the pass is done. */
  lemma UpdatedDeployment(m: Machine)
    requires m.pc.Idle? && m.store.deployment.Some? && ValidUrl(m.store.spec)
    ensures var s, d, q := m.store.spec, m.store.deployment.value, Quiet(m);
            && (q.restarts == m.restarts + 1 <==> !ImageEdited(d, s) && ConnectionEdited(d, s))
            && m.restarts <= q.restarts <= m.restarts + 1
            && q.outcome == (if ImageEdited(d, s) || ConnectionEdited(d, s) then Requeued else Done)
            && (q.outcome == Requeued ==> q.store.spec == s)
            && q.store.deployment.Some?
    ensures var s, d, n := m.store.spec, m.store.deployment.value, Quiet(m).store.deployment.value;
            && n.image == (if ImageEdited(d, s) then s.image else d.image)
            && n.annotation.controllerUrl == (if ImageEdited(d, s) then d.annotation.controllerUrl else s.controllerUrl)
            && n.annotation.account == (if ImageEdited(d, s) then d.annotation.account else s.account)
            && (ImageEdited(d, s) || !ConnectionEdited(d, s) ==> n.annotation == d.annotation)
            && n.secretName == d.secretName && n.serviceAccountName == d.serviceAccountName
            && n.proxyPassword == d.proxyPassword && n.template == d.template
  {
    hide ParseUrl, RenderMon, RenderLog, RenderAgent, Quiet;
    QuietUpdate(m);
  }

  /** The Deployment that an undisturbed pass creates. */
  lemma CreatedDeployment(m: Machine)
    requires m.pc.Idle? && m.store.deployment.None? && ValidUrl(m.store.spec)
    ensures var s, t := m.store.spec, Quiet(m).store;
            && t.deployment.Some? && t.deployment.value.annotation == t.spec
            && t.deployment.value.image == (if s.image == "" then "appdynamics/cluster-agent:latest" else s.image)
            && t.deployment.value.serviceAccountName
               == (if s.serviceAccountName == "" then "appdynamics-operator" else s.serviceAccountName)
            && t.deployment.value.secretName
               == (if s.accessSecret == "" then "cluster-agent-secret" else s.accessSecret)
            && (t.deployment.value.proxyPassword <==>
                  s.proxyUser != "" && "cluster-agent-proxy-secret" in t.secrets)
            && t.deployment.value.template == s.template
  {
    hide ParseUrl, RenderMon, RenderLog, RenderAgent, Quiet;
    QuietCreate(m);
  }

  /** The only secret an undisturbed pass creates is the one the spec names. */
  lemma EnsuredSecret(m: Machine)
    requires m.pc.Idle? && ValidUrl(m.store.spec)
    ensures var s, t := m.store.spec, Quiet(m).store;
            t.secrets == m.store.secrets + {if s.accessSecret == "" then "cluster-agent-secret" else s.accessSecret}
  {
    hide ParseUrl, RenderMon, RenderLog, RenderAgent, Quiet, Json, Defaults;
    DefaultsKeep(m.store.spec);
    if m.store.deployment.Some? {
      QuietUpdate(m);
    } else {
      QuietCreate(m);
    }
  }

  // ---------- The stored spec ----------

  /** A list as the API server gives it back. */
  predicate GivenBack<T(==)>(before: GoList<T>, after: GoList<T>) {
    after == (if before.List? && |before.items| == 0 then Nil else before)
  }

  function IntOr(requested: int, default: int): int {
    if requested == 0 then default else requested
  }

  function StringOr(requested: string, default: string): string {
    if requested == "" then default else requested
  }

  /** A pass that is done has stored the spec with these defaults, and nothing else of it changed but
      that empty lists are gone. */
  lemma StoredSpec(m: Machine)
    requires m.pc.Idle? && ValidUrl(m.store.spec) && Quiet(m).outcome == Done
    ensures var s, t := m.store.spec, Quiet(m).store.spec;
            && t.eventUploadInterval == IntOr(s.eventUploadInterval, 10)
            && t.containerRegistrationInterval == IntOr(s.containerRegistrationInterval, 120)
            && t.httpClientTimeout == IntOr(s.httpClientTimeout, 30)
            && t.metricsSyncInterval == IntOr(s.metricsSyncInterval, 30)
            && t.clusterMetricsSyncInterval == IntOr(s.clusterMetricsSyncInterval, 60)
            && t.metadataSyncInterval == IntOr(s.metadataSyncInterval, 60)
            && t.containerBatchSize == IntOr(s.containerBatchSize, 5)
            && t.podBatchSize == IntOr(s.podBatchSize, 6)
            && t.metricUploadRetryCount == IntOr(s.metricUploadRetryCount, 2)
            && t.metricUploadRetryIntervalMilliSeconds == IntOr(s.metricUploadRetryIntervalMilliSeconds, 5)
            && t.maxPodsToRegisterCount == IntOr(s.maxPodsToRegisterCount, 750)
            && t.logLevel == StringOr(s.logLevel, "INFO")
            && t.logFileSizeMb == IntOr(s.logFileSizeMb, 5) && t.logFileBackups == IntOr(s.logFileBackups, 3)
            && t.stdoutLogging == StringOr(s.stdoutLogging, "true")
    ensures var s, t := m.store.spec, Quiet(m).store.spec;
            && t.controllerUrl == s.controllerUrl && t.account == s.account && t.accessSecret == s.accessSecret
            && t.appName == s.appName && t.proxyUrl == s.proxyUrl && t.proxyUser == s.proxyUser
            && t.template == s.template && t.other == s.other
            && (if s.nsToMonitor == Nil then t.nsToMonitor == List(["default"])
                else GivenBack(s.nsToMonitor, t.nsToMonitor))
            && GivenBack(s.podFilter.whitelistedNames, t.podFilter.whitelistedNames)
            && GivenBack(s.podFilter.blacklistedNames, t.podFilter.blacklistedNames)
            && GivenBack(s.podFilter.whitelistedLabels, t.podFilter.whitelistedLabels)
            && GivenBack(s.podFilter.blacklistedLabels, t.podFilter.blacklistedLabels)
    ensures var s, t, created := m.store.spec, Quiet(m).store.spec, m.store.deployment.None?;
            && t.image == (if created then StringOr(s.image, "appdynamics/cluster-agent:latest") else s.image)
            && t.serviceAccountName
               == (if created then StringOr(s.serviceAccountName, "appdynamics-operator") else s.serviceAccountName)
  {
    hide ParseUrl, RenderMon, RenderLog, RenderAgent, Quiet;
    if m.store.deployment.Some? {
      QuietUpdate(m);
    } else {
      QuietCreate(m);
    }
  }

  // ---------- The ConfigMaps ----------

  lemma QuietRenders(m: Machine)
    requires m.pc.Idle? && ValidUrl(m.store.spec)
    ensures var s, t := m.store.spec, Quiet(m).store;
            && ParseUrl(Defaults(s).controllerUrl) == ParseUrl(s.controllerUrl)
            && t.agent == Some(RenderAgent(Defaults(s), ParseUrl(s.controllerUrl).endpoint))
            && t.mon == Some(RenderMon(Defaults(s))) && t.log == Some(RenderLog(Defaults(s)))
  {
    hide ParseUrl, RenderMon, RenderLog, RenderAgent, Quiet, Json;
    if m.store.deployment.Some? {
      QuietUpdate(m);
    } else {
      QuietCreate(m);
    }
  }

  /** The text is the requested number, or the default for none, for every int of Go's range. */
  predicate Tells(text: string, requested: int, default: int) {
    var n := IntOr(requested, default);
    MIN_INT <= n <= MAX_INT ==> Atoi(text) == Some(n)
  }

  /** What the agent reads from its ConfigMap after any undisturbed pass. */
  lemma AgentConfigTells(m: Machine)
    requires m.pc.Idle? && ValidUrl(m.store.spec)
    ensures var s, t, e := m.store.spec, Quiet(m).store, ParseUrl(m.store.spec.controllerUrl).endpoint;
            && t.agent.Some?
            && t.agent.value.accountName == s.account && t.agent.value.clusterName == s.appName
            && t.agent.value.proxyUrl == s.proxyUrl && t.agent.value.proxyUser == s.proxyUser
            && t.agent.value.controllerHost == e.host && Atoi(t.agent.value.controllerPort) == Some(e.port)
            && t.agent.value.sslEnabled == (if e.ssl then "true" else "false")
            && Tells(t.agent.value.eventUploadInterval, s.eventUploadInterval, 10)
            && Tells(t.agent.value.containerRegistrationInterval, s.containerRegistrationInterval, 120)
            && Tells(t.agent.value.httpClientTimeout, s.httpClientTimeout, 30)
            && (s.nsToMonitor == Nil ==> t.agent.value.monitoredNamespaces == "default")
            && (s.nsToMonitor.List? && s.nsToMonitor.items == [] ==> t.agent.value.monitoredNamespaces == "")
            && (s.nsToMonitor.List? ==> t.agent.value.monitoredNamespaces == Join(s.nsToMonitor.items, ','))
            && (s.nsToMonitor.List? && s.nsToMonitor.items != [] && AllFree(s.nsToMonitor.items, ',') ==>
                  Split(t.agent.value.monitoredNamespaces, ',') == s.nsToMonitor.items)
  {
    hide Quiet, ParseUrl, Itoa, Atoi, Split, AllFree;
    var s := m.store.spec;
    QuietRenders(m);
    PortInRange(s.controllerUrl);
    PrintedNumber(ParseUrl(s.controllerUrl).endpoint.port);
    PrintedNumber(IntOr(s.eventUploadInterval, 10));
    PrintedNumber(IntOr(s.containerRegistrationInterval, 120));
    PrintedNumber(IntOr(s.httpClientTimeout, 30));
    assert Join(["default"], ',') == "default";
    if s.nsToMonitor.List? && s.nsToMonitor.items != [] && AllFree(s.nsToMonitor.items, ',') {
      JoinThenSplit(s.nsToMonitor.items, ',');
    }
  }

  lemma PrintedNumber(n: int)
    ensures MIN_INT <= n <= MAX_INT ==> Atoi(Itoa(n)) == Some(n)
  {
    hide Itoa, Atoi;
    if MIN_INT <= n <= MAX_INT {
      ItoaThenAtoi(n);
    }
  }

  lemma PortInRange(url: string)
    requires ParseUrl(url).Accepted?
    ensures ParseUrl(url).endpoint.port <= MAX_INT
  {
    hide ParseUrl;
    var _, _, _, _ := AcceptedShape(url);
  }

  /** What the agent reads from its monitoring ConfigMap after any undisturbed pass. */
  lemma MonConfigTells(m: Machine)
    requires m.pc.Idle? && ValidUrl(m.store.spec)
    ensures var s, t := m.store.spec, Quiet(m).store;
            && t.mon.Some?
            && t.mon.value.metricInterval == IntOr(s.metricsSyncInterval, 30)
            && t.mon.value.clusterMetricInterval == IntOr(s.clusterMetricsSyncInterval, 60)
            && t.mon.value.metadataInterval == IntOr(s.metadataSyncInterval, 60)
            && t.mon.value.containerBatch == IntOr(s.containerBatchSize, 5)
            && t.mon.value.podBatch == IntOr(s.podBatchSize, 6)
            && t.mon.value.retryCount == IntOr(s.metricUploadRetryCount, 2)
            && t.mon.value.retryInterval == IntOr(s.metricUploadRetryIntervalMilliSeconds, 5)
            && t.mon.value.maxPods == IntOr(s.maxPodsToRegisterCount, 750)
            && t.mon.value.podFilter == PodFilter.Print(s.podFilter)
  {
    hide Quiet, ParseUrl, PodFilter.Print;
    QuietRenders(m);
  }

  /** The same text in small ASCII letters. */
  predicate Lowered(s: string, r: string) {
    && |r| == |s|
    && forall i | 0 <= i < |s| ::
         if 'A' <= s[i] <= 'Z' then 'a' <= r[i] <= 'z' && r[i] - 'a' == s[i] - 'A' else r[i] == s[i]
  }

  lemma {:induction false} ToLowerLowers(s: string)
    ensures Lowered(s, ToLower(s))
  {
    if s != "" {
      ToLowerLowers(s[1..]);
      assert forall i | 1 <= i < |s| :: s[i] == s[1..][i - 1] && ToLower(s)[i] == ToLower(s[1..])[i - 1];
    }
  }

  /** What the agent reads from its log ConfigMap after any undisturbed pass. */
  lemma LogConfigTells(m: Machine)
    requires m.pc.Idle? && ValidUrl(m.store.spec)
    ensures var s, t := m.store.spec, Quiet(m).store;
            && t.log.Some?
            && t.log.value.level == StringOr(s.logLevel, "INFO")
            && t.log.value.maxFileSizeMb == IntOr(s.logFileSizeMb, 5)
            && t.log.value.maxBackups == IntOr(s.logFileBackups, 3)
            && Lowered(StringOr(s.stdoutLogging, "true"), t.log.value.stdout)
  {
    hide Quiet, ParseUrl, ToLower;
    QuietRenders(m);
    ToLowerLowers(StringOr(m.store.spec.stdoutLogging, "true"));
  }

  // ---------- Failing calls ----------

  /** A failing call changes nothing that is stored. It ends the pass with an error, unless it was to
      remove the old config, to look for the proxy secret, or to store the resource or its status. */
  lemma FailingCall(m: Machine)
    ensures var n := CallStep(m, false);
            && n.store == m.store && n.restarts == m.restarts
            && (match m.pc
                case CleanGet => n.pc == SecretGet
                case CleanDelete => n.pc == SecretGet
                case ProxyGet => n.pc == DeploymentCreate && !n.draft.proxyPassword
                case SpecUpdate => n.pc == Idle && n.outcome == Done
                case StatusUpdate => n.pc == Idle && n.outcome == Done
                case _ => n.pc == Idle && n.outcome == Failed)
  {
    hide ParseUrl, Defaults, Json, RenderMon, RenderLog, RenderAgent, DeploymentDefaults;
  }
}

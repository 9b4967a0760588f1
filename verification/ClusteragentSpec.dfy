/** The spec of a Clusteragent resource, its defaults, its JSON form, and the contents of the
    three ConfigMaps rendered from it. */
module ClusteragentSpec {
  import opened Text
  import opened GoTypes
  import opened ControllerUrl
  import PodFilter

  /** `template` stands for the fields that only reach the pod template (resources, security
      context, SSL and pull secrets), `other` for those the controller never reads. */
  datatype Spec = Spec(
    controllerUrl: string,
    account: string,
    accessSecret: string,
    serviceAccountName: string,
    image: string,
    appName: string,
    proxyUrl: string,
    proxyUser: string,
    nsToMonitor: GoList<string>,
    eventUploadInterval: int,
    containerRegistrationInterval: int,
    httpClientTimeout: int,
    metricsSyncInterval: int,
    clusterMetricsSyncInterval: int,
    metadataSyncInterval: int,
    containerBatchSize: int,
    podBatchSize: int,
    metricUploadRetryCount: int,
    metricUploadRetryIntervalMilliSeconds: int,
    maxPodsToRegisterCount: int,
    podFilter: PodFilter.Filter,
    logLevel: string,
    logFileSizeMb: int,
    logFileBackups: int,
    stdoutLogging: string,
    template: string,
    other: string)

  function OrInt(value: int, default: int): int {
    if value == 0 then default else value
  }

  function OrString(value: string, default: string): string {
    if value == "" then default else value
  }

  function BootstrapDefaults(s: Spec): Spec {
    s.(nsToMonitor := if s.nsToMonitor == Nil then List(["default"]) else s.nsToMonitor,
       eventUploadInterval := OrInt(s.eventUploadInterval, 10),
       containerRegistrationInterval := OrInt(s.containerRegistrationInterval, 120),
       httpClientTimeout := OrInt(s.httpClientTimeout, 30))
  }

  function MonitoringDefaults(s: Spec): Spec {
    s.(metricsSyncInterval := OrInt(s.metricsSyncInterval, 30),
       clusterMetricsSyncInterval := OrInt(s.clusterMetricsSyncInterval, 60),
       metadataSyncInterval := OrInt(s.metadataSyncInterval, 60),
       containerBatchSize := OrInt(s.containerBatchSize, 5),
       podBatchSize := OrInt(s.podBatchSize, 6),
       metricUploadRetryCount := OrInt(s.metricUploadRetryCount, 2),
       metricUploadRetryIntervalMilliSeconds := OrInt(s.metricUploadRetryIntervalMilliSeconds, 5),
       maxPodsToRegisterCount := OrInt(s.maxPodsToRegisterCount, 750))
  }

  function LoggerDefaults(s: Spec): Spec {
    s.(logLevel := OrString(s.logLevel, "INFO"),
       logFileSizeMb := OrInt(s.logFileSizeMb, 5),
       logFileBackups := OrInt(s.logFileBackups, 3),
       stdoutLogging := OrString(s.stdoutLogging, "true"))
  }

  /** `setClusterAgentConfigDefaults` as a function of the spec. */
  function Defaults(s: Spec): Spec {
    LoggerDefaults(MonitoringDefaults(BootstrapDefaults(s)))
  }

  /** The two further defaults that only building a Deployment fills in. */
  function DeploymentDefaults(s: Spec): Spec {
    s.(image := OrString(s.image, "appdynamics/cluster-agent:latest"),
       serviceAccountName := OrString(s.serviceAccountName, "appdynamics-operator"))
  }

  function SecretName(s: Spec): string {
    OrString(s.accessSecret, "cluster-agent-secret")
  }

  /** The two fields whose change restarts the agent pod. */
  function Key(s: Spec): (string, string) {
    (s.controllerUrl, s.account)
  }

  predicate ValidUrl(s: Spec) {
    ParseUrl(s.controllerUrl).Accepted?
  }

  // ---------- JSON ----------

  function JsonFilter(f: PodFilter.Filter): PodFilter.Filter {
    PodFilter.Filter(JsonList(f.whitelistedNames), JsonList(f.blacklistedNames),
                     JsonList(f.whitelistedLabels), JsonList(f.blacklistedLabels))
  }

  /** The spec that comes back from `json.Marshal` and `json.Unmarshal`. */
  function Json(s: Spec): Spec {
    s.(nsToMonitor := JsonList(s.nsToMonitor), podFilter := JsonFilter(s.podFilter))
  }

  /** No list of the spec is present but empty, so JSON gives back the same spec. */
  predicate Tidy(s: Spec) {
    Json(s) == s
  }

  // ---------- Rendering ----------

  datatype AgentConfig = AgentConfig(
    accountName: string, controllerHost: string, controllerPort: string, sslEnabled: string,
    clusterName: string, proxyUrl: string, proxyUser: string, monitoredNamespaces: string,
    eventUploadInterval: string, containerRegistrationInterval: string, httpClientTimeout: string)

  datatype MonConfig = MonConfig(
    metricInterval: int, clusterMetricInterval: int, metadataInterval: int,
    containerBatch: int, podBatch: int, retryCount: int, retryInterval: int, maxPods: int,
    podFilter: string)

  datatype LogConfig = LogConfig(level: string, maxFileSizeMb: int, maxBackups: int, stdout: string)

  function RenderAgent(s: Spec, e: Endpoint): AgentConfig {
    AgentConfig(
      s.account, e.host, Itoa(e.port), if e.ssl then "true" else "false",
      s.appName, s.proxyUrl, s.proxyUser,
      Join(if s.nsToMonitor == Nil then [] else s.nsToMonitor.items, ','),
      Itoa(s.eventUploadInterval), Itoa(s.containerRegistrationInterval), Itoa(s.httpClientTimeout))
  }

  function RenderMon(s: Spec): MonConfig {
    MonConfig(s.metricsSyncInterval, s.clusterMetricsSyncInterval, s.metadataSyncInterval,
              s.containerBatchSize, s.podBatchSize, s.metricUploadRetryCount,
              s.metricUploadRetryIntervalMilliSeconds, s.maxPodsToRegisterCount,
              PodFilter.Print(s.podFilter))
  }

  function ToLower(s: string): string {
    if s == "" then ""
    else [if 'A' <= s[0] <= 'Z' then (s[0] as int + 32) as char else s[0]] + ToLower(s[1..])
  }

  function RenderLog(s: Spec): LogConfig {
    LogConfig(s.logLevel, s.logFileSizeMb, s.logFileBackups, ToLower(s.stdoutLogging))
  }

  /** The three ConfigMaps hold what the spec asks for. */
  predicate Rendered(s: Spec, agent: Option<AgentConfig>, mon: Option<MonConfig>, log: Option<LogConfig>) {
    && ValidUrl(s)
    && agent == Some(RenderAgent(s, ParseUrl(s.controllerUrl).endpoint))
    && mon == Some(RenderMon(s))
    && log == Some(RenderLog(s))
  }

  // ---------- What an operator write loses ----------

  lemma SectionLengths(f: PodFilter.Filter)
    ensures var g := JsonFilter(f);
            |PodFilter.Sections(g)| <= |PodFilter.Sections(f)|
            && (g != f ==> |PodFilter.Sections(g)| < |PodFilter.Sections(f)|)
  {
  }

  /** Dropping an empty list always shows in the printed filter. */
  lemma JsonShowsInPrint(f: PodFilter.Filter)
    ensures PodFilter.Print(JsonFilter(f)) == PodFilter.Print(f) <==> JsonFilter(f) == f
  {
    SectionLengths(f);
    PodFilter.SectionsEnd(f);
  }

  function Reread(s: Spec): Spec {
    Defaults(Json(Defaults(s)))
  }

  lemma RereadAgent(s: Spec, e: Endpoint)
    ensures RenderAgent(Reread(s), e) == RenderAgent(Defaults(s), e) <==> JsonList(s.nsToMonitor) == s.nsToMonitor
  {
    hide Itoa;
    assert Join([], ',') == "" && Join(["default"], ',') == "default";
    if s.nsToMonitor == List([]) {
      assert RenderAgent(Defaults(s), e).monitoredNamespaces == "";
      assert RenderAgent(Reread(s), e).monitoredNamespaces == "default";
    }
  }

  lemma RereadMon(s: Spec)
    ensures RenderMon(Reread(s)) == RenderMon(Defaults(s)) <==> JsonFilter(s.podFilter) == s.podFilter
  {
    hide PodFilter.Print, JsonFilter;
    JsonShowsInPrint(s.podFilter);
    assert Reread(s).podFilter == JsonFilter(s.podFilter);
    assert RenderMon(Reread(s)) == RenderMon(Defaults(s)).(podFilter := PodFilter.Print(JsonFilter(s.podFilter)));
  }

  lemma RereadLog(s: Spec)
    ensures RenderLog(Reread(s)) == RenderLog(Defaults(s))
    ensures Reread(s).controllerUrl == Defaults(s).controllerUrl == s.controllerUrl
    ensures Tidy(s) <==> JsonList(s.nsToMonitor) == s.nsToMonitor && JsonFilter(s.podFilter) == s.podFilter
  {
    hide ToLower, JsonFilter;
  }

  /** Reading a defaulted spec back from the store and defaulting it again renders the same
      ConfigMaps exactly when the spec had no present-but-empty list. */
  lemma RereadRendersSame(s: Spec)
    requires ValidUrl(s)
    ensures var d := Defaults(s);
            var again := Defaults(Json(d));
            Rendered(again, Some(RenderAgent(d, ParseUrl(d.controllerUrl).endpoint)),
                     Some(RenderMon(d)), Some(RenderLog(d)))
            <==> Tidy(s)
  {
    hide ParseUrl, RenderAgent, RenderMon, RenderLog, Defaults, Json, JsonFilter;
    RereadAgent(s, ParseUrl(s.controllerUrl).endpoint);
    RereadMon(s);
    RereadLog(s);
    assert Reread(s) == Defaults(Json(Defaults(s)));
  }

  lemma JsonIsIdempotent(s: Spec)
    ensures Json(Json(s)) == Json(s) && Tidy(Json(s))
    ensures Defaults(Defaults(s)) == Defaults(s)
    ensures Tidy(Defaults(Json(s)))
  {
  }

  // ---------- The resource object ----------

  /** The in-memory object; the controller fills its fields in place. */
  class Clusteragent {
    var spec: Spec

    constructor (spec: Spec)
      ensures this.spec == spec
    {
      this.spec := spec;
    }

    method SetConfigDefaults()
      modifies this
      ensures spec == Defaults(old(spec))
    {
      SetBootstrapDefaults();
      SetMonitoringDefaults();
      SetLoggerDefaults();
    }

    method SetDeploymentDefaults()
      modifies this
      ensures spec == DeploymentDefaults(old(spec))
    {
      if spec.image == "" {
        spec := spec.(image := "appdynamics/cluster-agent:latest");
      }
      if spec.serviceAccountName == "" {
        spec := spec.(serviceAccountName := "appdynamics-operator");
      }
    }

    method SetBootstrapDefaults()
      modifies this
      ensures spec == BootstrapDefaults(old(spec))
    {
      if spec.nsToMonitor == Nil {
        spec := spec.(nsToMonitor := List(["default"]));
      }
      if spec.eventUploadInterval == 0 {
        spec := spec.(eventUploadInterval := 10);
      }
      if spec.containerRegistrationInterval == 0 {
        spec := spec.(containerRegistrationInterval := 120);
      }
      if spec.httpClientTimeout == 0 {
        spec := spec.(httpClientTimeout := 30);
      }
    }

    method SetMonitoringDefaults()
      modifies this
      ensures spec == MonitoringDefaults(old(spec))
    {
      if spec.metricsSyncInterval == 0 {
        spec := spec.(metricsSyncInterval := 30);
      }
      if spec.clusterMetricsSyncInterval == 0 {
        spec := spec.(clusterMetricsSyncInterval := 60);
      }
      if spec.metadataSyncInterval == 0 {
        spec := spec.(metadataSyncInterval := 60);
      }
      if spec.containerBatchSize == 0 {
        spec := spec.(containerBatchSize := 5);
      }
      if spec.podBatchSize == 0 {
        spec := spec.(podBatchSize := 6);
      }
      if spec.metricUploadRetryCount == 0 {
        spec := spec.(metricUploadRetryCount := 2);
      }
      if spec.metricUploadRetryIntervalMilliSeconds == 0 {
        spec := spec.(metricUploadRetryIntervalMilliSeconds := 5);
      }
      if spec.maxPodsToRegisterCount == 0 {
        spec := spec.(maxPodsToRegisterCount := 750);
      }
    }

    method SetLoggerDefaults()
      modifies this
      ensures spec == LoggerDefaults(old(spec))
    {
      if spec.logLevel == "" {
        spec := spec.(logLevel := "INFO");
      }
      if spec.logFileSizeMb == 0 {
        spec := spec.(logFileSizeMb := 5);
      }
      if spec.logFileBackups == 0 {
        spec := spec.(logFileBackups := 3);
      }
      if spec.stdoutLogging == "" {
        spec := spec.(stdoutLogging := "true");
      }
    }
  }
}

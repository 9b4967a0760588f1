/** The spec of an InfraViz resource, its two rounds of defaults, its JSON form, and the pod
    template built from it. */
module InfraVizSpec {
  import opened Text
  import opened GoTypes

  /** An environment variable, literal or taken from a key of a secret. */
  datatype EnvVar = EnvVar(name: string, value: string, secret: Option<(string, string)>)

  datatype Toleration = Toleration(
    key: string, operator: string, value: string, effect: string, seconds: Option<int>)

  datatype Resources = Resources(limits: GoMap<string, string>, requests: GoMap<string, string>)

  const NO_RESOURCES := Resources(NilMap, NilMap)

  /** `other` stands for the fields that the controller never reads. */
  datatype Spec = Spec(
    controllerUrl: string,
    account: string,
    globalAccount: string,
    accessSecret: string,
    eventServiceUrl: string,
    image: string,
    enableContainerHostId: string,
    enableDockerViz: string,
    enableServerViz: string,
    enableMasters: bool,
    metricsLimit: string,
    proxyUrl: string,
    proxyUser: string,
    logLevel: string,
    stdoutLogging: bool,
    pks: bool,
    netVizPort: int,
    netVizImage: string,
    netlibEnabled: int,
    biqPort: int,
    agentSSLStoreName: string,
    agentSSLPassword: string,
    propertyBag: string,
    nodeSelector: GoMap<string, string>,
    tolerations: GoList<Toleration>,
    args: GoList<string>,
    env: GoList<EnvVar>,
    resources: Resources,
    priorityClassName: string,
    other: string)

  function OrString(value: string, default: string): string {
    if value == "" then default else value
  }

  function SecretName(s: Spec): string {
    OrString(s.accessSecret, "cluster-agent-secret")
  }

  function AccessKey(s: Spec): EnvVar {
    EnvVar("APPDYNAMICS_AGENT_ACCOUNT_ACCESS_KEY", "", Some((SecretName(s), "controller-key")))
  }

  function ImageDefaults(s: Spec): Spec {
    s.(biqPort := if s.biqPort == 0 then 9090 else s.biqPort,
       image := OrString(s.image, "appdynamics/machine-agent-analytics:latest"),
       netVizImage := OrString(s.netVizImage, "appdynamics/machine-agent-netviz:latest"))
  }

  /** Filled in while the DaemonSet is built, before its annotation is saved. */
  function PodDefaults(s: Spec): Spec {
    ContainerDefaults(ImageDefaults(s))
  }

  function ContainerDefaults(s: Spec): Spec {
    s.(enableContainerHostId := OrString(s.enableContainerHostId, "true"),
       env := if s.env == Nil || s.env == List([]) then List([AccessKey(s)]) else s.env,
       enableDockerViz := OrString(s.enableDockerViz, "true"))
  }

  /** Filled in while ma-config is written, after the annotation is saved. */
  function ConfigDefaults(s: Spec): Spec {
    s.(enableContainerHostId := OrString(s.enableContainerHostId, "true"),
       enableServerViz := OrString(s.enableServerViz, "true"),
       enableDockerViz := OrString(s.enableDockerViz, "true"))
  }

  // ---------- JSON ----------

  function JsonResources(r: Resources): Resources {
    Resources(JsonMap(r.limits), JsonMap(r.requests))
  }

  /** The spec that comes back from `json.Marshal` and `json.Unmarshal`. */
  function Json(s: Spec): Spec {
    s.(nodeSelector := JsonMap(s.nodeSelector), tolerations := JsonList(s.tolerations),
       args := JsonList(s.args), env := JsonList(s.env), resources := JsonResources(s.resources))
  }

  // ---------- Pod template ----------

  datatype Mount = Mount(name: string, path: string, subPath: string)

  datatype Volume = Volume(name: string, source: string)

  datatype Container = Container(
    name: string,
    image: string,
    command: GoList<string>,
    args: GoList<string>,
    env: GoList<EnvVar>,
    resources: Resources,
    ports: seq<int>,
    mounts: seq<Mount>)

  datatype PodSpec = PodSpec(
    containers: seq<Container>,
    nodeSelector: GoMap<string, string>,
    tolerations: GoList<Toleration>,
    volumes: seq<Volume>,
    priorityClassName: string)

  const MASTER_TOLERATION := Toleration("node-role.kubernetes.io/master", "Exists", "", "NoSchedule", None)

  const PKS_ARGS := [
    "echo starting; mkdir -p /var/run/; ln -s /mnt/run/docker/docker.sock /var/run/docker.sock; "
    + "/opt/appdynamics/startup.sh"]

  const NETVIZ_RESOURCES := Resources(
    Map(map["cpu" := "0.2", "memory" := "300Mi"]), Map(map["cpu" := "0.1", "memory" := "150Mi"]))

  predicate DockerMounted(s: Spec) {
    s.enableDockerViz == "true"
  }

  function AgentMounts(s: Spec): seq<Mount> {
    [Mount("hostroot", "/hostroot", ""), Mount("ma-log-volume", "/opt/appdynamics/conf/logging", "")]
    + (if DockerMounted(s) then [Mount("docker-sock", if s.pks then "/mnt" else "/var/run/docker.sock", "")] else [])
    + (if s.agentSSLStoreName != "" then
         [Mount("ssl-volume", "/opt/appdynamics/conf/" + s.agentSSLStoreName, s.agentSSLStoreName),
          Mount("ssl-config-volume", "/opt/appdynamics/conf/controller-info.xml", "controller-info.xml")]
       else [])
  }

  function Volumes(s: Spec): seq<Volume> {
    [Volume("hostroot", "/"), Volume("ma-log-volume", "ma-log-config")]
    + (if DockerMounted(s) then
         [Volume("docker-sock", if s.pks then "/var/vcap/data/sys" else "/var/run/docker.sock")]
       else [])
    + (if s.netVizPort > 0 then [Volume("netviz-volume", "netviz-config")] else [])
    + (if s.agentSSLStoreName != "" then
         [Volume("ssl-config-volume", "ma-ssl-config"), Volume("ssl-volume", "appd-agent-ssl-store")]
       else [])
  }

  function AgentContainer(s: Spec): Container {
    var wrapped := DockerMounted(s) && s.pks;
    Container(
      "appd-infra-agent", s.image,
      if wrapped then List(["/bin/sh", "-c"]) else Nil,
      if wrapped then List(PKS_ARGS) else s.args,
      s.env, s.resources, [s.biqPort], AgentMounts(s))
  }

  function NetVizContainer(s: Spec): Container {
    Container("appd-netviz-agent", s.netVizImage, Nil, Nil, Nil, NETVIZ_RESOURCES, [s.netVizPort],
              [Mount("netviz-volume", "/netviz-agent/conf/agent_config.lua", "agent_config.lua")])
  }

  /** The pod template of a spec whose PodDefaults are filled in. */
  function Build(s: Spec): PodSpec {
    PodSpec(
      [AgentContainer(s)] + (if s.netVizPort > 0 then [NetVizContainer(s)] else []),
      s.nodeSelector,
      if s.enableMasters then List([MASTER_TOLERATION]) else s.tolerations,
      Volumes(s),
      s.priorityClassName)
  }

  function JsonContainer(c: Container): Container {
    c.(command := JsonList(c.command), args := JsonList(c.args), env := JsonList(c.env),
       resources := JsonResources(c.resources))
  }

  function JsonContainers(cs: seq<Container>): seq<Container> {
    seq(|cs|, i requires 0 <= i < |cs| => JsonContainer(cs[i]))
  }

  function JsonPod(p: PodSpec): PodSpec {
    p.(containers := JsonContainers(p.containers), nodeSelector := JsonMap(p.nodeSelector),
       tolerations := JsonList(p.tolerations))
  }

  // ---------- DaemonSets ----------

  /** A stored DaemonSet: its pod template and the spec saved under "old-infraviz". */
  datatype DaemonSet = DaemonSet(template: PodSpec, annotation: Spec)

  /** What the API server stores when a DaemonSet for the defaulted spec `s` is written. */
  function Desired(s: Spec): DaemonSet {
    DaemonSet(JsonPod(Build(s)), Json(s))
  }

  /** Written by the controller: the template is the one built from the saved spec, which has its
      defaults and no list that JSON would drop. */
  predicate OperatorWritten(d: DaemonSet) {
    && d.template == JsonPod(Build(d.annotation))
    && PodDefaults(d.annotation) == d.annotation && Json(d.annotation) == d.annotation
  }

  lemma ContainersOfJson(s: Spec)
    ensures JsonContainer(AgentContainer(Json(s))) == JsonContainer(AgentContainer(s))
    ensures NetVizContainer(Json(s)) == NetVizContainer(s) && Volumes(Json(s)) == Volumes(s)
  {
  }

  lemma BuildOfJson(s: Spec)
    ensures JsonPod(Build(Json(s))) == JsonPod(Build(s))
  {
    hide AgentContainer, NetVizContainer, Volumes, JsonContainer;
    ContainersOfJson(s);
    assert Build(Json(s)).containers[0] == AgentContainer(Json(s));
    assert Build(s).containers[0] == AgentContainer(s);
    assert JsonContainers(Build(Json(s)).containers) == JsonContainers(Build(s).containers);
  }

  lemma ImageDefaultsStay(s: Spec)
    ensures var d := ImageDefaults(s);
            ImageDefaults(d) == d && ImageDefaults(Json(d)) == Json(d)
    ensures ImageDefaults(ContainerDefaults(s)) == ContainerDefaults(ImageDefaults(s))
  {
  }

  lemma ContainerDefaultsTwice(s: Spec)
    ensures ContainerDefaults(ContainerDefaults(s)) == ContainerDefaults(s)
    ensures ImageDefaults(Json(s)) == Json(ImageDefaults(s))
  {
  }

  lemma ContainerDefaultsStay(s: Spec)
    ensures ContainerDefaults(Json(ContainerDefaults(s))) == Json(ContainerDefaults(s))
    ensures Json(Json(s)) == Json(s)
  {
  }

  lemma DefaultsSurviveJson(s: Spec)
    ensures var d := PodDefaults(s);
            PodDefaults(d) == d && PodDefaults(Json(d)) == Json(d) && Json(Json(d)) == Json(d)
  {
    hide ImageDefaults, ContainerDefaults, Json;
    var i := ImageDefaults(s);
    ImageDefaultsStay(s);
    ImageDefaultsStay(i);
    ContainerDefaultsTwice(i);
    ContainerDefaultsTwice(ContainerDefaults(i));
    ContainerDefaultsStay(i);
    ContainerDefaultsStay(ContainerDefaults(i));
  }

  /** Pod-spec defaulting is idempotent through the saved annotation: whatever spec the
      controller reads, the DaemonSet it writes has the template of its own annotation. */
  lemma DesiredIsOperatorWritten(s: Spec)
    ensures OperatorWritten(Desired(PodDefaults(s)))
    ensures var saved := Desired(PodDefaults(s)).annotation;
            Desired(PodDefaults(saved)) == Desired(PodDefaults(s))
  {
    BuildOfJson(PodDefaults(s));
    DefaultsSurviveJson(s);
  }

  // ---------- Change detection ----------

  /** The six fields of the spec as the existing template shows them. */
  function ShownBy(p: PodSpec, s: Spec): Spec {
    s.(image := if |p.containers| >= 1 then p.containers[0].image else "",
       env := if |p.containers| >= 1 then p.containers[0].env else Nil,
       nodeSelector := p.nodeSelector,
       tolerations := p.tolerations,
       args := if |p.containers| >= 1 then p.containers[0].args else Nil,
       resources := if |p.containers| >= 1 then p.containers[0].resources else NO_RESOURCES)
  }

  /** `hasDSpecChanged` on values. */
  predicate Changed(existing: PodSpec, desired: PodSpec, s: Spec) {
    || |existing.containers| != |desired.containers|
    || (|existing.containers| == 2 && existing.containers[1].ports != [] && desired.containers[1].ports != []
        && existing.containers[1].ports[0] != desired.containers[1].ports[0])
    || ShownBy(existing, s) != s
  }

  /** Building replaces tolerations (EnableMasters) or arguments (Pks with docker visibility) of the
      spec by other ones. */
  predicate Overruled(s: Spec) {
    || (s.enableMasters && s.tolerations != List([MASTER_TOLERATION]))
    || (DockerMounted(s) && s.pks && s.args != List(PKS_ARGS))
  }

  /** A template just built for a spec is seen as unchanged exactly when building did not
      replace the spec's own tolerations or arguments. */
  lemma FreshTemplateUnchanged(s: Spec)
    ensures Changed(Build(s), Build(s), s) <==> Overruled(s)
  {
    assert Build(s).containers[0] == AgentContainer(s);
    if s.netVizPort > 0 {
      assert Build(s).containers[1] == NetVizContainer(s);
    }
  }

  /** The same for the template as the API server gives it back: a present-but-empty list or map
      of the spec is then a difference too. */
  lemma StoredTemplateUnchanged(s: Spec)
    ensures Changed(Desired(s).template, Build(s), ConfigDefaults(s)) <==> Overruled(s) || Json(s) != s
  {
    hide AgentMounts, Volumes;
    assert Build(s).containers[0] == AgentContainer(s);
    assert Desired(s).template.containers[0] == JsonContainer(AgentContainer(s));
    if s.netVizPort > 0 {
      assert Build(s).containers[1] == NetVizContainer(s);
      assert Desired(s).template.containers[1] == JsonContainer(NetVizContainer(s));
    }
  }
}

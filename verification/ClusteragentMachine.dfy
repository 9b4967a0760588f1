/** One Clusteragent reconciler as a machine that makes one API call at a time. Each call may
    fail, and between two calls the user may edit the resource, delete the Deployment or
    create a secret. */
module ClusteragentMachine {
  import opened Text
  import opened ControllerUrl
  import opened ClusteragentSpec

  const PROXY_SECRET := "cluster-agent-proxy-secret"

  /** The Deployment as far as the controller sets or reads it; `annotation` is the spec saved
      under "cluster-agent-spec". */
  datatype Deployment = Deployment(
    image: string,
    annotation: Spec,
    secretName: string,
    serviceAccountName: string,
    proxyPassword: bool,
    template: string)

  datatype Store = Store(
    spec: Spec,
    deployment: Option<Deployment>,
    secrets: set<string>,
    agent: Option<AgentConfig>,
    mon: Option<MonConfig>,
    log: Option<LogConfig>)

  /** How a Reconcile ended: no requeue, requeue after a minute, or an error. */
  datatype Outcome = Done | Requeued | Failed

  /** The API call to come. `found` is what the Get before a Put has answered. */
  datatype Pc =
    | Idle
    | DeploymentGet
    | CleanGet
    | CleanDelete
    | SecretGet
    | SecretCreate
    | SecretReload
    | MonGet
    | MonPut(found: bool)
    | AgentGet
    | AgentPut(found: bool)
    | LogGet
    | LogPut(found: bool)
    | ProxyGet
    | DeploymentCreate
    | DeploymentUpdate(restart: bool)
    | PodList
    | PodDelete
    | SpecUpdate
    | StatusUpdate

  /** `spec` and `draft` are the reconciler's own copies of the resource and the Deployment;
      `restarts` counts pods it deleted, `edits` counts user edits of the URL or account, and
      `passes` the Reconciles that have begun. */
  datatype Machine = Machine(
    store: Store,
    pc: Pc,
    spec: Spec,
    draft: Deployment,
    creating: bool,
    outcome: Outcome,
    restarts: nat,
    edits: nat,
    passes: nat)

  datatype Event =
    | Call(ok: bool)
    | Edit(newSpec: Spec)
    | DeploymentDeleted
    | SecretAdded(name: string)

  // ---------- One call ----------

  function NewDeployment(s: Spec, proxyPassword: bool): Deployment {
    Deployment(s.image, Json(s), SecretName(s), s.serviceAccountName, proxyPassword, s.template)
  }

  function Finish(m: Machine, outcome: Outcome): Machine {
    m.(pc := Idle, outcome := outcome)
  }

  function EnterConfig(m: Machine): Machine {
    m.(spec := Defaults(m.spec), pc := MonGet)
  }

  /** Compares the read Deployment with the read spec: an image change wins over a restart and
      leaves the annotation alone. */
  function Decide(m: Machine): Machine {
    if m.spec.image != "" && m.draft.image != m.spec.image then
      m.(draft := m.draft.(image := m.spec.image), pc := DeploymentUpdate(false))
    else if Key(m.draft.annotation) != Key(m.spec) then
      m.(draft := m.draft.(annotation := Json(m.spec)), pc := DeploymentUpdate(true))
    else
      m.(pc := SpecUpdate)
  }

  function BuildDeployment(m: Machine): Machine {
    var s := DeploymentDefaults(m.spec);
    if s.proxyUser != "" then m.(spec := s, pc := ProxyGet)
    else m.(spec := s, draft := NewDeployment(s, false), pc := DeploymentCreate)
  }

  function PrepareCall(m: Machine, ok: bool): Machine
    requires m.pc in {Idle, DeploymentGet, CleanGet, CleanDelete, SecretGet, SecretCreate, SecretReload}
  {
    match m.pc
    case Idle =>
      var begun := m.(passes := m.passes + 1);
      if ok then begun.(spec := m.store.spec, pc := DeploymentGet) else Finish(begun, Failed)
    case DeploymentGet =>
      if !ok then Finish(m, Failed)
      else if m.store.deployment.Some? then
        m.(creating := false, draft := m.store.deployment.value, pc := SecretGet)
      else m.(creating := true, pc := CleanGet)
    case CleanGet =>
      m.(pc := if ok && m.store.agent.Some? then CleanDelete else SecretGet)
    case CleanDelete =>
      m.(store := if ok then m.store.(agent := None) else m.store, pc := SecretGet)
    case SecretGet =>
      if !ok then Finish(m, Failed)
      else if SecretName(m.spec) in m.store.secrets then EnterConfig(m)
      else m.(pc := SecretCreate)
    case SecretCreate =>
      if ok && SecretName(m.spec) !in m.store.secrets then
        m.(store := m.store.(secrets := m.store.secrets + {SecretName(m.spec)}), pc := SecretReload)
      else Finish(m, Failed)
    case SecretReload =>
      if ok then EnterConfig(m) else Finish(m, Failed)
  }

  function ConfigCall(m: Machine, ok: bool): Machine
    requires m.pc.MonGet? || m.pc.MonPut? || m.pc.AgentGet? || m.pc.AgentPut? || m.pc.LogGet? || m.pc.LogPut?
  {
    match m.pc
    case MonGet =>
      if ok then m.(pc := MonPut(m.store.mon.Some?)) else Finish(m, Failed)
    case MonPut(found) =>
      if ok && found == m.store.mon.Some? then
        m.(store := m.store.(mon := Some(RenderMon(m.spec))), pc := AgentGet)
      else Finish(m, Failed)
    case AgentGet =>
      if ok && ValidUrl(m.spec) then m.(pc := AgentPut(m.store.agent.Some?)) else Finish(m, Failed)
    case AgentPut(found) =>
      if ok && found == m.store.agent.Some? && ValidUrl(m.spec) then
        m.(store := m.store.(agent := Some(RenderAgent(m.spec, ParseUrl(m.spec.controllerUrl).endpoint))),
           pc := LogGet)
      else Finish(m, Failed)
    case LogGet =>
      if ok then m.(pc := LogPut(m.store.log.Some?)) else Finish(m, Failed)
    case LogPut(found) =>
      if ok && found == m.store.log.Some? then
        var written := m.(store := m.store.(log := Some(RenderLog(m.spec))));
        if m.creating then BuildDeployment(written) else Decide(written)
      else Finish(m, Failed)
  }

  function CommitCall(m: Machine, ok: bool): Machine
    requires m.pc.ProxyGet? || m.pc.DeploymentCreate? || m.pc.DeploymentUpdate? || m.pc.PodList?
             || m.pc.PodDelete? || m.pc.SpecUpdate? || m.pc.StatusUpdate?
  {
    match m.pc
    case ProxyGet =>
      m.(draft := NewDeployment(m.spec, ok && PROXY_SECRET in m.store.secrets), pc := DeploymentCreate)
    case DeploymentCreate =>
      if ok && m.store.deployment.None? then
        m.(store := m.store.(deployment := Some(m.draft)), pc := SpecUpdate)
      else Finish(m, Failed)
    case DeploymentUpdate(restart) =>
      if !(ok && m.store.deployment.Some?) then Finish(m, Failed)
      else
        var written := m.(store := m.store.(deployment := Some(m.draft)));
        if restart then written.(pc := PodList) else Finish(written, Requeued)
    case PodList =>
      if ok then m.(pc := PodDelete) else Finish(m, Failed)
    case PodDelete =>
      if ok then Finish(m.(restarts := m.restarts + 1), Requeued) else Finish(m, Failed)
    case SpecUpdate =>
      if ok then m.(store := m.store.(spec := Json(m.spec)), pc := StatusUpdate) else Finish(m, Done)
    case StatusUpdate =>
      Finish(m, Done)
  }

  predicate Preparing(pc: Pc) {
    pc in {Idle, DeploymentGet, CleanGet, CleanDelete, SecretGet, SecretCreate, SecretReload}
  }

  predicate Configuring(pc: Pc) {
    pc.MonGet? || pc.MonPut? || pc.AgentGet? || pc.AgentPut? || pc.LogGet? || pc.LogPut?
  }

  /** The reconciler makes its next API call, which succeeds only if `ok`. */
  function CallStep(m: Machine, ok: bool): Machine {
    if Preparing(m.pc) then PrepareCall(m, ok)
    else if Configuring(m.pc) then ConfigCall(m, ok)
    else CommitCall(m, ok)
  }

  function Step(m: Machine, e: Event): Machine {
    match e
    case Call(ok) => CallStep(m, ok)
    case Edit(newSpec) =>
      m.(store := m.store.(spec := newSpec),
         edits := m.edits + if Key(newSpec) != Key(m.store.spec) then 1 else 0)
    case DeploymentDeleted => m.(store := m.store.(deployment := None))
    case SecretAdded(name) => m.(store := m.store.(secrets := m.store.secrets + {name}))
  }

  function Run(m: Machine, events: seq<Event>): Machine {
    if events == [] then m else Step(Run(m, events[..|events| - 1]), events[|events| - 1])
  }

  lemma {:induction false} RunConcat(m: Machine, a: seq<Event>, b: seq<Event>)
    ensures Run(m, a + b) == Run(Run(m, a), b)
  {
    hide Step;
    if b == [] {
      assert a + b == a;
    } else {
      var all := a + b;
      assert all[..|all| - 1] == a + b[..|b| - 1];
      RunConcat(m, a, b[..|b| - 1]);
    }
  }

  /** The operator's first look at a resource: idle, no Deployment, nothing counted. */
  predicate Initial(m: Machine) {
    m.pc.Idle? && m.store.deployment.None? && m.restarts == 0 && m.edits == 0
  }

  // ---------- What every step keeps ----------

  function One(b: bool): nat {
    if b then 1 else 0
  }

  function Gap(a: Spec, b: Spec): nat {
    One(Key(a) != Key(b))
  }

  /** Restarts done, restarts under way, and the restarts that the differences between the saved,
      the read and the stored spec may still cause. */
  function Owed(m: Machine): nat {
    var pending := One(m.pc.PodList? || m.pc.PodDelete?);
    var annotated := m.store.deployment;
    if m.pc.Idle? then
      m.restarts + if annotated.Some? then Gap(annotated.value.annotation, m.store.spec) else 0
    else
      m.restarts + pending + Gap(m.spec, m.store.spec)
      + if annotated.Some? then Gap(annotated.value.annotation, m.spec) else 0
  }

  /** What an existing Deployment relies on. */
  predicate Supported(s: Store) {
    s.deployment.Some? ==>
      && s.deployment.value.secretName in s.secrets
      && s.agent.Some? && s.mon.Some? && s.log.Some?
      && ValidUrl(s.deployment.value.annotation)
  }

  predicate SecretReady(pc: Pc) {
    pc.SecretReload? || Configuring(pc) || pc.ProxyGet? || pc.DeploymentCreate?
  }

  predicate MonReady(pc: Pc) {
    SecretReady(pc) && !pc.SecretReload? && !pc.MonGet? && !pc.MonPut?
  }

  predicate UrlReady(pc: Pc) {
    !Preparing(pc) && !pc.MonGet? && !pc.MonPut? && !pc.AgentGet?
  }

  predicate AgentReady(pc: Pc) {
    MonReady(pc) && !pc.AgentGet? && !pc.AgentPut?
  }

  predicate LogReady(pc: Pc) {
    pc.ProxyGet? || pc.DeploymentCreate?
  }

  /** What the reconciler has established when it is about to make the call at `pc`. */
  predicate Progress(m: Machine) {
    && (SecretReady(m.pc) ==> SecretName(m.spec) in m.store.secrets)
    && (MonReady(m.pc) ==> m.store.mon.Some?)
    && (UrlReady(m.pc) ==> ValidUrl(m.spec))
    && (AgentReady(m.pc) ==> m.store.agent.Some?)
    && (LogReady(m.pc) ==> m.store.log.Some? && m.creating)
    && (m.pc.CleanGet? || m.pc.CleanDelete? ==> m.creating)
    && (m.pc.DeploymentCreate? ==> m.draft.secretName == SecretName(m.spec) && m.draft.annotation == Json(m.spec))
  }

  /** The Deployment in the store is still the one read, or there is none. */
  predicate InStep(m: Machine) {
    var stored := m.store.deployment;
    match m.pc
    case Idle | DeploymentGet | SpecUpdate | StatusUpdate => true
    case PodList | PodDelete => stored.Some? ==> Key(stored.value.annotation) == Key(m.spec)
    case CleanGet | CleanDelete | ProxyGet | DeploymentCreate => stored.None?
    case DeploymentUpdate(restart) =>
      stored.Some? ==>
        if restart then
          Key(stored.value.annotation) != Key(m.spec) && m.draft == stored.value.(annotation := Json(m.spec))
        else
          m.draft == stored.value.(image := m.spec.image)
    case _ =>
      if m.creating then stored.None? else (stored.Some? ==> stored.value == m.draft)
  }

  predicate Inv(m: Machine) {
    Supported(m.store) && Progress(m) && InStep(m) && Owed(m) <= m.edits
  }

  lemma KeyOfJson(s: Spec)
    ensures Key(Json(s)) == Key(s)
    ensures Key(Defaults(s)) == Key(s) && SecretName(Defaults(s)) == SecretName(s)
  {
  }

  lemma PrepareKeepsInv(m: Machine, ok: bool)
    requires Inv(m) && Preparing(m.pc)
    ensures Inv(PrepareCall(m, ok))
  {
    hide ParseUrl, Defaults, Json, Key;
    KeyOfJson(m.spec);
    match m.pc
    case Idle =>
    case DeploymentGet =>
    case CleanGet =>
    case CleanDelete =>
    case SecretGet =>
    case SecretCreate =>
    case SecretReload =>
  }

  lemma ConfigKeepsInv(m: Machine, ok: bool)
    requires Inv(m) && Configuring(m.pc)
    ensures Inv(ConfigCall(m, ok))
  {
    hide ParseUrl, RenderMon, RenderLog, RenderAgent, BuildDeployment, Decide;
    match m.pc
    case MonGet =>
    case MonPut(found) =>
    case AgentGet =>
    case AgentPut(found) =>
    case LogGet =>
    case LogPut(found) =>
      if ok && found == m.store.log.Some? {
        LogPutKeepsInv(m, RenderLog(m.spec));
      }
  }

  lemma LogPutKeepsInv(m: Machine, log: LogConfig)
    requires Inv(m) && m.pc.LogPut?
    ensures var written := m.(store := m.store.(log := Some(log)));
            Inv(if m.creating then BuildDeployment(written) else Decide(written))
  {
    hide ParseUrl, Json;
    KeyOfJson(m.spec);
  }

  lemma CommitKeepsInv(m: Machine, ok: bool)
    requires Inv(m) && !Preparing(m.pc) && !Configuring(m.pc)
    ensures Inv(CommitCall(m, ok))
  {
    hide ParseUrl, Json;
    KeyOfJson(m.spec);
    match m.pc
    case ProxyGet =>
    case DeploymentCreate =>
    case DeploymentUpdate(restart) =>
    case PodList =>
    case PodDelete =>
    case SpecUpdate =>
    case StatusUpdate =>
  }

  lemma StepKeepsInv(m: Machine, e: Event)
    requires Inv(m)
    ensures Inv(Step(m, e))
  {
    hide ParseUrl, PrepareCall, ConfigCall, CommitCall;
    if e.Call? {
      if Preparing(m.pc) {
        PrepareKeepsInv(m, e.ok);
      } else if Configuring(m.pc) {
        ConfigKeepsInv(m, e.ok);
      } else {
        CommitKeepsInv(m, e.ok);
      }
    }
  }
}

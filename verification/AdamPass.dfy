/** One Reconcile of the Adam agent as a function of the stored objects and of the API calls
    that fail, and what it promises over any number of passes. */
module AdamPass {
  import opened Text
  import opened GoTypes
  import opened AdamBag

  datatype Call =
    | GetAgent | GetDeployment | CleanUpGet | CleanUpDelete | GetSecret | CreateSecret | ReloadSecret
    | GetConfig | CreateConfig | UpdateConfig | GetService | CreateService | CreateDeployment
    | ListPods | DeletePod | UpdateDeployment | UpdateAgent

  /** What a pass finds around it: the calls that fail, and the version given to a new secret. */
  datatype Env = Env(namespace: string, newVersion: string, faults: set<Call>)

  datatype Deployment = Deployment(image: string, port: int, certificate: string, sslConfigMap: string)

  datatype Store = Store(
    spec: Spec,
    deployment: Option<Deployment>,
    secret: Option<string>,
    config: Option<Bag>,
    service: Option<int>)

  datatype Outcome = Outcome(store: Store, failed: bool, restarted: bool, requeue: bool)

  // ---------- JSON ----------

  function JsonRule(r: Rule): Rule {
    r.(namespaces := JsonList(r.namespaces), matchString := JsonList(r.matchString))
  }

  function JsonRules(l: GoList<Rule>): GoList<Rule> {
    match l
    case Nil => Nil
    case List(items) => List(seq(|items|, i requires 0 <= i < |items| => JsonRule(items[i])))
  }

  /** A stored spec loses its empty lists, also inside its rules. */
  function JsonSpec(s: Spec): Spec {
    s.(flagged := s.flagged.(matchString := JsonList(s.flagged.matchString),
                             nsToInstrument := JsonList(s.flagged.nsToInstrument),
                             nsToInstrumentExclude := JsonList(s.flagged.nsToInstrumentExclude),
                             rules := JsonList(JsonRules(s.flagged.rules))),
       nsToMonitor := JsonList(s.nsToMonitor))
  }

  /** A stored bag keeps its own empty lists and loses those inside its rules. */
  function JsonBag(b: Bag): Bag {
    b.(flagged := b.flagged.(rules := JsonRules(b.flagged.rules)))
  }

  lemma JsonRulesTwice(l: GoList<Rule>)
    ensures JsonRules(JsonRules(l)) == JsonRules(l)
    ensures JsonList(JsonRules(JsonList(JsonRules(l)))) == JsonList(JsonRules(l))
    ensures l.List? ==> (l.items == [] <==> JsonRules(l).items == [])
  {
    if l.List? {
      assert JsonRules(JsonRules(l)).items == JsonRules(l).items;
    }
  }

  /** The bag in the ConfigMap: the defaults with the spec merged in, as JSON gives it back. */
  function Written(s: Spec, namespace: string, version: string): Bag {
    JsonBag(Merge(DefaultBag(), s, namespace, version))
  }

  // ---------- The pass ----------

  function CleanUp(t: Store, e: Env): Store {
    if CleanUpGet in e.faults || CleanUpDelete in e.faults then t else t.(config := None)
  }

  function EnsureSecret(t: Store, e: Env): (Store, Option<string>) {
    if GetSecret in e.faults then (t, None)
    else if t.secret.Some? then (t, t.secret)
    else if CreateSecret in e.faults then (t, None)
    else (t.(secret := Some(e.newVersion)), if ReloadSecret in e.faults then None else Some(e.newVersion))
  }

  /** The stored bag as it is compared, with the version of the secret already put into it. */
  function EnsureConfig(t: Store, version: string, e: Env): (Store, Option<Bag>) {
    if GetConfig in e.faults then (t, None)
    else if t.config.Some? then (t, Some(t.config.value.(secretVersion := version)))
    else if CreateConfig in e.faults then (t, None)
    else
      var bag := Written(t.spec, e.namespace, version).(instrumentationUpdated := false);
      (t.(config := Some(bag)), Some(bag))
  }

  function EnsureService(t: Store, bag: Bag, e: Env): (Store, bool) {
    if GetService in e.faults then (t, false)
    else if t.service.Some? then (t, true)
    else if CreateService in e.faults then (t, false)
    else (t.(service := Some(bag.agentServerPort)), true)
  }

  /** The defaults that only building a Deployment fills in: the image, and for a certificate the
      ConfigMap that holds it. */
  function DeploymentDefaults(s: Spec): Spec {
    s.(image := if s.image == "" then "appdynamics/cluster-agent:latest" else s.image,
       customSSLConfigMap :=
         if s.connection.agentSSLCert != "" && s.customSSLConfigMap == "" then "cluster-agent-ssl-config"
         else s.customSSLConfigMap)
  }

  function NewDeployment(s: Spec, bag: Bag): Deployment {
    var d := DeploymentDefaults(s);
    var certificate := s.connection.agentSSLCert;
    Deployment(d.image, bag.agentServerPort, certificate, if certificate != "" then d.customSSLConfigMap else "")
  }

  function UpdateSpec(t: Store, s: Spec, e: Env): Store {
    if UpdateAgent in e.faults then t else t.(spec := JsonSpec(s))
  }

  function Failed(t: Store): Outcome {
    Outcome(t, true, false, false)
  }

  function CreatePass(t: Store, e: Env): Outcome {
    var (u, secret) := EnsureSecret(CleanUp(t, e), e);
    if secret.None? then Failed(u)
    else
      var (v, bag) := EnsureConfig(u, secret.value, e);
      if bag.None? then Failed(v)
      else
        var (w, served) := EnsureService(v, bag.value, e);
        if !served || CreateDeployment in e.faults then Failed(w)
        else
          var deployed := w.(deployment := Some(NewDeployment(t.spec, bag.value)));
          Outcome(UpdateSpec(deployed, DeploymentDefaults(t.spec), e), false, false, false)
  }

  /** A given field that differs from the bag; the URL counts even when it is empty. */
  predicate Breaks(s: Connection, b: Connection) {
    || s.controllerUrl != b.controllerUrl
    || (s.account != "" && s.account != b.account)
    || (s.globalAccount != "" && s.globalAccount != b.globalAccount)
    || (s.appName != "" && s.appName != b.appName)
    || (s.eventServiceUrl != "" && s.eventServiceUrl != b.eventServiceUrl)
    || (s.systemSSLCert != "" && s.systemSSLCert != b.systemSSLCert)
    || (s.agentSSLCert != "" && s.agentSSLCert != b.agentSSLCert)
  }

  predicate ImageDiffers(s: Spec, d: Deployment) {
    s.image != "" && d.image != s.image
  }

  function UpdatePass(t: Store, e: Env): Outcome
    requires t.deployment.Some?
  {
    var (u, secret) := EnsureSecret(t, e);
    if secret.None? then Failed(u)
    else
      var (v, bag) := EnsureConfig(u, secret.value, e);
      if bag.None? || UpdateConfig in e.faults then Failed(v)
      else
        var w := v.(config := Some(Written(t.spec, e.namespace, secret.value)));
        if ImageDiffers(t.spec, t.deployment.value) then
          if UpdateDeployment in e.faults then Failed(w)
          else Outcome(w.(deployment := Some(t.deployment.value.(image := t.spec.image))), false, false, true)
        else if bag.value.secretVersion != secret.value || Breaks(t.spec.connection, bag.value.connection) then
          if ListPods in e.faults || DeletePod in e.faults then Failed(w) else Outcome(w, false, true, true)
        else Outcome(UpdateSpec(w, t.spec, e), false, false, false)
  }

  function Pass(t: Store, e: Env): Outcome {
    if GetAgent in e.faults || GetDeployment in e.faults then Failed(t)
    else if t.deployment.None? then CreatePass(t, e)
    else UpdatePass(t, e)
  }

  // ---------- Merge and compare agree ----------

  /** The comparison finds a breaking change exactly when merging the spec into the compared bag
      would change its connection. */
  lemma BreaksIffMergeChanges(s: Connection, b: Connection)
    ensures Breaks(s, b) <==> MergeConnection(b, s) != b
  {
  }

  /** A breaking change that the next pass will find. */
  predicate Pending(t: Store) {
    t.config.Some? && Breaks(t.spec.connection, t.config.value.connection)
  }

  lemma MergedDoesNotBreak(s: Spec, namespace: string, version: string)
    ensures !Breaks(s.connection, Written(s, namespace, version).connection)
    ensures Written(s, namespace, version).secretVersion == version
  {
  }

  /** A field given before, other than by its default, and not any more. */
  predicate Withdrawn(s: string, stored: string, default: string) {
    s == "" && stored != default
  }

  predicate SomethingWithdrawn(s: Connection, b: Connection) {
    var d := DefaultBag().connection;
    || Withdrawn(s.account, b.account, d.account)
    || Withdrawn(s.globalAccount, b.globalAccount, d.globalAccount)
    || Withdrawn(s.appName, b.appName, d.appName)
    || Withdrawn(s.eventServiceUrl, b.eventServiceUrl, d.eventServiceUrl)
    || Withdrawn(s.systemSSLCert, b.systemSSLCert, d.systemSSLCert)
    || Withdrawn(s.agentSSLCert, b.agentSSLCert, d.agentSSLCert)
  }

  /** An undisturbed pass over an existing Deployment writes the merge of defaults, spec and
      secret version. It restarts the agent or replaces its image exactly when the image or a
      given breaking field differs. A pass that does neither still changes the connection behind
      the running agent's back, exactly when a field was withdrawn from the spec: the write goes
      back to the default while the comparison ignores the empty field. */
  lemma ExistingPass(t: Store, e: Env)
    requires t.deployment.Some? && e.faults == {}
    ensures var r := Pass(t, e);
            && !r.failed && r.store.secret.Some?
            && r.store.config == Some(Written(t.spec, e.namespace, r.store.secret.value))
            && (r.requeue <==> ImageDiffers(t.spec, t.deployment.value) || Pending(t))
            && (r.restarted <==> r.requeue && !ImageDiffers(t.spec, t.deployment.value))
            && (r.requeue && !r.restarted <==> r.store.deployment != t.deployment)
            && (!r.requeue && t.config.Some? ==>
                  (r.store.config.value.connection != t.config.value.connection
                   <==> SomethingWithdrawn(t.spec.connection, t.config.value.connection)))
  {
    hide Written, Breaks;
    var version := if t.secret.Some? then t.secret.value else e.newVersion;
    MergedDoesNotBreak(t.spec, e.namespace, version);
    if t.config.Some? {
      WithdrawnIsSilent(t.spec, t.config.value.connection, e.namespace, version);
    }
  }

  lemma WithdrawnIsSilent(s: Spec, b: Connection, namespace: string, version: string)
    ensures !Breaks(s.connection, b) ==>
              (Written(s, namespace, version).connection != b <==> SomethingWithdrawn(s.connection, b))
  {
  }

  /** The secret is compared with a version that was overwritten just before, so neither a new
      secret nor any stored version ever restarts the agent or changes what else a pass does. */
  lemma SecretNeverRestarts(t: Store, e: Env, rotated: string, stored: string)
    requires t.deployment.Some? && t.config.Some? && t.secret.Some?
    ensures var changed := t.(secret := Some(rotated), config := Some(t.config.value.(secretVersion := stored)));
            && Pass(changed, e).restarted == Pass(t, e).restarted
            && Pass(changed, e).requeue == Pass(t, e).requeue
            && Pass(changed, e).store.deployment == Pass(t, e).store.deployment
            && Pass(changed, e).store.spec == Pass(t, e).store.spec
  {
    hide Written, Breaks;
  }

  // ---------- Convergence ----------

  /** Everything follows the stored spec. */
  predicate Settled(t: Store, namespace: string) {
    && t.spec == JsonSpec(t.spec)
    && t.secret.Some?
    && t.deployment.Some? && !ImageDiffers(t.spec, t.deployment.value)
    && t.config == Some(Written(t.spec, namespace, t.secret.value))
  }

  /** A pass without failures changes nothing and restarts nothing exactly in settled states. */
  lemma StableIffSettled(t: Store, e: Env)
    requires e.faults == {}
    ensures Pass(t, e) == Outcome(t, false, false, false) <==> Settled(t, e.namespace)
  {
    hide Written, Breaks;
    if t.secret.Some? {
      MergedDoesNotBreak(t.spec, e.namespace, t.secret.value);
    }
  }

  /** The bag a store holds, up to the flag. */
  predicate SameButFlag(a: Store, b: Store) {
    && a.config.Some? && b.config.Some?
    && a == b.(config := Some(b.config.value.(instrumentationUpdated := a.config.value.instrumentationUpdated)))
  }

  lemma JsonKeepsMerge(s: Spec, namespace: string, version: string)
    ensures var before := Written(s, namespace, version);
            var after := Written(JsonSpec(s), namespace, version);
            before == after.(instrumentationUpdated := before.instrumentationUpdated)
    ensures JsonSpec(JsonSpec(s)) == JsonSpec(s)
  {
    JsonRulesTwice(s.flagged.rules);
    var merged := Merge(DefaultBag(), s, namespace, version);
    var again := Merge(DefaultBag(), JsonSpec(s), namespace, version);
    assert JsonRules(again.flagged.rules) == JsonRules(merged.flagged.rules);
  }

  /** What every undisturbed pass brings about. */
  predicate Following(t: Store, namespace: string) {
    && t.deployment.Some? && t.secret.Some? && t.config.Some?
    && !ImageDiffers(t.spec, t.deployment.value)
    && !Breaks(t.spec.connection, t.config.value.connection)
    && t.config.value == Written(t.spec, namespace, t.secret.value).(
                           instrumentationUpdated := t.config.value.instrumentationUpdated)
  }

  lemma AfterCreatePass(t: Store, e: Env)
    requires e.faults == {} && t.deployment.None?
    ensures var r := Pass(t, e);
            !r.failed && !r.restarted && !r.requeue && Following(r.store, e.namespace)
            && r.store.spec == JsonSpec(r.store.spec)
  {
    hide Written, Breaks;
    var s := DeploymentDefaults(t.spec);
    var version := if t.secret.Some? then t.secret.value else e.newVersion;
    JsonKeepsMerge(s, e.namespace, version);
    DefaultsKeepMerge(t.spec, e.namespace, version);
    MergedDoesNotBreak(JsonSpec(s), e.namespace, version);
  }

  lemma AfterUpdatePass(t: Store, e: Env)
    requires e.faults == {} && t.deployment.Some?
    ensures var r := Pass(t, e);
            !r.failed && Following(r.store, e.namespace)
            && (!r.requeue ==> r.store.spec == JsonSpec(r.store.spec))
  {
    hide Written, Breaks;
    var version := if t.secret.Some? then t.secret.value else e.newVersion;
    JsonKeepsMerge(t.spec, e.namespace, version);
    MergedDoesNotBreak(t.spec, e.namespace, version);
    MergedDoesNotBreak(JsonSpec(t.spec), e.namespace, version);
  }

  lemma DefaultsKeepMerge(s: Spec, namespace: string, version: string)
    ensures Written(DeploymentDefaults(s), namespace, version) == Written(s, namespace, version)
  {
  }

  lemma SecondPass(t: Store, e: Env)
    requires e.faults == {} && Following(t, e.namespace)
    ensures var r := Pass(t, e);
            && !r.failed && !r.restarted && !r.requeue
            && r.store == t.(spec := JsonSpec(t.spec),
                             config := Some(Written(t.spec, e.namespace, t.secret.value)))
  {
    hide Written, Breaks;
  }

  /** From any state at all: only the first pass can restart the agent, from the second on nothing
      changes but the flag, and after three passes nothing changes at all. Two are enough unless
      the first one restarted the agent or updated its image. */
  lemma ThreePassesSettle(t: Store, e: Env)
    requires e.faults == {}
    ensures var one := Pass(t, e);
            var two := Pass(one.store, e);
            var three := Pass(two.store, e);
            && !one.failed && !two.failed && !three.failed
            && !two.requeue && !two.restarted && !three.requeue && !three.restarted
            && SameButFlag(two.store, three.store)
            && Settled(three.store, e.namespace)
            && (!one.requeue ==> Settled(two.store, e.namespace))
  {
    hide Written, Breaks, Pass;
    var one := Pass(t, e).store;
    if t.deployment.Some? {
      AfterUpdatePass(t, e);
    } else {
      AfterCreatePass(t, e);
    }
    SecondPass(one, e);
    var two := Pass(one, e).store;
    JsonKeepsMerge(one.spec, e.namespace, one.secret.value);
    MergedDoesNotBreak(one.spec, e.namespace, one.secret.value);
    SecondPass(two, e);
  }

  /** In a settled state the bag always says that the instrumentation was updated: a stored list
      is never the empty one of the defaults. */
  lemma FlagIsAlwaysSet(t: Store, namespace: string)
    requires Settled(t, namespace)
    ensures t.config.value.instrumentationUpdated
  {
    assert JsonList(t.spec.flagged.matchString) != List([]);
    assert DefaultBag().flagged.matchString == List([]);
  }

  // ---------- Passes with failing calls ----------

  /** An existing Deployment has its secret, its config and its service. */
  predicate Supported(t: Store) {
    t.deployment.Some? ==> t.secret.Some? && t.config.Some? && t.service.Some?
  }

  lemma PassKeepsSupported(t: Store, e: Env)
    requires Supported(t)
    ensures Supported(Pass(t, e).store)
  {
    hide Written, Breaks;
  }

  lemma CreatePassConfig(t: Store, e: Env)
    requires t.deployment.None?
    ensures var r := CreatePass(t, e);
            !r.restarted && r.store.spec.connection == t.spec.connection
            && (Pending(r.store) ==> r.store.config == t.config)
  {
    hide Written, Breaks;
    MergedDoesNotBreak(t.spec, e.namespace, if t.secret.Some? then t.secret.value else e.newVersion);
  }

  lemma UpdatePassConfig(t: Store, e: Env)
    requires t.deployment.Some?
    ensures var r := UpdatePass(t, e);
            && r.store.spec.connection == t.spec.connection
            && (Pending(r.store) ==> r.store.config == t.config)
            && (r.restarted ==> Pending(t) && !Pending(r.store))
  {
    hide Written, Breaks;
    MergedDoesNotBreak(t.spec, e.namespace, if t.secret.Some? then t.secret.value else e.newVersion);
  }

  /** A pass restarts the agent only over a pending change and leaves none behind; no pass makes
      a change pending. */
  lemma RestartsTakePending(t: Store, e: Env)
    ensures var r := Pass(t, e);
            && (r.restarted ==> Pending(t) && !Pending(r.store))
            && (Pending(r.store) ==> Pending(t))
  {
    hide CreatePass, UpdatePass, Breaks;
    if GetAgent !in e.faults && GetDeployment !in e.faults {
      if t.deployment.Some? {
        UpdatePassConfig(t, e);
        assert Pass(t, e) == UpdatePass(t, e);
      } else {
        CreatePassConfig(t, e);
        assert Pass(t, e) == CreatePass(t, e);
      }
    }
  }

  /** A breaking change whose restart failed is picked up by the next pass exactly when the
      failing pass had not yet written the config: once it is written, the comparison finds
      nothing and the agent keeps running with its old connection. */
  lemma FailedRestartIsForgotten(t: Store, e: Env, next: Env)
    requires t.deployment.Some? && Pending(t) && !ImageDiffers(t.spec, t.deployment.value)
    requires next.faults == {}
    requires !Pass(t, e).restarted
    ensures var left := Pass(t, e).store;
            && Pass(t, e).failed
            && (Pass(left, next).restarted <==> left.config == t.config)
            && (left.config != t.config <==>
                  e.faults * {GetAgent, GetDeployment, GetSecret, GetConfig, UpdateConfig} == {}
                  && (t.secret.Some? || e.faults * {CreateSecret, ReloadSecret} == {}))
  {
    hide Written, Breaks;
    var version := if t.secret.Some? then t.secret.value else e.newVersion;
    MergedDoesNotBreak(t.spec, e.namespace, version);
    assert forall c :: c in e.faults * {GetAgent, GetDeployment, GetSecret, GetConfig, UpdateConfig}
             <==> c in e.faults && c in {GetAgent, GetDeployment, GetSecret, GetConfig, UpdateConfig};
  }

  // ---------- Runs ----------

  datatype Event =
    | Edit(spec: Spec)
    | SecretChanged(version: string)
    | DeploymentDeleted
    | Reconcile(env: Env)

  function Apply(t: Store, event: Event): Store {
    match event
    case Edit(spec) => t.(spec := spec)
    case SecretChanged(version) => t.(secret := Some(version))
    case DeploymentDeleted => t.(deployment := None)
    case Reconcile(env) => Pass(t, env).store
  }

  function Run(t: Store, events: seq<Event>): Store
    decreases |events|
  {
    if events == [] then t else Run(Apply(t, events[0]), events[1..])
  }

  function Restarts(t: Store, events: seq<Event>): nat
    decreases |events|
  {
    if events == [] then 0
    else (if events[0].Reconcile? && Pass(t, events[0].env).restarted then 1 else 0)
         + Restarts(Apply(t, events[0]), events[1..])
  }

  /** The edits that change the connection. */
  function ConnectionEdits(t: Store, events: seq<Event>): nat
    decreases |events|
  {
    if events == [] then 0
    else (if events[0].Edit? && events[0].spec.connection != t.spec.connection then 1 else 0)
         + ConnectionEdits(Apply(t, events[0]), events[1..])
  }

  /** In every run, whatever calls fail, an existing Deployment has its secret, config and service. */
  lemma {:induction false} RunKeepsSupported(t: Store, events: seq<Event>)
    requires Supported(t)
    ensures Supported(Run(t, events))
    decreases |events|
  {
    hide Pass;
    if events != [] {
      if events[0].Reconcile? {
        PassKeepsSupported(t, events[0].env);
      }
      RunKeepsSupported(Apply(t, events[0]), events[1..]);
    }
  }

  /** In every run the restarts, with one that is still to come, are no more than the edits that
      change the connection, with one that was pending at the start. */
  lemma {:induction false} RestartsBoundedByEdits(t: Store, events: seq<Event>)
    ensures Restarts(t, events) + (if Pending(Run(t, events)) then 1 else 0)
            <= ConnectionEdits(t, events) + (if Pending(t) then 1 else 0)
    decreases |events|
  {
    hide Pass, Breaks;
    if events != [] {
      if events[0].Reconcile? {
        RestartsTakePending(t, events[0].env);
      }
      RestartsBoundedByEdits(Apply(t, events[0]), events[1..]);
    }
  }
}

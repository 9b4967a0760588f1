/** What a Reconcile of the Adam agent does, told by the fields that the user sets and that the agent
    and the cluster read. Defaults and comparisons are spelled out here, so that every statement
    stands on its own. */
module AdamEffects {
  import opened Text
  import opened GoTypes
  import opened AdamBag
  import opened AdamPass

  function StringOr(requested: string, default: string): string {
    if requested == "" then default else requested
  }

  // ---------- The merge ----------

  predicate HasElements<T>(l: GoList<T>) {
    l.List? && |l.items| > 0
  }

  /** A list that always follows the request; a missing one empties it. */
  predicate Follows<T(==)>(before: GoList<T>, requested: GoList<T>, after: GoList<T>) {
    match requested
    case List(_) => after == requested
    case Nil => if before.Nil? then after.Nil? else after == List([])
  }

  /** What the merge does to each field: what is always taken, what is taken when it is given, and
      what is not taken at all. */
  lemma MergedFields(b: Bag, s: Spec, namespace: string, version: string)
    ensures var m := Merge(b, s, namespace, version);
            && m.agentNamespace == namespace && m.secretVersion == version
            && m.connection.controllerUrl == s.connection.controllerUrl
            && m.connection.account == StringOr(s.connection.account, b.connection.account)
            && m.connection.globalAccount == StringOr(s.connection.globalAccount, b.connection.globalAccount)
            && m.connection.appName == StringOr(s.connection.appName, b.connection.appName)
            && m.connection.eventServiceUrl == StringOr(s.connection.eventServiceUrl, b.connection.eventServiceUrl)
            && m.connection.systemSSLCert == StringOr(s.connection.systemSSLCert, b.connection.systemSSLCert)
            && m.connection.agentSSLCert == StringOr(s.connection.agentSSLCert, b.connection.agentSSLCert)
    ensures var m := Merge(b, s, namespace, version);
            && (s.agentServerPort > 0 ==> m.agentServerPort == s.agentServerPort)
            && (s.agentServerPort <= 0 ==> m.agentServerPort == b.agentServerPort)
            && m.netVizPort == s.netVizPort
            && (HasElements(s.nsToMonitor) ==> m.nsToMonitor == s.nsToMonitor)
            && (!HasElements(s.nsToMonitor) ==> m.nsToMonitor == b.nsToMonitor)
            && m.biqRequestMem == b.biqRequestMem
            && (s.biqRequestMem == "" ==> m.biqRequestCpu == b.biqRequestCpu)
            && (s.biqRequestMem != "" ==> m.biqRequestCpu == s.biqRequestCpu)
  {
  }

  /** The same for the fields that mark the instrumentation as updated. */
  lemma MergedInstrumentation(b: Bag, s: Spec, namespace: string, version: string)
    ensures var f, r, m := b.flagged, s.flagged, Merge(b, s, namespace, version).flagged;
            && m.instrumentationMethod == r.instrumentationMethod && m.biqService == r.biqService
            && m.appNameLiteral == r.appNameLiteral && m.appDAppLabel == r.appDAppLabel
            && m.appDTierLabel == r.appDTierLabel && m.agentOpts == r.agentOpts
            && m.agentEnvVar == StringOr(r.agentEnvVar, f.agentEnvVar)
            && Follows(f.matchString, r.matchString, m.matchString)
            && Follows(f.nsToInstrument, r.nsToInstrument, m.nsToInstrument)
            && Follows(f.nsToInstrumentExclude, r.nsToInstrumentExclude, m.nsToInstrumentExclude)
            && Follows(f.rules, r.rules, m.rules)
  {
  }

  // ---------- The bag in the ConfigMap ----------

  /** A list as the API server gives it back. */
  predicate GivenBack<T(==)>(before: GoList<T>, after: GoList<T>) {
    after == (if before.List? && |before.items| == 0 then Nil else before)
  }

  predicate RuleGivenBack(before: Rule, after: Rule) {
    && after.text == before.text && GivenBack(before.namespaces, after.namespaces)
    && GivenBack(before.matchString, after.matchString)
  }

  /** Rules that keep their number and order, each as the API server gives it back. */
  predicate RulesGivenBack(before: seq<Rule>, after: seq<Rule>) {
    |after| == |before| && forall i :: 0 <= i < |before| ==> RuleGivenBack(before[i], after[i])
  }

  function Elements<T>(l: GoList<T>): seq<T> {
    if l.List? then l.items else []
  }

  predicate ConfigFollows(b: Bag, s: Spec) {
    && b.connection.controllerUrl == s.connection.controllerUrl
    && b.connection.account == s.connection.account
    && b.connection.globalAccount == s.connection.globalAccount
    && b.connection.appName == StringOr(s.connection.appName, "K8s-Cluster-Agent")
    && b.connection.eventServiceUrl == s.connection.eventServiceUrl
    && b.connection.systemSSLCert == StringOr(s.connection.systemSSLCert, "/opt/appdynamics/ssl/appdsaascert.pem")
    && b.connection.agentSSLCert == StringOr(s.connection.agentSSLCert, "custom-ssl.pem")
    && b.agentServerPort == (if s.agentServerPort > 0 then s.agentServerPort else 8989)
    && b.netVizPort == s.netVizPort && b.nsToMonitor == List(Elements(s.nsToMonitor))
    && b.biqRequestMem == "600" && b.biqRequestCpu == (if s.biqRequestMem == "" then "0.1" else s.biqRequestCpu)
  }

  predicate InstrumentationFollows(f: Flagged, r: Flagged) {
    && f.instrumentationMethod == r.instrumentationMethod && f.biqService == r.biqService
    && f.agentEnvVar == StringOr(r.agentEnvVar, "JAVA_OPTS")
    && f.appNameLiteral == r.appNameLiteral && f.appDAppLabel == r.appDAppLabel
    && f.appDTierLabel == r.appDTierLabel && f.agentOpts == r.agentOpts
    && f.matchString == List(Elements(r.matchString)) && f.nsToInstrument == List(Elements(r.nsToInstrument))
    && f.nsToInstrumentExclude == List(Elements(r.nsToInstrumentExclude))
    && f.rules.List? && RulesGivenBack(Elements(r.rules), f.rules.items)
  }

  lemma WrittenFollows(s: Spec, namespace: string, version: string)
    ensures var b := Written(s, namespace, version);
            && b.agentNamespace == namespace && b.secretVersion == version
            && ConfigFollows(b, s) && InstrumentationFollows(b.flagged, s.flagged)
            && ConfigFollows(b.(instrumentationUpdated := false), s)
  {
  }

  lemma ConfigOfPass(t: Store, e: Env)
    requires e.faults == {}
    ensures var u := Pass(t, e).store;
            && u.secret == Some(if t.secret.Some? then t.secret.value else e.newVersion)
            && u.config.Some?
            && (u.config.value
                == if t.deployment.None?
                   then Written(t.spec, e.namespace, u.secret.value).(instrumentationUpdated := false)
                   else Written(t.spec, e.namespace, u.secret.value))
  {
    hide Written, Breaks;
  }

  /** What the agent reads from its ConfigMap after an undisturbed pass: the spec, and for what it
      leaves out the defaults, each written out here. The flag is set unless the pass creates the
      Deployment or the spec spells out every default of the fields that mark an update. */
  lemma ConfigTells(t: Store, e: Env)
    requires e.faults == {}
    ensures var u := Pass(t, e).store;
            && u.secret == Some(if t.secret.Some? then t.secret.value else e.newVersion)
            && u.config.Some?
            && u.config.value.agentNamespace == e.namespace && u.config.value.secretVersion == u.secret.value
            && ConfigFollows(u.config.value, t.spec)
            && InstrumentationFollows(u.config.value.flagged, t.spec.flagged)
            && (u.config.value.instrumentationUpdated <==>
                  && t.deployment.Some?
                  && t.spec.flagged != Flagged("none", List([]), List([]), List([]), List([]), "none", "", "",
                                               "appd-app", "appd-tier", ""))
  {
    hide Pass, ConfigFollows, InstrumentationFollows, Merge;
    ConfigOfPass(t, e);
    var version := Pass(t, e).store.secret.value;
    WrittenFollows(t.spec, e.namespace, version);
    FlagComparesWithDefaults(t.spec, e.namespace, version);
  }

  // ---------- Service, Deployment and spec ----------

  /** An undisturbed pass that finds no Deployment. A positive port of the spec is the one that the
      new service, the Deployment and the agent itself use. */
  lemma CreatedObjects(t: Store, e: Env)
    requires e.faults == {} && t.deployment.None?
    ensures var s, r := t.spec, Pass(t, e);
            var port := if s.agentServerPort > 0 then s.agentServerPort else 8989;
            && !r.failed && !r.restarted && !r.requeue
            && r.store.config.Some? && r.store.config.value.agentServerPort == port
            && r.store.service == (if t.service.Some? then t.service else Some(port))
            && r.store.deployment
               == Some(Deployment(
                         StringOr(s.image, "appdynamics/cluster-agent:latest"), port, s.connection.agentSSLCert,
                         if s.connection.agentSSLCert == "" then ""
                         else StringOr(s.customSSLConfigMap, "cluster-agent-ssl-config")))
  {
    hide Written;
    WrittenFollows(t.spec, e.namespace, if t.secret.Some? then t.secret.value else e.newVersion);
  }

  /** The fields of a stored spec that no pass ever changes, besides the empty lists that go. */
  predicate SpecGivenBack(s: Spec, u: Spec) {
    && u.connection == s.connection && u.agentServerPort == s.agentServerPort && u.netVizPort == s.netVizPort
    && u.biqRequestMem == s.biqRequestMem && u.biqRequestCpu == s.biqRequestCpu
    && GivenBack(s.nsToMonitor, u.nsToMonitor) && InstrumentationGivenBack(s.flagged, u.flagged)
  }

  predicate InstrumentationGivenBack(r: Flagged, u: Flagged) {
    && u.instrumentationMethod == r.instrumentationMethod && u.biqService == r.biqService
    && u.agentEnvVar == r.agentEnvVar && u.appNameLiteral == r.appNameLiteral
    && u.appDAppLabel == r.appDAppLabel && u.appDTierLabel == r.appDTierLabel && u.agentOpts == r.agentOpts
    && GivenBack(r.matchString, u.matchString) && GivenBack(r.nsToInstrument, u.nsToInstrument)
    && GivenBack(r.nsToInstrumentExclude, u.nsToInstrumentExclude)
    && (Elements(r.rules) == [] ==> u.rules == Nil)
    && (Elements(r.rules) != [] ==> u.rules.List? && RulesGivenBack(Elements(r.rules), u.rules.items))
  }

  lemma JsonGivesBack(s: Spec)
    ensures SpecGivenBack(s, JsonSpec(s))
    ensures JsonSpec(s).image == s.image && JsonSpec(s).customSSLConfigMap == s.customSSLConfigMap
  {
    JsonRulesTwice(s.flagged.rules);
  }

  /** The spec that an undisturbed pass stores. Creating the Deployment fills in the image and, for a
      certificate, the ConfigMap; a pass that restarts the agent or replaces its image stores none. */
  lemma StoredSpec(t: Store, e: Env)
    requires e.faults == {}
    ensures var s, r := t.spec, Pass(t, e);
            && (r.requeue ==> r.store.spec == s)
            && (!r.requeue ==> SpecGivenBack(s, r.store.spec))
            && (!r.requeue && t.deployment.Some? ==>
                  r.store.spec.image == s.image && r.store.spec.customSSLConfigMap == s.customSSLConfigMap)
            && (t.deployment.None? ==>
                  && r.store.spec.image == StringOr(s.image, "appdynamics/cluster-agent:latest")
                  && r.store.spec.customSSLConfigMap
                     == if s.connection.agentSSLCert == "" then s.customSSLConfigMap
                        else StringOr(s.customSSLConfigMap, "cluster-agent-ssl-config"))
  {
    hide Written, Breaks, JsonSpec, SpecGivenBack;
    JsonGivesBack(t.spec);
    JsonGivesBack(DeploymentDefaults(t.spec));
    assert SpecGivenBack(t.spec, JsonSpec(DeploymentDefaults(t.spec))) by {
      DefaultsGivenBack(t.spec, JsonSpec(DeploymentDefaults(t.spec)));
    }
  }

  lemma DefaultsGivenBack(s: Spec, u: Spec)
    ensures SpecGivenBack(DeploymentDefaults(s), u) <==> SpecGivenBack(s, u)
  {
    hide InstrumentationGivenBack;
  }

  /** The fields whose edit restarts the agent: the URL always, the others unless they are emptied. */
  predicate ConnectionEdited(c: Connection, s: Connection) {
    || c.controllerUrl != s.controllerUrl
    || (c.account != s.account && s.account != "")
    || (c.globalAccount != s.globalAccount && s.globalAccount != "")
    || (c.appName != s.appName && s.appName != "")
    || (c.eventServiceUrl != s.eventServiceUrl && s.eventServiceUrl != "")
    || (c.systemSSLCert != s.systemSSLCert && s.systemSSLCert != "")
    || (c.agentSSLCert != s.agentSSLCert && s.agentSSLCert != "")
  }

  /** An undisturbed pass over a Deployment: a given image that differs is put into it, and
      otherwise the connection fields are compared with a stored ConfigMap. */
  lemma UpdatedObjects(t: Store, e: Env)
    requires e.faults == {} && t.deployment.Some?
    ensures var s, d, r := t.spec, t.deployment.value, Pass(t, e);
            var imageEdited := s.image != "" && d.image != s.image;
            && !r.failed && r.store.service == t.service
            && r.store.deployment == Some(if imageEdited then d.(image := s.image) else d)
            && (r.restarted <==>
                  !imageEdited && t.config.Some? && ConnectionEdited(t.config.value.connection, s.connection))
            && (r.requeue <==> r.restarted || imageEdited)
  {
    hide Written;
    var version := if t.secret.Some? then t.secret.value else e.newVersion;
    MergedDoesNotBreak(t.spec, e.namespace, version);
    if t.config.Some? {
      ConnectionEditedBreaks(t);
    }
  }

  lemma ConnectionEditedBreaks(t: Store)
    requires t.config.Some?
    ensures Breaks(t.spec.connection, t.config.value.connection)
            <==> ConnectionEdited(t.config.value.connection, t.spec.connection)
  {
  }

  // ---------- Failing calls ----------

  predicate FailuresKeep(t: Store, r: Outcome, e: Env) {
    && (GetSecret in e.faults || CreateSecret in e.faults ==> r.store.secret == t.secret)
    && (GetService in e.faults || CreateService in e.faults ==> r.store.service == t.service)
    && (CreateDeployment in e.faults && t.deployment.None? ==> r.store.deployment == None)
    && (UpdateDeployment in e.faults && t.deployment.Some? ==> r.store.deployment == t.deployment)
    && (UpdateAgent in e.faults ==> r.store.spec == t.spec)
    && (ListPods in e.faults || DeletePod in e.faults ==> !r.restarted)
    && (UpdateConfig in e.faults && t.deployment.Some? && t.config.Some? ==> r.store.config == t.config)
    && (CleanUpDelete in e.faults && t.deployment.None? && t.config.Some? ==> r.store.config == t.config)
  }

  /** A failing call leaves its object as it was, and a failing restart restarts nothing. */
  lemma FailingCallsWriteNothing(t: Store, e: Env)
    ensures FailuresKeep(t, Pass(t, e), e)
  {
    hide CreatePass, UpdatePass, FailuresKeep;
    if t.deployment.None? {
      CreateFailures(t, e);
    } else {
      UpdateFailures(t, e);
    }
    assert FailuresKeep(t, Failed(t), e) by {
      NothingKeeps(t, e);
    }
  }

  lemma NothingKeeps(t: Store, e: Env)
    ensures FailuresKeep(t, Failed(t), e)
  {
  }

  lemma CreateFailures(t: Store, e: Env)
    requires t.deployment.None?
    ensures FailuresKeep(t, CreatePass(t, e), e)
  {
    hide Written, Breaks, JsonSpec, NewDeployment, DeploymentDefaults;
  }

  lemma UpdateFailures(t: Store, e: Env)
    requires t.deployment.Some?
    ensures FailuresKeep(t, UpdatePass(t, e), e)
  {
    hide Written, Breaks, JsonSpec;
  }

  /** The secret cannot be had. */
  predicate SecretFails(t: Store, e: Env) {
    GetSecret in e.faults || (t.secret.None? && (CreateSecret in e.faults || ReloadSecret in e.faults))
  }

  /** Exactly the passes that report an error. A pass without a Deployment needs a new ConfigMap unless
      removing the old one failed. */
  lemma PassFails(t: Store, e: Env)
    ensures t.deployment.None? ==>
              (Pass(t, e).failed <==>
                 || GetAgent in e.faults || GetDeployment in e.faults || SecretFails(t, e) || GetConfig in e.faults
                 || (CreateConfig in e.faults
                     && (t.config.None? || (CleanUpGet !in e.faults && CleanUpDelete !in e.faults)))
                 || GetService in e.faults || (CreateService in e.faults && t.service.None?)
                 || CreateDeployment in e.faults)
    ensures t.deployment.Some? ==>
              var s, d := t.spec, t.deployment.value;
              var imageEdited := s.image != "" && d.image != s.image;
              Pass(t, e).failed <==>
                || GetAgent in e.faults || GetDeployment in e.faults || SecretFails(t, e) || GetConfig in e.faults
                || (CreateConfig in e.faults && t.config.None?) || UpdateConfig in e.faults
                || (UpdateDeployment in e.faults && imageEdited)
                || ((ListPods in e.faults || DeletePod in e.faults) && !imageEdited
                    && t.config.Some? && ConnectionEdited(t.config.value.connection, s.connection))
  {
    hide Written, JsonSpec, NewDeployment, DeploymentDefaults, Breaks, ConnectionEdited;
    if t.config.Some? {
      ConnectionEditedBreaks(t);
    }
    MergedDoesNotBreak(t.spec, e.namespace, if t.secret.Some? then t.secret.value else e.newVersion);
  }

  /** Whatever fails, a created Deployment listens on the port of the stored bag, and so does the
      service unless it is an old one. The bag is a new one unless removing an old one failed. */
  lemma CreatedDespiteFailures(t: Store, e: Env)
    requires t.deployment.None? && Pass(t, e).store.deployment.Some?
    ensures var u := Pass(t, e).store;
            && !Pass(t, e).failed
            && u.config.Some? && u.secret == Some(if t.secret.Some? then t.secret.value else e.newVersion)
            && u.deployment.value.port == u.config.value.agentServerPort
            && u.service == (if t.service.Some? then t.service else Some(u.config.value.agentServerPort))
            && (t.config.None? || (CleanUpGet !in e.faults && CleanUpDelete !in e.faults) ==>
                  ConfigFollows(u.config.value, t.spec)
                  && InstrumentationFollows(u.config.value.flagged, t.spec.flagged))
            && (t.config.Some? && (CleanUpGet in e.faults || CleanUpDelete in e.faults) ==>
                  u.config == t.config)
  {
    hide Written, ConfigFollows, InstrumentationFollows, JsonSpec;
    WrittenFollows(t.spec, e.namespace, if t.secret.Some? then t.secret.value else e.newVersion);
  }

  /** Whatever fails, a pass over a Deployment writes the config once secret and config were read, and
      decides on image and restart as an undisturbed one does. */
  lemma UpdatedDespiteFailures(t: Store, e: Env)
    requires t.deployment.Some? && GetAgent !in e.faults && GetDeployment !in e.faults && !SecretFails(t, e)
    requires GetConfig !in e.faults && UpdateConfig !in e.faults && (CreateConfig !in e.faults || t.config.Some?)
    ensures var u := Pass(t, e).store;
            && u.secret == Some(if t.secret.Some? then t.secret.value else e.newVersion)
            && u.config.Some? && u.config.value.secretVersion == u.secret.value
            && ConfigFollows(u.config.value, t.spec)
            && InstrumentationFollows(u.config.value.flagged, t.spec.flagged)
    ensures var calm := e.(faults := {});
            !Pass(t, e).failed ==>
              && Pass(t, e).store.deployment == Pass(t, calm).store.deployment
              && Pass(t, e).restarted == Pass(t, calm).restarted && Pass(t, e).requeue == Pass(t, calm).requeue
              && (UpdateAgent !in e.faults ==> Pass(t, e).store == Pass(t, calm).store)
  {
    hide Written, Breaks, ConfigFollows, InstrumentationFollows, JsonSpec;
    WrittenFollows(t.spec, e.namespace, if t.secret.Some? then t.secret.value else e.newVersion);
  }
}

/** One fault-free, edit-free Reconcile of the InfraViz controller as a function of the cluster,
    and where repeating it leads. */
module InfraVizPass {
  import opened Text
  import opened GoTypes
  import opened ControllerUrl
  import opened InfraVizSpec

  // ---------- The cluster ----------

  /** The entries of ma-config that the controller writes, a missing one as "", and all others. */
  datatype Config = Config(
    account: string,
    globalAccount: string,
    host: string,
    port: string,
    ssl: string,
    netVizPort: string,
    containerHostId: string,
    serverViz: string,
    dockerViz: string,
    eventEndpoint: string,
    proxyHost: string,
    proxyPort: string,
    proxyUser: string,
    proxyPass: string,
    metricLimit: string,
    logLevel: string,
    logStdout: string,
    properties: string,
    foreign: map<string, string>)

  /** What the log4j file is rendered from; `legacy` chooses the template of 4.5 images. */
  datatype LogFile = LogFile(legacy: bool, level: string, stdout: bool)

  datatype Store = Store(
    spec: Spec,
    daemonSet: Option<DaemonSet>,
    secrets: set<string>,
    service: Option<(int, int)>,
    config: Option<Config>,
    logFile: Option<LogFile>,
    netViz: Option<(int, int)>,
    sslStore: bool,
    sslConfig: Option<(string, string)>)

  // ---------- Reading the spec ----------

  datatype Inputs = Inputs(
    endpoint: Endpoint,
    eventUrl: string,
    proxyHost: string,
    proxyPort: string,
    proxyUser: string,
    proxyPass: string,
    logLevel: string)

  /** The parsed URL, proxy and user, or None where the controller reports an invalid field. */
  function ReadInputs(s: Spec): Option<Inputs> {
    var parsed := ParseUrl(s.controllerUrl);
    var proxy := Split(s.proxyUrl, ':');
    var user := Split(s.proxyUser, '@');
    if parsed.Rejected? || (s.proxyUrl != "" && |proxy| != 3) || (s.proxyUser != "" && |user| != 2) then None
    else
      Some(Inputs(
        parsed.endpoint,
        EventUrl(s.eventServiceUrl, parsed.endpoint),
        if s.proxyUrl != "" then TrimLeft(proxy[1], '/') else "",
        if s.proxyUrl != "" then proxy[2] else "",
        if s.proxyUser != "" then user[0] else "",
        if s.proxyUser != "" then user[1] else "",
        OrString(s.logLevel, "info")))
  }

  function FormatBool(b: bool): string {
    if b then "true" else "false"
  }

  function Render(s: Spec, i: Inputs, foreign: map<string, string>): Config {
    Config(
      s.account, s.globalAccount, i.endpoint.host, Itoa(i.endpoint.port), FormatBool(i.endpoint.ssl),
      Itoa(s.netVizPort), s.enableContainerHostId, s.enableServerViz, s.enableDockerViz, i.eventUrl,
      i.proxyHost, i.proxyPort, i.proxyUser, i.proxyPass, s.metricsLimit,
      i.logLevel, FormatBool(s.stdoutLogging), s.propertyBag, foreign)
  }

  /** The 15 entries whose change restarts the pods; the NetViz port, the log level and the
      stdout flag are not among them. */
  predicate BreakingEntries(c: Config, s: Spec, i: Inputs) {
    Render(s, i, c.foreign).(netVizPort := c.netVizPort, logLevel := c.logLevel, logStdout := c.logStdout) != c
  }

  predicate LogEntries(c: Config, s: Spec, i: Inputs) {
    c.logLevel != i.logLevel || c.logStdout != FormatBool(s.stdoutLogging)
  }

  function LogFileOf(s: Spec, i: Inputs): LogFile {
    LogFile(Contains(s.image, "4.5"), i.logLevel, s.stdoutLogging)
  }

  // ---------- The pass ----------

  /** Deleting and then updating the same object: it is recreated only when it was absent. */
  function EnsureSsl(t: Store, s: Spec): Store {
    if s.agentSSLStoreName == "" || !t.sslStore then t
    else if t.sslConfig.Some? then t.(sslConfig := None)
    else t.(sslConfig := Some((s.agentSSLStoreName, s.agentSSLPassword)))
  }

  /** Service and secret, which every Reconcile looks after first. */
  function EnsureBasics(t: Store, s: Spec): Store {
    t.(service := if t.service.Some? then t.service
                  else Some((s.biqPort, if s.netVizPort > 0 then s.netVizPort else 0)),
       secrets := t.secrets + {SecretName(s)})
  }

  function EnsureNetViz(t: Store, s: Spec): Store {
    if s.netVizPort > 0 then t.(netViz := Some((s.netlibEnabled, s.netVizPort))) else t
  }

  /** `ensureConfigMap` on the spec `s` as read and pod-defaulted. */
  function WriteConfig(t: Store, s: Spec, i: Inputs): Store {
    var u := EnsureNetViz(t, s);
    var logged :=
      if u.config.None? || LogEntries(u.config.value, s, i) then u.(logFile := Some(LogFileOf(s, i))) else u;
    var foreign := if u.config.Some? then u.config.value.foreign else map[];
    EnsureSsl(logged.(config := Some(Render(ConfigDefaults(s), i, foreign))), s)
  }

  /** A changed log entry forgets that the annotated spec differs. */
  predicate Breaking(t: Store, s: Spec, i: Inputs, annotated: Spec) {
    if t.config.None? then annotated != s
    else
      BreakingEntries(t.config.value, s, i)
      || (annotated != s && !LogEntries(t.config.value, s, i))
  }

  datatype Result = Result(store: Store, failed: bool, restarted: bool)

  function Pass(t: Store): Result {
    var s := PodDefaults(t.spec);
    var u := EnsureBasics(t, s);
    if u.daemonSet.None? then Result(u.(daemonSet := Some(Desired(s))), false, false)
    else if ReadInputs(s).None? then Result(u, true, false)
    else
      var i := ReadInputs(s).value;
      var d := u.daemonSet.value;
      var breaking := Breaking(u, s, i, d.annotation);
      var v := WriteConfig(u, s, i);
      var final := ConfigDefaults(s);
      var rewritten := breaking || Changed(d.template, Build(s), final);
      Result(v.(spec := Json(final), daemonSet := Some(if rewritten then Desired(s) else d)), false, breaking)
  }

  // ---------- Convergence ----------

  function FullDefaults(s: Spec): Spec {
    ConfigDefaults(PodDefaults(s))
  }

  predicate Usable(t: Store) {
    t.daemonSet.Some? ==> OperatorWritten(t.daemonSet.value)
  }

  /** Everything follows the stored spec, which has all its defaults. */
  predicate Settled(t: Store) {
    && FullDefaults(t.spec) == t.spec && Json(t.spec) == t.spec
    && t.daemonSet == Some(Desired(t.spec)) && t.daemonSet.value.annotation == t.spec
    && ReadInputs(t.spec).Some? && t.config.Some?
    && t.config.value == Render(t.spec, ReadInputs(t.spec).value, t.config.value.foreign)
    && t.service.Some? && SecretName(t.spec) in t.secrets
    && (t.spec.netVizPort > 0 ==> t.netViz == Some((t.spec.netlibEnabled, t.spec.netVizPort)))
  }

  predicate SslIdle(t: Store) {
    t.spec.agentSSLStoreName == "" || !t.sslStore
  }

  lemma DefaultsKeepInputs(s: Spec)
    ensures ReadInputs(PodDefaults(s)) == ReadInputs(s)
    ensures ReadInputs(ConfigDefaults(s)) == ReadInputs(s)
    ensures ReadInputs(Json(s)) == ReadInputs(s)
  {
    hide ParseUrl, Split, TrimLeft, EventUrl;
  }

  lemma StoredSpecIsFull(s: Spec)
    ensures var t := Json(FullDefaults(s));
            PodDefaults(t) == t && ConfigDefaults(t) == t && FullDefaults(t) == t && Json(t) == t
            && Json(PodDefaults(s)).(enableServerViz := t.enableServerViz) == t
  {
  }

  lemma PassKeepsUsable(t: Store)
    requires Usable(t)
    ensures Usable(Pass(t).store)
  {
    hide ReadInputs, Render, WriteConfig, Breaking, Changed, OperatorWritten, Desired, PodDefaults, EnsureBasics;
    DesiredIsOperatorWritten(t.spec);
    WriteConfigFrame(EnsureBasics(t, PodDefaults(t.spec)), PodDefaults(t.spec));
    assert EnsureBasics(t, PodDefaults(t.spec)).daemonSet == t.daemonSet by {
      BasicsFrame(t, PodDefaults(t.spec));
    }
  }

  lemma BasicsFrame(t: Store, s: Spec)
    ensures EnsureBasics(t, s).daemonSet == t.daemonSet
    ensures EnsureBasics(t, s).config == t.config && EnsureBasics(t, s).spec == t.spec
  {
  }

  lemma WriteConfigFrame(t: Store, s: Spec)
    ensures ReadInputs(s).Some? ==>
              var v := WriteConfig(t, s, ReadInputs(s).value);
              && v.daemonSet == t.daemonSet && v.secrets == t.secrets && v.service == t.service
              && v.sslStore == t.sslStore && v.spec == t.spec
  {
    hide ReadInputs, Render, LogFileOf, LogEntries, ConfigDefaults;
  }

  /** What every pass over an existing DaemonSet with a readable spec leaves behind. */
  predicate Written(t: Store, s: Spec) {
    && ReadInputs(s).Some? && t.config.Some?
    && t.config.value == Render(s, ReadInputs(s).value, t.config.value.foreign)
    && t.service.Some? && SecretName(s) in t.secrets
    && (s.netVizPort > 0 ==> t.netViz == Some((s.netlibEnabled, s.netVizPort)))
  }

  lemma BasicsThere(t: Store, s: Spec)
    ensures EnsureBasics(t, s).service.Some? && SecretName(s) in EnsureBasics(t, s).secrets
    ensures t.service.Some? && SecretName(s) in t.secrets ==> EnsureBasics(t, s) == t
  {
    if SecretName(s) in t.secrets {
      assert t.secrets + {SecretName(s)} == t.secrets;
    }
  }

  lemma WriteConfigWrites(t: Store, s: Spec)
    requires ReadInputs(s).Some?
    ensures var v := WriteConfig(t, s, ReadInputs(s).value);
            && v.config.Some?
            && v.config.value == Render(ConfigDefaults(s), ReadInputs(s).value, v.config.value.foreign)
            && (s.netVizPort > 0 ==> v.netViz == Some((s.netlibEnabled, s.netVizPort)))
  {
    hide ReadInputs, LogFileOf, LogEntries, ConfigDefaults;
  }

  lemma PassWrites(t: Store)
    requires t.daemonSet.Some? && ReadInputs(t.spec).Some?
    ensures var r := Pass(t);
            && !r.failed && r.store.spec == Json(FullDefaults(t.spec))
            && Written(r.store, r.store.spec) && r.store.daemonSet.Some?
            && r.store.sslStore == t.sslStore
  {
    hide ReadInputs, WriteConfig, Breaking, Changed, Desired, EnsureBasics, PodDefaults;
    var s := PodDefaults(t.spec);
    var u := EnsureBasics(t, s);
    DefaultsKeepInputs(t.spec);
    DefaultsKeepInputs(s);
    DefaultsKeepInputs(FullDefaults(t.spec));
    BasicsThere(t, s);
    BasicsFrame(t, s);
    BasicsSsl(t, s);
    WriteConfigWrites(u, s);
    WriteConfigFrame(u, s);
    var r := Pass(t);
    assert r.store.spec == Json(FullDefaults(t.spec));
    assert SecretName(r.store.spec) in r.store.secrets;
    assert r.store.config.value == Render(r.store.spec, ReadInputs(s).value, r.store.config.value.foreign);
    assert Written(r.store, r.store.spec);
  }

  lemma BasicsSsl(t: Store, s: Spec)
    ensures EnsureBasics(t, s).sslStore == t.sslStore
  {
  }

  /** A pass on a stored spec that already has all its defaults and is already rendered: it
      restarts the pods exactly when the saved spec is another one, and then settles. */
  lemma PassOnFullSpec(t: Store)
    requires Usable(t) && t.daemonSet.Some?
    requires FullDefaults(t.spec) == t.spec && Json(t.spec) == t.spec && Written(t, t.spec)
    ensures var r := Pass(t);
            && Settled(r.store) && !r.failed
            && (r.restarted <==> t.daemonSet.value.annotation != t.spec)
            && r.store == EnsureSsl(t.(daemonSet := Some(Desired(t.spec))), t.spec)
  {
    hide ReadInputs, Changed, EnsureBasics, Build, JsonPod, Render;
    StoredSpecIsFull(t.spec);
    BasicsThere(t, t.spec);
    FullSpecNotBreaking(t);
    FullSpecRewrite(t);
    if t.daemonSet.value.annotation == t.spec {
      assert t.daemonSet.value == Desired(t.spec);
    }
  }

  lemma FullSpecNotBreaking(t: Store)
    requires FullDefaults(t.spec) == t.spec && Written(t, t.spec)
    ensures !BreakingEntries(t.config.value, t.spec, ReadInputs(t.spec).value)
    ensures !LogEntries(t.config.value, t.spec, ReadInputs(t.spec).value)
  {
    hide ReadInputs;
  }

  lemma FullSpecRewrite(t: Store)
    requires FullDefaults(t.spec) == t.spec && Written(t, t.spec)
    ensures WriteConfig(t, t.spec, ReadInputs(t.spec).value) == EnsureSsl(t, t.spec)
  {
    hide ReadInputs, Render;
    assert ConfigDefaults(t.spec) == t.spec by {
      StoredSpecIsFull(t.spec);
    }
    FullSpecNotBreaking(t);
  }

  /** Two passes settle any cluster whose DaemonSet, if any, the controller has written. */
  lemma TwoPassesSettle(t: Store)
    requires Usable(t) && t.daemonSet.Some? && ReadInputs(t.spec).Some?
    ensures var p := Pass(t);
            var q := Pass(p.store);
            && !p.failed && !q.failed && Settled(q.store)
            && q.store.spec == Json(FullDefaults(t.spec))
            && (q.restarted <==> p.store.daemonSet.value.annotation != p.store.spec)
  {
    hide ReadInputs, Pass, Settled, Usable, Desired, Render;
    PassKeepsUsable(t);
    PassWrites(t);
    StoredSpecIsFull(t.spec);
    PassOnFullSpec(Pass(t).store);
    PassWrites(Pass(t).store);
  }

  /** In a settled cluster a pass never deletes a pod, and it leaves the whole store as it is
      exactly unless a custom SSL store is requested and present; then ma-ssl-config is deleted by
      one pass and recreated by the next, for ever. */
  lemma SettledIsStable(t: Store)
    requires Settled(t)
    ensures Usable(t)
    ensures var r := Pass(t);
            && !r.failed && !r.restarted && Settled(r.store)
            && (r.store == t <==> SslIdle(t))
            && (!SslIdle(t) ==> (r.store.sslConfig.Some? <==> t.sslConfig.None?))
            && r.store == t.(sslConfig := r.store.sslConfig)
  {
    hide ReadInputs, Pass, Desired, Render;
    assert Usable(t) by {
      DesiredIsOperatorWritten(t.spec);
      StoredSpecIsFull(t.spec);
    }
    PassOnFullSpec(t);
    assert t.(daemonSet := Some(Desired(t.spec))) == t;
  }

  function PassTimes(t: Store, n: nat): Store {
    if n == 0 then t else Pass(PassTimes(t, n - 1)).store
  }

  lemma {:induction false} NeverAgain(t: Store, n: nat)
    requires Settled(t)
    ensures Settled(PassTimes(t, n)) && !Pass(PassTimes(t, n)).restarted
  {
    hide Settled, Pass, SslIdle;
    if n > 0 {
      NeverAgain(t, n - 1);
      SettledIsStable(PassTimes(t, n - 1));
    }
    SettledIsStable(PassTimes(t, n));
  }

  // ---------- Edits ----------

  /** What a pass and the one after it do to the pods, from any state with a DaemonSet. Once the
      annotation has been rewritten, only the default that comes after it can cause a restart. */
  lemma TwoRestarts(t: Store)
    requires Usable(t) && t.daemonSet.Some? && ReadInputs(t.spec).Some?
    ensures ReadInputs(PodDefaults(t.spec)) == ReadInputs(t.spec)
    ensures var s := PodDefaults(t.spec);
            var d := t.daemonSet.value;
            var p := Pass(t);
            var q := Pass(p.store);
            && (p.restarted <==> Breaking(t, s, ReadInputs(t.spec).value, d.annotation))
            && (q.restarted <==>
                  if p.restarted || Changed(d.template, Build(s), FullDefaults(t.spec))
                  then t.spec.enableServerViz == ""
                  else d.annotation != Json(FullDefaults(t.spec)))
  {
    hide ReadInputs, WriteConfig, Breaking, Changed, EnsureBasics, PodDefaults, Settled, Usable, Build, JsonPod;
    var s := PodDefaults(t.spec);
    DefaultsKeepInputs(t.spec);
    BasicsFrame(t, s);
    BreakingFrame(t, EnsureBasics(t, s), s);
    WriteConfigFrame(EnsureBasics(t, s), s);
    TwoPassesSettle(t);
    LateDefault(t.spec);
  }

  lemma BreakingFrame(t: Store, u: Store, s: Spec)
    requires t.config == u.config
    ensures forall i, a :: Breaking(t, s, i, a) == Breaking(u, s, i, a)
  {
  }

  lemma LateDefault(s: Spec)
    ensures Json(PodDefaults(s)) == Json(FullDefaults(s)) <==> s.enableServerViz != ""
  {
  }

  /** Any edit of a settled cluster, exactly: the pass that sees it restarts the pods for a changed
      breaking entry, or for any difference unless a log entry changed with it. The next pass
      makes up for a restart that this left out, but only if the template showed no change: a
      rewritten DaemonSet carries the new annotation, and then the restart is lost. From the third
      pass on there are no more. */
  lemma EditOverSettled(t: Store, edit: Spec, n: nat)
    requires Settled(t) && ReadInputs(edit).Some?
    ensures var edited := t.(spec := edit);
            var s := PodDefaults(edit);
            var i := ReadInputs(edit).value;
            var c := t.config.value;
            var p := Pass(edited);
            var q := Pass(p.store);
            && !p.failed && !q.failed && Settled(q.store)
            && (p.restarted <==> BreakingEntries(c, s, i) || (t.spec != s && !LogEntries(c, s, i)))
            && (q.restarted <==>
                  if p.restarted || Changed(t.daemonSet.value.template, Build(s), FullDefaults(edit))
                  then edit.enableServerViz == "" else t.spec != Json(FullDefaults(edit)))
            && !Pass(PassTimes(q.store, n)).restarted
  {
    hide ReadInputs, Pass, Changed, Build, PodDefaults, FullDefaults, BreakingEntries, LogEntries, Render;
    SettledIsStable(t);
    var edited := t.(spec := edit);
    TwoRestarts(edited);
    TwoPassesSettle(edited);
    NeverAgain(Pass(Pass(edited).store).store, n);
  }

  /** Setting, changing or clearing the log level never restarts the pods in the pass that sees it.
      The next pass restarts them exactly if the template as built shows the tolerations and
      arguments of the spec; otherwise the first pass has saved the new spec along with the template,
      and no later pass ever restarts them. */
  lemma LogEditRestartsLateOrNever(t: Store, logLevel: string, n: nat)
    requires Settled(t)
    requires OrString(logLevel, "info") != OrString(t.spec.logLevel, "info")
    ensures var edited := t.(spec := t.spec.(logLevel := logLevel));
            var p := Pass(edited);
            var q := Pass(p.store);
            && !p.failed && !p.restarted
            && p.store.logFile.Some? && p.store.logFile.value.level == OrString(logLevel, "info")
            && (q.restarted <==> !Overruled(t.spec))
            && Settled(q.store) && !Pass(PassTimes(q.store, n)).restarted
  {
    hide ParseUrl, Split, TrimLeft, EventUrl, Settled, Desired, Build, Changed, Itoa, Breaking, Usable;
    hide PassTimes, EnsureBasics, WriteConfig;
    var s := t.spec.(logLevel := logLevel);
    SettledFacts(t);
    EditedFacts(t, logLevel);
    EditOverSettled(t, s, n);
    StoredTemplateUnchanged(t.spec);
    ChangedIgnoresLogLevel(t.spec, logLevel);
    LogEditEntries(t, logLevel);
    LogFileWritten(t.(spec := s));
  }

  lemma LogEditEntries(t: Store, logLevel: string)
    requires FullDefaults(t.spec) == t.spec && Written(t, t.spec)
    requires ReadInputs(t.spec.(logLevel := logLevel)).Some?
    requires ReadInputs(t.spec.(logLevel := logLevel)).value
          == ReadInputs(t.spec).value.(logLevel := OrString(logLevel, "info"))
    requires OrString(logLevel, "info") != OrString(t.spec.logLevel, "info")
    ensures var s := t.spec.(logLevel := logLevel);
            var i := ReadInputs(s).value;
            !BreakingEntries(t.config.value, s, i) && LogEntries(t.config.value, s, i)
  {
    hide ParseUrl, Split, TrimLeft, EventUrl, Itoa;
  }

  /** A pass that finds a changed log entry writes the log file. */
  lemma LogFileWritten(t: Store)
    requires t.daemonSet.Some? && t.config.Some? && ReadInputs(PodDefaults(t.spec)).Some?
    requires LogEntries(t.config.value, PodDefaults(t.spec), ReadInputs(PodDefaults(t.spec)).value)
    ensures Pass(t).store.logFile
         == Some(LogFileOf(PodDefaults(t.spec), ReadInputs(PodDefaults(t.spec)).value))
  {
    hide ReadInputs, LogEntries, LogFileOf, Breaking, Changed, Desired, Build, PodDefaults, Render, ConfigDefaults;
  }

  /** Both cases are within reach: install any readable spec, let it settle, and edit the log level.
      Some later pass restarts the pods if and only if building overruled nothing of that spec. */
  lemma LostLogEdit(t: Store, logLevel: string)
    requires t.daemonSet.None? && ReadInputs(t.spec).Some?
    requires OrString(logLevel, "info") != OrString(t.spec.logLevel, "info")
    ensures var installed := PassTimes(t, 3);
            var edited := installed.(spec := installed.spec.(logLevel := logLevel));
            && Settled(installed) && edited.spec != installed.spec
            && ((exists n: nat :: Pass(PassTimes(edited, n)).restarted) <==> !Overruled(PodDefaults(t.spec)))
  {
    hide ReadInputs, Pass, Settled, Overruled, PodDefaults;
    InstallationSettles(t);
    PassTimesTwo(t, 1);
    assert PassTimes(Pass(Pass(t).store).store, 1) == Pass(PassTimes(Pass(Pass(t).store).store, 0)).store;
    OverruledStays(t.spec);
    var installed := PassTimes(t, 3);
    var edited := installed.(spec := installed.spec.(logLevel := logLevel));
    LogEditRestartsLateOrNever(installed, logLevel, 0);
    assert PassTimes(edited, 1) == Pass(PassTimes(edited, 0)).store;
    forall n: nat | Overruled(installed.spec)
      ensures !Pass(PassTimes(edited, n)).restarted
    {
      if n >= 2 {
        LogEditRestartsLateOrNever(installed, logLevel, n - 2);
        PassTimesTwo(edited, n - 2);
      }
    }
  }

  lemma OverruledStays(s: Spec)
    ensures Overruled(Json(FullDefaults(s))) == Overruled(PodDefaults(s))
    ensures Json(FullDefaults(s)).logLevel == s.logLevel
  {
  }

  lemma {:induction false} PassTimesTwo(t: Store, n: nat)
    ensures PassTimes(t, n + 2) == PassTimes(Pass(Pass(t).store).store, n)
  {
    hide Pass;
    if n == 0 {
      assert PassTimes(t, 2) == Pass(PassTimes(t, 1)).store;
    } else {
      PassTimesTwo(t, n - 1);
    }
  }

  // ---------- Installation ----------

  /** A first installation takes one pass more. Its pods can be restarted for no change at all,
      twice: in the second pass when there is no ma-config yet and the defaulted spec has a list
      or map that JSON drops, so that it differs from its own annotation; and in the third pass
      exactly when the user had not set EnableServerViz, the one default filled in only after the
      spec was saved in the annotation. */
  lemma InstallationSettles(t: Store)
    requires t.daemonSet.None? && ReadInputs(t.spec).Some?
    ensures var s := PodDefaults(t.spec);
            var p := Pass(t);
            var q := Pass(p.store);
            var r := Pass(q.store);
            && !p.failed && !q.failed && !r.failed && Settled(r.store)
            && r.store.spec == Json(FullDefaults(t.spec))
            && !p.restarted
            && (q.restarted <==> Breaking(t, s, ReadInputs(t.spec).value, Json(s)))
            && (t.config.None? ==> (q.restarted <==> Json(s) != s))
            && (r.restarted <==> t.spec.enableServerViz == "")
  {
    hide ReadInputs, Settled, Written, WriteConfig, Build, JsonPod, Changed, EnsureBasics;
    var s := PodDefaults(t.spec);
    var p := Pass(t);
    BasicsFrame(t, s);
    DesiredIsOperatorWritten(t.spec);
    assert p.store.spec == t.spec && p.store.daemonSet == Some(Desired(s)) && p.store.config == t.config;
    TwoPassesSettle(p.store);
    TwoRestarts(p.store);
    LateDefault(t.spec);
  }

  lemma SettledFacts(t: Store)
    requires Settled(t)
    ensures FullDefaults(t.spec) == t.spec && Json(t.spec) == t.spec && Written(t, t.spec)
    ensures t.daemonSet == Some(Desired(t.spec)) && t.daemonSet.value.annotation == t.spec
  {
    hide ReadInputs, Render, Desired;
  }

  lemma EditedFacts(t: Store, logLevel: string)
    requires FullDefaults(t.spec) == t.spec && Json(t.spec) == t.spec && ReadInputs(t.spec).Some?
    ensures var s := t.spec.(logLevel := logLevel);
            && PodDefaults(s) == s && ConfigDefaults(s) == s && Json(s) == s
            && ReadInputs(s).Some?
            && ReadInputs(s).value == ReadInputs(t.spec).value.(logLevel := OrString(logLevel, "info"))
  {
    hide ParseUrl, Split, TrimLeft, EventUrl;
    StoredSpecIsFull(t.spec);
  }

  lemma ChangedIgnoresLogLevel(s: Spec, logLevel: string)
    ensures var e := s.(logLevel := logLevel);
            Build(e) == Build(s)
            && (Changed(Desired(s).template, Build(e), e) <==> Changed(Desired(s).template, Build(s), s))
  {
    hide AgentMounts, Volumes;
    SameMounts(s, logLevel);
  }

  lemma SameMounts(s: Spec, logLevel: string)
    ensures AgentMounts(s.(logLevel := logLevel)) == AgentMounts(s)
    ensures Volumes(s.(logLevel := logLevel)) == Volumes(s)
  {
  }
}

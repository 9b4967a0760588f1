/** One InfraViz Reconcile as a function of the API calls that fail, and what failures can and
    cannot do over any number of passes. */
module InfraVizFaults {
  import opened Text
  import opened GoTypes
  import opened ControllerUrl
  import opened InfraVizSpec
  import opened InfraVizPass

  datatype Call =
    | GetInfraViz | GetService | CreateService | GetSecret | CreateSecret | GetDaemonSet | CreateDaemonSet
    | GetNetViz | PutNetViz | GetConfig | GetLogFile | PutLogFile | PutConfig
    | GetSslStore | GetSslConfig | DeleteSslConfig | PutSslConfig
    | UpdateBeforeRestart | ListPods | UpdateAfterChange | ListStatusPods | UpdateInfraViz

  /** What a pass finds around it: the calls that fail, the pods of the DaemonSet, and how many of
      them can be deleted before a deletion fails. */
  datatype Env = Env(faults: set<Call>, pods: nat, deletable: nat)

  predicate Calm(e: Env) {
    e.faults == {} && e.pods <= e.deletable
  }

  datatype Outcome = Outcome(store: Store, failed: bool, deleted: nat)

  // ---------- The pass ----------

  /** Failures with service and secret are not reported. */
  function BasicsWith(t: Store, s: Spec, e: Env): Store {
    var ports := (s.biqPort, if s.netVizPort > 0 then s.netVizPort else 0);
    t.(service := if t.service.Some? || GetService in e.faults || CreateService in e.faults then t.service
                  else Some(ports),
       secrets := if GetSecret in e.faults || CreateSecret in e.faults then t.secrets
                  else t.secrets + {SecretName(s)})
  }

  function NetVizWith(t: Store, s: Spec, e: Env): Store {
    if GetNetViz in e.faults || PutNetViz in e.faults then t else EnsureNetViz(t, s)
  }

  /** A failure with the log file ends the pass. */
  predicate LogFails(e: Env) {
    GetLogFile in e.faults || PutLogFile in e.faults
  }

  predicate NeedsLog(t: Store, s: Spec, i: Inputs) {
    t.config.None? || LogEntries(t.config.value, s, i)
  }

  /** A deleted ma-ssl-config is not given back: the update that follows cannot succeed. */
  function SslWith(t: Store, s: Spec, e: Env): Store {
    if s.agentSSLStoreName == "" || GetSslStore in e.faults || !t.sslStore || GetSslConfig in e.faults then t
    else if t.sslConfig.Some? then if DeleteSslConfig in e.faults then t else t.(sslConfig := None)
    else if PutSslConfig in e.faults then t
    else t.(sslConfig := Some((s.agentSSLStoreName, s.agentSSLPassword)))
  }

  /** The store after `ensureConfigMap` on a readable spec. */
  function ConfigWith(t: Store, s: Spec, i: Inputs, e: Env): Store {
    var u := NetVizWith(t, s, e);
    if GetConfig in e.faults || (NeedsLog(t, s, i) && LogFails(e)) then u
    else
      var v := if NeedsLog(t, s, i) then u.(logFile := Some(LogFileOf(s, i))) else u;
      if PutConfig in e.faults then v
      else
        var foreign := if t.config.Some? then t.config.value.foreign else map[];
        SslWith(v.(config := Some(Render(ConfigDefaults(s), i, foreign))), s, e)
  }

  /** `ensureConfigMap` comes to write ma-config, and then reports no error. */
  predicate ConfigWritten(t: Store, s: Spec, i: Inputs, e: Env) {
    GetConfig !in e.faults && PutConfig !in e.faults && !(NeedsLog(t, s, i) && LogFails(e))
  }

  /** The pods are deleted one by one until a deletion fails. */
  function Deleted(e: Env): nat {
    if ListPods in e.faults then 0 else if e.deletable < e.pods then e.deletable else e.pods
  }

  predicate RestartFails(e: Env) {
    ListPods in e.faults || e.deletable < e.pods
  }

  /** The part of Reconcile after ma-config was written. */
  function FinishPass(v: Store, s: Spec, breaking: bool, changed: bool, e: Env): Outcome {
    if breaking && UpdateBeforeRestart in e.faults then Outcome(v, true, 0)
    else
      var w := if breaking then v.(daemonSet := Some(Desired(s))) else v;
      var deleted := if breaking then Deleted(e) else 0;
      if breaking && RestartFails(e) then Outcome(w, true, deleted)
      else if changed && UpdateAfterChange in e.faults then Outcome(w, true, deleted)
      else
        var x := if changed then w.(daemonSet := Some(Desired(s))) else w;
        var y := if ListStatusPods in e.faults || UpdateInfraViz in e.faults then x
                 else x.(spec := Json(ConfigDefaults(s)));
        Outcome(y, false, deleted)
  }

  function PassWith(t: Store, e: Env): Outcome {
    if GetInfraViz in e.faults then Outcome(t, true, 0)
    else
      var s := PodDefaults(t.spec);
      var u := BasicsWith(t, s, e);
      if GetDaemonSet in e.faults then Outcome(u, true, 0)
      else if u.daemonSet.None? then
        if CreateDaemonSet in e.faults then Outcome(u, true, 0)
        else Outcome(u.(daemonSet := Some(Desired(s))), false, 0)
      else if ReadInputs(s).None? then Outcome(u, true, 0)
      else
        var i := ReadInputs(s).value;
        var d := u.daemonSet.value;
        var v := ConfigWith(u, s, i, e);
        if !ConfigWritten(u, s, i, e) then Outcome(v, true, 0)
        else
          FinishPass(v, s, Breaking(u, s, i, d.annotation), Changed(d.template, Build(s), ConfigDefaults(s)), e)
  }

  // ---------- Without failures ----------

  /** Without failures it is the pass of the convergence theorems. */
  lemma CalmPass(t: Store, e: Env)
    requires Calm(e)
    ensures var r := Pass(t);
            PassWith(t, e) == Outcome(r.store, r.failed, if r.restarted then e.pods else 0)
  {
    hide ReadInputs, Render, BreakingEntries, LogEntries, LogFileOf, Changed, Desired, Build, PodDefaults;
    hide ConfigDefaults;
    var s := PodDefaults(t.spec);
    BasicsFrame(t, s);
    CalmBasics(t, s, e);
    if ReadInputs(s).Some? {
      CalmConfig(EnsureBasics(t, s), s, ReadInputs(s).value, e);
    }
  }

  lemma CalmBasics(t: Store, s: Spec, e: Env)
    requires Calm(e)
    ensures BasicsWith(t, s, e) == EnsureBasics(t, s)
  {
  }

  lemma CalmConfig(t: Store, s: Spec, i: Inputs, e: Env)
    requires Calm(e)
    ensures ConfigWith(t, s, i, e) == WriteConfig(t, s, i) && ConfigWritten(t, s, i, e)
  {
    hide Render, BreakingEntries, LogEntries, LogFileOf, ConfigDefaults;
  }

  // ---------- Whatever fails ----------

  lemma ConfigWithFrame(t: Store, s: Spec, i: Inputs, e: Env)
    ensures var v := ConfigWith(t, s, i, e);
            && v.daemonSet == t.daemonSet && v.spec == t.spec && v.secrets == t.secrets && v.service == t.service
            && v.config == if ConfigWritten(t, s, i, e)
                           then Some(Render(ConfigDefaults(s), i,
                                            if t.config.Some? then t.config.value.foreign else map[]))
                           else t.config
  {
    hide Render, LogEntries, LogFileOf, ConfigDefaults;
  }

  /** The only DaemonSet a pass writes is the one of the spec it read. */
  lemma PassWithWrites(t: Store, e: Env)
    ensures var r := PassWith(t, e);
            && (r.store.daemonSet == t.daemonSet || r.store.daemonSet == Some(Desired(PodDefaults(t.spec))))
            && (r.failed ==> r.store.spec == t.spec)
            && (r.deleted > 0 ==> r.store.daemonSet == Some(Desired(PodDefaults(t.spec))) && r.deleted <= e.pods)
  {
    hide ReadInputs, Breaking, Changed, Desired, Build, PodDefaults, ConfigDefaults, ConfigWith, ConfigWritten;
    var s := PodDefaults(t.spec);
    if ReadInputs(s).Some? {
      ConfigWithFrame(BasicsWith(t, s, e), s, ReadInputs(s).value, e);
    }
  }

  lemma PassWithKeepsUsable(t: Store, e: Env)
    requires Usable(t)
    ensures Usable(PassWith(t, e).store)
  {
    hide PassWith, Desired, OperatorWritten, PodDefaults;
    PassWithWrites(t, e);
    DesiredIsOperatorWritten(t.spec);
  }

  datatype Event =
    | Edit(spec: Spec)
    | DaemonSetDeleted
    | SecretAdded(name: string)
    | SslStoreChanged(present: bool)
    | Reconcile(env: Env)

  function Apply(t: Store, event: Event): Store {
    match event
    case Edit(spec) => t.(spec := spec)
    case DaemonSetDeleted => t.(daemonSet := None)
    case SecretAdded(name) => t.(secrets := t.secrets + {name})
    case SslStoreChanged(present) => t.(sslStore := present)
    case Reconcile(env) => PassWith(t, env).store
  }

  function Run(t: Store, events: seq<Event>): Store
    decreases |events|
  {
    if events == [] then t else Run(Apply(t, events[0]), events[1..])
  }

  /** In every state of every run the DaemonSet, if there is one, has the template built from the
      spec saved in its own annotation. A state between two calls of a pass is the final state of
      the pass whose later calls all fail. */
  lemma {:induction false} RunKeepsUsable(t: Store, events: seq<Event>)
    requires Usable(t)
    ensures Usable(Run(t, events))
    decreases |events|
  {
    hide PassWith, OperatorWritten;
    if events != [] {
      if events[0].Reconcile? {
        PassWithKeepsUsable(t, events[0].env);
      }
      RunKeepsUsable(Apply(t, events[0]), events[1..]);
    }
  }

  // ---------- Failed restarts ----------

  /** The pass comes to write ma-config. */
  predicate Reaches(t: Store, e: Env) {
    var s := PodDefaults(t.spec);
    && GetInfraViz !in e.faults && GetDaemonSet !in e.faults
    && ReadInputs(s).Some? && ConfigWritten(t, s, ReadInputs(s).value, e)
  }

  /** The pass decides to restart the pods, saves the annotation and goes for them. */
  predicate Restarts(t: Store, e: Env) {
    && t.daemonSet.Some? && Reaches(t, e) && UpdateBeforeRestart !in e.faults
    && Breaking(t, PodDefaults(t.spec), ReadInputs(PodDefaults(t.spec)).value, t.daemonSet.value.annotation)
  }

  /** What a pass leaves of the three objects that decide about restarts. */
  lemma PassObjects(t: Store, e: Env)
    ensures var s := PodDefaults(t.spec);
            var u := PassWith(t, e).store;
            && (u.spec == t.spec || (t.daemonSet.Some? && Reaches(t, e) && u.spec == Json(FullDefaults(t.spec))))
            && (u.daemonSet == t.daemonSet || u.daemonSet == Some(Desired(s)))
            && (Restarts(t, e) ==> u.daemonSet == Some(Desired(s)))
            && (t.daemonSet.Some? && !Reaches(t, e) ==> u.daemonSet == t.daemonSet)
            && (PassWith(t, e).deleted > 0 ==> Restarts(t, e))
            && u.config == (if t.daemonSet.Some? && Reaches(t, e)
                            then Some(Render(ConfigDefaults(s), ReadInputs(s).value,
                                             if t.config.Some? then t.config.value.foreign else map[]))
                            else t.config)
  {
    hide ReadInputs, Changed, Desired, Build, PodDefaults, ConfigDefaults, Render, BreakingEntries, LogEntries;
    hide ConfigWith;
    var s := PodDefaults(t.spec);
    if ReadInputs(s).Some? {
      ConfigWithFrame(BasicsWith(t, s, e), s, ReadInputs(s).value, e);
    }
  }

  /** The pass does not come to store the defaults it has filled in. */
  predicate SpecUnwritten(t: Store, e: Env) {
    PassWith(t, e).failed || ListStatusPods in e.faults || UpdateInfraViz in e.faults
  }

  lemma UnwrittenIsUnchanged(t: Store, e: Env)
    requires SpecUnwritten(t, e)
    ensures PassWith(t, e).store.spec == t.spec
  {
    hide ReadInputs, Changed, Desired, Build, PodDefaults, ConfigDefaults, ConfigWith, ConfigWritten, Breaking;
    var s := PodDefaults(t.spec);
    if ReadInputs(s).Some? {
      ConfigWithFrame(BasicsWith(t, s, e), s, ReadInputs(s).value, e);
    }
  }

  /** What the pass after such a one does to the pods. If ma-config was not written, it decides as
      that one did or would have done. Otherwise it finds the entries in order and has only the
      annotation, and the one default still missing from the spec, to tell by. */
  lemma PassAfterFailure(t: Store, e: Env)
    requires t.daemonSet.Some? && ReadInputs(t.spec).Some? && SpecUnwritten(t, e)
    ensures var s := PodDefaults(t.spec);
            var left := PassWith(t, e).store;
            && left.spec == t.spec && left.daemonSet.Some?
            && (Pass(left).restarted <==>
                  if Reaches(t, e) then left.daemonSet.value.annotation != s || s.enableServerViz == ""
                  else Breaking(t, s, ReadInputs(t.spec).value, t.daemonSet.value.annotation))
  {
    hide ReadInputs, Changed, Desired, Build, PodDefaults, ConfigDefaults, Render, BreakingEntries, LogEntries;
    hide PassWith, SpecUnwritten, WriteConfig, Written;
    var s := PodDefaults(t.spec);
    var i := ReadInputs(t.spec).value;
    var left := PassWith(t, e).store;
    DefaultsKeepInputs(t.spec);
    PassObjects(t, e);
    UnwrittenIsUnchanged(t, e);
    BasicsFrame(left, s);
    RenderedEntries(t.spec, i, if t.config.Some? then t.config.value.foreign else map[]);
  }

  lemma RenderedEntries(spec: Spec, i: Inputs, foreign: map<string, string>)
    ensures var s := PodDefaults(spec);
            var c := Render(ConfigDefaults(s), i, foreign);
            && (BreakingEntries(c, s, i) <==> s.enableServerViz == "")
            && !LogEntries(c, s, i)
  {
    hide Itoa;
  }

  /** The defaulted spec is what its own annotation gives back, and lacks no default. */
  predicate Stays(spec: Spec) {
    Json(PodDefaults(spec)) == PodDefaults(spec) && spec.enableServerViz != ""
  }

  /** A restart that fails, be it before the first pod or between two, has already saved the new
      annotation. It is made up for, by the next pass or by any later one, if and only if the
      defaulted spec differs from what JSON gives back of it, or still lacks the last default. */
  lemma FailedRestartIsForgotten(t: Store, e: Env)
    requires Usable(t) && t.daemonSet.Some? && ReadInputs(t.spec).Some? && Reaches(t, e)
    requires Breaking(t, PodDefaults(t.spec), ReadInputs(t.spec).value, t.daemonSet.value.annotation)
    requires UpdateBeforeRestart !in e.faults && RestartFails(e)
    ensures var r := PassWith(t, e);
            && r.failed && r.deleted == Deleted(e) && r.store.daemonSet == Some(Desired(PodDefaults(t.spec)))
            && (Pass(r.store).restarted <==> !Stays(t.spec))
            && ((exists n: nat :: Pass(PassTimes(r.store, n)).restarted) <==> !Stays(t.spec))
  {
    hide ReadInputs, Changed, Build, PodDefaults, ConfigDefaults, Render, LogEntries, BreakingEntries;
    hide ConfigWith, ConfigWritten, WriteConfig, Written, Settled, JsonPod, OperatorWritten, Pass;
    var r := PassWith(t, e);
    DefaultsKeepInputs(t.spec);
    FailsAtRestart(t, e);
    PassAfterFailure(t, e);
    SameServerViz(t.spec);
    PassWithKeepsUsable(t, e);
    assert Pass(PassTimes(r.store, 0)).restarted <==> !Stays(t.spec);
    forall n: nat | Stays(t.spec)
      ensures !Pass(PassTimes(r.store, n)).restarted
    {
      LeftIsForgotten(r.store, n);
    }
  }

  lemma SameServerViz(s: Spec)
    ensures PodDefaults(s).enableServerViz == s.enableServerViz
  {
  }

  lemma FailsAtRestart(t: Store, e: Env)
    requires t.daemonSet.Some? && ReadInputs(t.spec).Some? && Reaches(t, e)
    requires Breaking(t, PodDefaults(t.spec), ReadInputs(t.spec).value, t.daemonSet.value.annotation)
    requires UpdateBeforeRestart !in e.faults && RestartFails(e)
    ensures var r := PassWith(t, e);
            && r.failed && r.deleted == Deleted(e) && r.store.daemonSet == Some(Desired(PodDefaults(t.spec)))
  {
    hide ReadInputs, Changed, Desired, Build, PodDefaults, ConfigDefaults, Render, LogEntries, BreakingEntries;
    hide ConfigWith;
    DefaultsKeepInputs(t.spec);
  }

  lemma LeftIsForgotten(t: Store, n: nat)
    requires t.daemonSet == Some(Desired(PodDefaults(t.spec))) && ReadInputs(t.spec).Some? && Stays(t.spec)
    ensures !Pass(t).restarted ==> !Pass(PassTimes(t, n)).restarted
  {
    hide ReadInputs, Pass, Settled, OperatorWritten, JsonPod, Build, PodDefaults;
    DesiredIsOperatorWritten(t.spec);
    TwoRestarts(t);
    TwoPassesSettle(t);
    LateDefault(t.spec);
    if n >= 2 {
      PassTimesTwo(t, n - 2);
      NeverAgain(Pass(Pass(t).store).store, n - 2);
    } else {
      assert PassTimes(t, 1) == Pass(PassTimes(t, 0)).store;
    }
  }

  // ---------- A bound on restarts ----------

  predicate Pending(t: Store) {
    var s := PodDefaults(t.spec);
    && ReadInputs(s).Some?
    && ((t.daemonSet.Some? && t.daemonSet.value.annotation != s)
        || (t.config.Some? && BreakingEntries(t.config.value, s, ReadInputs(s).value)))
  }

  function One(b: bool): nat {
    if b then 1 else 0
  }

  /** The restarts a state can still cause without an edit, if every write of the spec succeeds. */
  function Owed(t: Store): nat {
    One(Pending(t)) + One(!Stays(t.spec))
  }

  /** The pass leaves a spec as it is that still lacks a default or holds an empty list. */
  predicate LeavesUnfinished(t: Store, e: Env) {
    !Stays(t.spec) && PassWith(t, e).store.spec == t.spec
  }

  lemma StaysWhenStored(spec: Spec)
    ensures Stays(Json(FullDefaults(spec)))
    ensures PodDefaults(Json(FullDefaults(spec))) == Json(FullDefaults(spec))
    ensures Stays(spec) ==> Json(FullDefaults(spec)) == PodDefaults(spec) == ConfigDefaults(PodDefaults(spec))
  {
    StoredSpecIsFull(spec);
    LateDefault(Json(FullDefaults(spec)));
    FullOfStays(spec);
  }

  lemma FullOfStays(spec: Spec)
    ensures spec.enableServerViz != "" ==> FullDefaults(spec) == PodDefaults(spec)
  {
  }

  /** One pass: a restart is paid for by what was owed, unless the pass leaves unfinished a spec that
      lacks a default or holds an empty list. */
  lemma PassPays(t: Store, e: Env)
    ensures One(Restarts(t, e)) + Owed(PassWith(t, e).store) <= Owed(t) + One(LeavesUnfinished(t, e))
  {
    hide ReadInputs, Changed, Build, PodDefaults, ConfigDefaults, Render, BreakingEntries, LogEntries, PassWith;
    hide FullDefaults, Json, ConfigWritten, JsonPod;
    var s := PodDefaults(t.spec);
    PassObjects(t, e);
    StaysWhenStored(t.spec);
    DefaultsKeepInputs(t.spec);
    DefaultsKeepInputs(FullDefaults(t.spec));
    StoredInputs(t.spec);
    if ReadInputs(s).Some? {
      RenderedEntries(t.spec, ReadInputs(s).value, if t.config.Some? then t.config.value.foreign else map[]);
      StoredEntries(t.spec, ReadInputs(s).value, if t.config.Some? then t.config.value.foreign else map[]);
    }
    SameServerViz(t.spec);
  }

  lemma StoredInputs(spec: Spec)
    ensures ReadInputs(Json(FullDefaults(spec))) == ReadInputs(PodDefaults(spec))
  {
    hide ReadInputs, PodDefaults, ConfigDefaults, Json;
    DefaultsKeepInputs(PodDefaults(spec));
    DefaultsKeepInputs(FullDefaults(spec));
  }

  lemma StoredEntries(spec: Spec, i: Inputs, foreign: map<string, string>)
    ensures !BreakingEntries(Render(ConfigDefaults(PodDefaults(spec)), i, foreign), Json(FullDefaults(spec)), i)
  {
    hide Itoa, ContainerDefaults, ImageDefaults, JsonList, JsonMap;
  }

  /** An edit may owe one restart, and one more if its spec lacks a default or holds an empty list. */
  function Cost(t: Store, event: Event): nat {
    match event
    case Edit(spec) => if spec == t.spec then 0 else 1 + One(!Stays(spec))
    case Reconcile(env) => One(LeavesUnfinished(t, env))
    case _ => 0
  }

  function RunCost(t: Store, events: seq<Event>): nat
    decreases |events|
  {
    if events == [] then 0 else Cost(t, events[0]) + RunCost(Apply(t, events[0]), events[1..])
  }

  function RunRestarts(t: Store, events: seq<Event>): nat
    decreases |events|
  {
    if events == [] then 0
    else One(events[0].Reconcile? && Restarts(t, events[0].env)) + RunRestarts(Apply(t, events[0]), events[1..])
  }

  lemma EventPays(t: Store, event: Event)
    ensures One(event.Reconcile? && Restarts(t, event.env)) + Owed(Apply(t, event)) <= Owed(t) + Cost(t, event)
  {
    hide ReadInputs, PodDefaults, BreakingEntries, PassWith, Restarts, LeavesUnfinished, Stays;
    if event.Reconcile? {
      PassPays(t, event.env);
    }
  }

  /** In every run, whatever calls fail, the restarts together with those still owed are at most what
      was owed at the start, what the edits cost, and one for each pass that leaves an unfinished spec
      as it is. When the specs of a run all stay as they are written, that is one for each edit. */
  lemma {:induction false} RestartsBounded(t: Store, events: seq<Event>)
    ensures RunRestarts(t, events) + Owed(Run(t, events)) <= Owed(t) + RunCost(t, events)
    decreases |events|
  {
    hide PassWith, Restarts, Owed, Cost, Apply;
    if events != [] {
      EventPays(t, events[0]);
      RestartsBounded(Apply(t, events[0]), events[1..]);
    }
  }

  // ---------- The exception is real ----------

  function Again(e: Env, n: nat): seq<Event> {
    if n == 0 then [] else [Reconcile(e)] + Again(e, n - 1)
  }

  /** The pass reaches the pods but not the spec. */
  predicate OnlySpecFails(e: Env) {
    e.faults == {UpdateInfraViz} && e.pods <= e.deletable
  }

  /** For a spec that stays as it is written no such run restarts more than once; for every other one
      the pods are deleted again by each pass, with no edit, as long as writing the spec fails. */
  lemma RestartsWithoutEnd(t: Store, e: Env, n: nat)
    requires Usable(t) && t.daemonSet.Some? && ReadInputs(t.spec).Some? && OnlySpecFails(e)
    ensures Stays(t.spec) ==> RunRestarts(t, Again(e, n)) <= 1
    ensures !Stays(t.spec) ==> RunRestarts(t, Again(e, n + 1)) >= n
  {
    hide PassWith, Owed, Usable, ReadInputs, Stays, Restarts, Again, OnlySpecFails, Run, RunCost, Looping;
    if Stays(t.spec) {
      NothingUnfinished(t, e, n);
      RestartsBounded(t, Again(e, n));
      AtMostOne(t);
    } else {
      assert Again(e, n + 1) == [Reconcile(e)] + Again(e, n) by {
        AgainOnce(e, n);
      }
      UnwrittenPass(t, e);
      RestartsEachTime(PassWith(t, e).store, e, n);
      assert Again(e, n + 1)[1..] == Again(e, n);
    }
  }

  lemma AgainOnce(e: Env, n: nat)
    ensures Again(e, n + 1) == [Reconcile(e)] + Again(e, n)
  {
  }

  lemma AtMostOne(t: Store)
    requires Stays(t.spec)
    ensures Owed(t) <= 1
  {
    hide Pending, Stays;
  }

  lemma {:induction false} NothingUnfinished(t: Store, e: Env, n: nat)
    requires Stays(t.spec) && OnlySpecFails(e)
    ensures RunCost(t, Again(e, n)) == 0
    decreases n
  {
    hide PassWith, Stays;
    if n > 0 {
      UnwrittenIsUnchanged(t, e);
      AgainOnce(e, n - 1);
      assert Again(e, n)[1..] == Again(e, n - 1);
      NothingUnfinished(PassWith(t, e).store, e, n - 1);
    }
  }

  /** The config is rendered and the annotation is some operator's. */
  predicate Looping(t: Store) {
    var s := PodDefaults(t.spec);
    && ReadInputs(s).Some? && !Stays(t.spec)
    && t.daemonSet.Some? && OperatorWritten(t.daemonSet.value)
    && t.config.Some?
    && t.config.value == Render(ConfigDefaults(s), ReadInputs(s).value, t.config.value.foreign)
  }

  lemma UnwrittenPass(t: Store, e: Env)
    requires Usable(t) && t.daemonSet.Some? && ReadInputs(t.spec).Some? && OnlySpecFails(e) && !Stays(t.spec)
    ensures Looping(PassWith(t, e).store)
  {
    hide PassWith, ReadInputs, PodDefaults, ConfigDefaults, OperatorWritten, Desired, Stays, Restarts;
    hide LogEntries, Itoa;
    DefaultsKeepInputs(t.spec);
    PassWithKeepsUsable(t, e);
    UnwrittenIsUnchanged(t, e);
    PassObjects(t, e);
  }

  lemma LoopingBreaks(t: Store)
    requires Looping(t)
    ensures var s := PodDefaults(t.spec);
            Breaking(t, s, ReadInputs(s).value, t.daemonSet.value.annotation)
  {
    hide ReadInputs, PodDefaults, ConfigDefaults, Render, BreakingEntries, LogEntries, JsonPod, Build;
    SameServerViz(t.spec);
    RenderedEntries(t.spec, ReadInputs(PodDefaults(t.spec)).value, t.config.value.foreign);
  }

  lemma LoopingRestarts(t: Store, e: Env)
    requires Looping(t) && OnlySpecFails(e)
    ensures Restarts(t, e) && Looping(PassWith(t, e).store) && PassWith(t, e).deleted == e.pods
  {
    hide ReadInputs, PodDefaults, Render, Breaking, LogEntries, PassWith, Stays, OperatorWritten;
    DefaultsKeepInputs(t.spec);
    UnwrittenPass(t, e);
    LoopingBreaks(t);
    DeletesAll(t, e);
  }

  lemma DeletesAll(t: Store, e: Env)
    requires Restarts(t, e) && OnlySpecFails(e)
    ensures PassWith(t, e).deleted == e.pods
  {
    hide ReadInputs, Changed, Desired, Build, PodDefaults, ConfigDefaults, Render, LogEntries, BreakingEntries;
    hide ConfigWith;
  }

  lemma {:induction false} RestartsEachTime(t: Store, e: Env, n: nat)
    requires Looping(t) && OnlySpecFails(e)
    ensures RunRestarts(t, Again(e, n)) == n
    decreases n
  {
    hide PassWith, Looping, OnlySpecFails, Restarts;
    if n > 0 {
      LoopingRestarts(t, e);
      AgainOnce(e, n - 1);
      assert Again(e, n)[1..] == Again(e, n - 1);
      RestartsEachTime(PassWith(t, e).store, e, n - 1);
    }
  }

  // ---------- Every run settles ----------

  /** From every state of every run, however interrupted, with readable inputs in the stored spec:
      three passes without failures settle, and no later one restarts the pods. */
  lemma EveryRunSettles(t: Store, events: seq<Event>, n: nat)
    requires Usable(t) && ReadInputs(Run(t, events).spec).Some?
    ensures var u := Run(t, events);
            && Settled(PassTimes(u, 3)) && PassTimes(u, 3).spec == Json(FullDefaults(u.spec))
            && Settled(PassTimes(PassTimes(u, 3), n)) && !Pass(PassTimes(PassTimes(u, 3), n)).restarted
  {
    hide PassWith, ReadInputs, Pass, Settled, Usable, FullDefaults, Json;
    RunKeepsUsable(t, events);
    var u := Run(t, events);
    PassTimesTwo(u, 1);
    var two := Pass(Pass(u).store).store;
    assert PassTimes(two, 1) == Pass(PassTimes(two, 0)).store;
    if u.daemonSet.Some? {
      TwoPassesSettle(u);
      SettledIsStable(two);
    } else {
      InstallationSettles(u);
    }
    NeverAgain(PassTimes(u, 3), n);
  }
}

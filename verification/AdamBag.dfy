/** The configuration bag of the Adam agent and the merge of a spec into it. Of the bag's many
    fields those are kept that are compared for breaking changes, those that mark the
    instrumentation as updated, and one or two for each other way of merging. */
module AdamBag {
  import opened GoTypes
  import opened GoSlices

  /** One instrumentation rule: two of its lists, and the other fields together. */
  datatype Rule = Rule(text: string, namespaces: GoList<string>, matchString: GoList<string>)

  /** The fields whose assignment sets InstrumentationUpdated. */
  datatype Flagged = Flagged(
    instrumentationMethod: string,
    matchString: GoList<string>,
    nsToInstrument: GoList<string>,
    nsToInstrumentExclude: GoList<string>,
    rules: GoList<Rule>,
    biqService: string,
    agentEnvVar: string,
    appNameLiteral: string,
    appDAppLabel: string,
    appDTierLabel: string,
    agentOpts: string)

  /** The fields that restart the agent when they change. */
  datatype Connection = Connection(
    controllerUrl: string,
    account: string,
    globalAccount: string,
    appName: string,
    eventServiceUrl: string,
    systemSSLCert: string,
    agentSSLCert: string)

  datatype Spec = Spec(
    image: string,
    connection: Connection,
    flagged: Flagged,
    agentServerPort: int,
    netVizPort: int,
    nsToMonitor: GoList<string>,
    biqRequestMem: string,
    biqRequestCpu: string,
    customSSLConfigMap: string)

  datatype Bag = Bag(
    agentNamespace: string,
    secretVersion: string,
    connection: Connection,
    flagged: Flagged,
    agentServerPort: int,
    netVizPort: int,
    nsToMonitor: GoList<string>,
    biqRequestMem: string,
    biqRequestCpu: string,
    instrumentationUpdated: bool)

  function DefaultBag(): Bag {
    Bag("", "",
        Connection("", "", "", "K8s-Cluster-Agent", "", "/opt/appdynamics/ssl/appdsaascert.pem", "custom-ssl.pem"),
        Flagged("none", List([]), List([]), List([]), List([]), "none", "JAVA_OPTS", "",
                "appd-app", "appd-tier", ""),
        8989, 0, List([]), "600", "0.1", false)
  }

  // ---------- The merge ----------

  function OrElse(requested: string, current: string): string {
    if requested != "" then requested else current
  }

  /** The URL always, the rest only when given. */
  function MergeConnection(b: Connection, s: Connection): Connection {
    Connection(s.controllerUrl, OrElse(s.account, b.account), OrElse(s.globalAccount, b.globalAccount),
               OrElse(s.appName, b.appName), OrElse(s.eventServiceUrl, b.eventServiceUrl),
               OrElse(s.systemSSLCert, b.systemSSLCert), OrElse(s.agentSSLCert, b.agentSSLCert))
  }

  function Items<T>(l: GoList<T>): seq<T> {
    if l.Nil? then [] else l.items
  }

  /** A differing list is replaced by a copy, which is never nil. */
  function MergeList<T(==)>(b: GoList<T>, s: GoList<T>): GoList<T> {
    if b == s then b else List(Items(s))
  }

  function MergeFlagged(b: Flagged, s: Flagged): Flagged {
    Flagged(s.instrumentationMethod, MergeList(b.matchString, s.matchString),
            MergeList(b.nsToInstrument, s.nsToInstrument),
            MergeList(b.nsToInstrumentExclude, s.nsToInstrumentExclude), MergeList(b.rules, s.rules),
            s.biqService, OrElse(s.agentEnvVar, b.agentEnvVar), s.appNameLiteral,
            s.appDAppLabel, s.appDTierLabel, s.agentOpts)
  }

  /** Whether merging sets InstrumentationUpdated: the flagged fields differ, or an environment
      variable is given at all. */
  predicate MarksUpdated(b: Flagged, s: Flagged) {
    s.agentEnvVar != "" || s.(agentEnvVar := b.agentEnvVar) != b
  }

  /** `reconcileBag` on values. */
  function Merge(b: Bag, s: Spec, namespace: string, secretVersion: string): Bag {
    Bag(namespace, secretVersion,
        MergeConnection(b.connection, s.connection),
        MergeFlagged(b.flagged, s.flagged),
        if s.agentServerPort > 0 then s.agentServerPort else b.agentServerPort,
        s.netVizPort,
        if Items(s.nsToMonitor) != [] then s.nsToMonitor else b.nsToMonitor,
        b.biqRequestMem,
        if s.biqRequestMem != "" then s.biqRequestCpu else b.biqRequestCpu,
        MarksUpdated(b.flagged, s.flagged))
  }

  predicate HasNilList(s: Flagged) {
    s.matchString == Nil || s.nsToInstrument == Nil || s.nsToInstrumentExclude == Nil || s.rules == Nil
  }

  /** Merging the same spec again changes nothing but the flag, which then stays set exactly when
      the spec leaves out one of the four lists or gives an environment variable. */
  lemma MergeTwice(b: Bag, s: Spec, namespace: string, version: string)
    ensures var once := Merge(b, s, namespace, version);
            var twice := Merge(once, s, namespace, version);
            && twice == once.(instrumentationUpdated := twice.instrumentationUpdated)
            && Merge(twice, s, namespace, version) == twice
    ensures b.flagged.matchString.List? && b.flagged.nsToInstrument.List?
            && b.flagged.nsToInstrumentExclude.List? && b.flagged.rules.List? ==>
              (Merge(Merge(b, s, namespace, version), s, namespace, version).instrumentationUpdated
               <==> HasNilList(s.flagged) || s.flagged.agentEnvVar != "")
  {
  }

  /** A flag that ends false means that none of the eleven fields changed; the converse fails only
      for an environment variable that is given again and for a list left out over one that is
      present. */
  lemma FlagFalseMeansUnchanged(b: Bag, s: Spec, namespace: string, version: string)
    ensures var after := Merge(b, s, namespace, version);
            && (!after.instrumentationUpdated ==> after.flagged == b.flagged)
            && (after.flagged == b.flagged ==>
                  (after.instrumentationUpdated <==>
                     s.flagged.agentEnvVar != ""
                     || (s.flagged.matchString == Nil && b.flagged.matchString != Nil)
                     || (s.flagged.nsToInstrument == Nil && b.flagged.nsToInstrument != Nil)
                     || (s.flagged.nsToInstrumentExclude == Nil && b.flagged.nsToInstrumentExclude != Nil)
                     || (s.flagged.rules == Nil && b.flagged.rules != Nil)))
  {
  }

  /** Writing the ConfigMap merges into the defaults and not into the previous bag, so its flag
      tells whether the spec differs from the defaults: it is false only for a spec that spells
      all of them out. */
  lemma FlagComparesWithDefaults(s: Spec, namespace: string, version: string)
    ensures Merge(DefaultBag(), s, namespace, version).instrumentationUpdated
            <==> s.flagged != DefaultBag().flagged.(agentEnvVar := "")
  {
  }

  /** Exactly when the BiQ requests come out merged like the other optional fields. The memory never
      takes the requested value, so only when none or the present one is requested; the CPU is
      taken when a memory is requested, so only when the two requests come together, or there is
      nothing to take or to lose. */
  lemma BiqMemoryIsDropped(b: Bag, s: Spec, namespace: string, version: string)
    ensures var after := Merge(b, s, namespace, version);
            && (after.biqRequestMem == OrElse(s.biqRequestMem, b.biqRequestMem)
                <==> s.biqRequestMem == "" || s.biqRequestMem == b.biqRequestMem)
            && (after.biqRequestCpu == OrElse(s.biqRequestCpu, b.biqRequestCpu)
                <==> if s.biqRequestMem != "" then s.biqRequestCpu != "" || b.biqRequestCpu == ""
                     else s.biqRequestCpu == "" || s.biqRequestCpu == b.biqRequestCpu)
  {
  }

  // ---------- The merge in place ----------

  /** `make` and `copy`: the copy of a nil slice is empty. */
  method CopyOf<T(0)>(a: array?<T>) returns (copy: array<T>)
    ensures fresh(copy) && copy[..] == Items(ListView(a))
  {
    if a == null {
      copy := new T[0];
    } else {
      var same := CopySlice(a);
      copy := same;
    }
  }

  /** A list inside a rule. */
  type InnerSlice = Cell?<seq<string>>

  function InnerView(s: InnerSlice): GoList<string> {
    if s == null then Nil else List(s.value)
  }

  /** A rule as an element of a slice: a struct whose lists are references. */
  datatype RuleRef = RuleRef(text: string, namespaces: InnerSlice, matchString: InnerSlice)

  function RuleValue(r: RuleRef): Rule {
    Rule(r.text, InnerView(r.namespaces), InnerView(r.matchString))
  }

  function RuleValues(rs: seq<RuleRef>): (r: seq<Rule>) {
    seq(|rs|, i requires 0 <= i < |rs| => RuleValue(rs[i]))
  }

  function RulesView(a: array?<RuleRef>): GoList<Rule>
    reads a
  {
    if a == null then Nil else List(RuleValues(a[..]))
  }

  /** Replaces a list by a copy of a differing one. */
  method TakeList<T(0,==)>(current: array?<T>, requested: array?<T>) returns (merged: array?<T>, updated: bool)
    ensures ListView(merged) == MergeList(ListView(current), ListView(requested))
    ensures updated == (ListView(current) != ListView(requested))
    ensures merged == current || (merged != null && fresh(merged))
  {
    var same := DeepEqualSlices(current, requested);
    if same {
      return current, false;
    }
    merged := CopyOf(requested);
    updated := true;
  }

  /** Replaces the rules by a copy of differing ones. The copy is a new slice of the very structs of
      the old one, so it shares the lists inside them. */
  method TakeRules(current: array?<RuleRef>, requested: array?<RuleRef>)
    returns (merged: array?<RuleRef>, updated: bool)
    ensures RulesView(merged) == MergeList(RulesView(current), RulesView(requested))
    ensures updated == (RulesView(current) != RulesView(requested))
    ensures merged == current || (merged != null && fresh(merged))
    ensures if updated then Items(ListView(merged)) == Items(ListView(requested)) else merged == current
  {
    if RulesView(current) == RulesView(requested) {
      return current, false;
    }
    merged := CopyOf(requested);
    updated := true;
  }

  /** Replaces a list by a copy of one that has elements. */
  method TakeNonEmpty<T(0,==)>(current: array?<T>, requested: array?<T>) returns (merged: array?<T>)
    ensures ListView(merged) == if Items(ListView(requested)) != [] then ListView(requested) else ListView(current)
    ensures merged == current || (merged != null && fresh(merged))
  {
    merged := current;
    if requested != null && requested.Length > 0 {
      merged := CopyOf(requested);
    }
  }

  /** The lists of a bag or a spec, as references. */
  datatype Slices = Slices(
    matchString: array?<string>,
    nsToInstrument: array?<string>,
    nsToInstrumentExclude: array?<string>,
    rules: array?<RuleRef>,
    nsToMonitor: array?<string>)
  {
    function View(): ListValues
      reads matchString, nsToInstrument, nsToInstrumentExclude, rules, nsToMonitor
    {
      ListValues(ListView(matchString), ListView(nsToInstrument), ListView(nsToInstrumentExclude),
                 RulesView(rules), ListView(nsToMonitor))
    }
  }

  /** The lists of a bag or a spec, as values. */
  datatype ListValues = ListValues(
    matchString: GoList<string>,
    nsToInstrument: GoList<string>,
    nsToInstrumentExclude: GoList<string>,
    rules: GoList<Rule>,
    nsToMonitor: GoList<string>)

  ghost predicate NotIn(a: array?<string>, spec: Slices) {
    a == null || (a != spec.matchString && a != spec.nsToInstrument && a != spec.nsToInstrumentExclude
                  && a != spec.nsToMonitor)
  }

  /** None of the five slices belongs to both. */
  ghost predicate Apart(bag: Slices, spec: Slices) {
    && NotIn(bag.matchString, spec) && NotIn(bag.nsToInstrument, spec) && NotIn(bag.nsToInstrumentExclude, spec)
    && NotIn(bag.nsToMonitor, spec) && (bag.rules == null || bag.rules != spec.rules)
  }

  /** The elements of the two rule slices are the same structs, with the same lists inside. */
  ghost predicate SharesRules(bag: Slices, spec: Slices)
    reads bag.rules, spec.rules
  {
    Items(ListView(bag.rules)) == Items(ListView(spec.rules))
  }

  ghost function MergeListValues(b: ListValues, s: ListValues): ListValues {
    ListValues(MergeList(b.matchString, s.matchString), MergeList(b.nsToInstrument, s.nsToInstrument),
               MergeList(b.nsToInstrumentExclude, s.nsToInstrumentExclude), MergeList(b.rules, s.rules),
               if Items(s.nsToMonitor) != [] then s.nsToMonitor else b.nsToMonitor)
  }

  ghost predicate ListsDiffer(b: ListValues, s: ListValues) {
    || b.matchString != s.matchString || b.nsToInstrument != s.nsToInstrument
    || b.nsToInstrumentExclude != s.nsToInstrumentExclude || b.rules != s.rules
  }

  /** The three string lists that steer the instrumentation. */
  method TakeInstrumentation(bag: Slices, spec: Slices)
    returns (matched: array?<string>, instrumented: array?<string>, excluded: array?<string>, updated: bool)
    ensures ListView(matched) == MergeList(ListView(bag.matchString), ListView(spec.matchString))
    ensures ListView(instrumented) == MergeList(ListView(bag.nsToInstrument), ListView(spec.nsToInstrument))
    ensures ListView(excluded) == MergeList(ListView(bag.nsToInstrumentExclude), ListView(spec.nsToInstrumentExclude))
    ensures updated == (ListView(bag.matchString) != ListView(spec.matchString)
                        || ListView(bag.nsToInstrument) != ListView(spec.nsToInstrument)
                        || ListView(bag.nsToInstrumentExclude) != ListView(spec.nsToInstrumentExclude))
    ensures matched == bag.matchString || (matched != null && fresh(matched))
    ensures instrumented == bag.nsToInstrument || (instrumented != null && fresh(instrumented))
    ensures excluded == bag.nsToInstrumentExclude || (excluded != null && fresh(excluded))
  {
    hide MergeList, ListView, Items;
    var updated1, updated2, updated3;
    matched, updated1 := TakeList(bag.matchString, spec.matchString);
    instrumented, updated2 := TakeList(bag.nsToInstrument, spec.nsToInstrument);
    excluded, updated3 := TakeList(bag.nsToInstrumentExclude, spec.nsToInstrumentExclude);
    updated := updated1 || updated2 || updated3;
  }

  /** The namespaces to monitor and the instrumentation rules. */
  method TakeMonitoring(bag: Slices, spec: Slices)
    returns (monitored: array?<string>, ruled: array?<RuleRef>, updated: bool)
    ensures ListView(monitored) == if Items(ListView(spec.nsToMonitor)) != [] then ListView(spec.nsToMonitor)
                                   else ListView(bag.nsToMonitor)
    ensures RulesView(ruled) == MergeList(RulesView(bag.rules), RulesView(spec.rules))
    ensures updated == (RulesView(bag.rules) != RulesView(spec.rules))
    ensures if updated then Items(ListView(ruled)) == Items(ListView(spec.rules)) else ruled == bag.rules
    ensures monitored == bag.nsToMonitor || (monitored != null && fresh(monitored))
    ensures ruled == bag.rules || (ruled != null && fresh(ruled))
  {
    hide MergeList, ListView, RulesView, Items;
    monitored := TakeNonEmpty(bag.nsToMonitor, spec.nsToMonitor);
    ruled, updated := TakeRules(bag.rules, spec.rules);
  }

  /** The list part of `reconcileBag`. Each of the five slices taken over is a fresh copy, so that
      bag and spec never share one of them, and nothing that existed before is written to. The
      lists inside the rules are shared when the rules are taken over. */
  method TakeLists(bag: Slices, spec: Slices) returns (merged: Slices, updated: bool)
    requires Apart(bag, spec)
    ensures merged.View() == MergeListValues(bag.View(), spec.View())
    ensures updated == ListsDiffer(bag.View(), spec.View())
    ensures Apart(merged, spec)
    ensures if bag.View().rules != spec.View().rules then SharesRules(merged, spec) else merged.rules == bag.rules
  {
    hide MergeList, ListView, RulesView;
    var matched, instrumented, excluded, updated1 := TakeInstrumentation(bag, spec);
    var monitored, ruled, updated2 := TakeMonitoring(bag, spec);
    updated := updated1 || updated2;
    merged := Slices(matched, instrumented, excluded, ruled, monitored);
  }

  // ---------- reconcileBag ----------

  function PutLists(b: Bag, l: ListValues): Bag {
    b.(flagged := b.flagged.(matchString := l.matchString, nsToInstrument := l.nsToInstrument,
                             nsToInstrumentExclude := l.nsToInstrumentExclude, rules := l.rules),
       nsToMonitor := l.nsToMonitor)
  }

  function ListsOf(f: Flagged, monitored: GoList<string>): ListValues {
    ListValues(f.matchString, f.nsToInstrument, f.nsToInstrumentExclude, f.rules, monitored)
  }

  function PutSpecLists(s: Spec, l: ListValues): Spec {
    s.(flagged := s.flagged.(matchString := l.matchString, nsToInstrument := l.nsToInstrument,
                             nsToInstrumentExclude := l.nsToInstrumentExclude, rules := l.rules),
       nsToMonitor := l.nsToMonitor)
  }

  method ReconcileConnection(bag: Connection, s: Connection) returns (merged: Connection)
    ensures merged == MergeConnection(bag, s)
  {
    merged := bag.(controllerUrl := s.controllerUrl);
    if s.account != "" {
      merged := merged.(account := s.account);
    }
    if s.globalAccount != "" {
      merged := merged.(globalAccount := s.globalAccount);
    }
    if s.eventServiceUrl != "" {
      merged := merged.(eventServiceUrl := s.eventServiceUrl);
    }
    if s.appName != "" {
      merged := merged.(appName := s.appName);
    }
    if s.systemSSLCert != "" {
      merged := merged.(systemSSLCert := s.systemSSLCert);
    }
    if s.agentSSLCert != "" {
      merged := merged.(agentSSLCert := s.agentSSLCert);
    }
  }

  /** Whether a flagged field that is not a list marks the instrumentation as updated. */
  predicate PlainFieldsDiffer(b: Flagged, s: Flagged) {
    || s.agentEnvVar != "" || b.instrumentationMethod != s.instrumentationMethod || b.biqService != s.biqService
    || b.appNameLiteral != s.appNameLiteral || b.appDAppLabel != s.appDAppLabel
    || b.appDTierLabel != s.appDTierLabel || b.agentOpts != s.agentOpts
  }

  /** The merge without the five lists. */
  function MergePlain(b: Bag, s: Spec, namespace: string, secretVersion: string): Bag {
    Merge(b, s, namespace, secretVersion).(
      flagged := MergeFlagged(b.flagged, s.flagged).(
        matchString := b.flagged.matchString, nsToInstrument := b.flagged.nsToInstrument,
        nsToInstrumentExclude := b.flagged.nsToInstrumentExclude, rules := b.flagged.rules),
      nsToMonitor := b.nsToMonitor,
      instrumentationUpdated := PlainFieldsDiffer(b.flagged, s.flagged))
  }

  /** The merge is the merge of the plain fields, which do not depend on any list, and then that
      of the lists. */
  lemma PlainThenLists(b: Bag, bl: ListValues, s: Spec, sl: ListValues, namespace: string, version: string)
    ensures Merge(PutLists(b, bl), PutSpecLists(s, sl), namespace, version)
         == var plain := MergePlain(b, s, namespace, version);
            PutLists(plain, MergeListValues(bl, sl)).(
              instrumentationUpdated := plain.instrumentationUpdated || ListsDiffer(bl, sl))
  {
  }

  /** The flagged fields that are not lists. */
  method ReconcileFlagged(bag: Flagged, s: Flagged) returns (merged: Flagged, updated: bool)
    ensures merged == MergeFlagged(bag, s).(matchString := bag.matchString, nsToInstrument := bag.nsToInstrument,
                                            nsToInstrumentExclude := bag.nsToInstrumentExclude, rules := bag.rules)
    ensures updated == PlainFieldsDiffer(bag, s)
  {
    merged, updated := bag, false;
    if bag.instrumentationMethod != s.instrumentationMethod {
      updated := true;
      merged := merged.(instrumentationMethod := s.instrumentationMethod);
    }
    if s.biqService != bag.biqService {
      merged := merged.(biqService := s.biqService);
      updated := true;
    }
    if s.agentEnvVar != "" {
      merged := merged.(agentEnvVar := s.agentEnvVar);
      updated := true;
    }
    if bag.appNameLiteral != s.appNameLiteral {
      merged := merged.(appNameLiteral := s.appNameLiteral);
      updated := true;
    }
    if s.appDAppLabel != bag.appDAppLabel {
      merged := merged.(appDAppLabel := s.appDAppLabel);
      updated := true;
    }
    if s.appDTierLabel != bag.appDTierLabel {
      merged := merged.(appDTierLabel := s.appDTierLabel);
      updated := true;
    }
    if bag.agentOpts != s.agentOpts {
      merged := merged.(agentOpts := s.agentOpts);
      updated := true;
    }
  }

  /** Everything but the lists. */
  method ReconcilePlain(bag: Bag, s: Spec, namespace: string, secretVersion: string) returns (merged: Bag)
    ensures merged == MergePlain(bag, s, namespace, secretVersion)
  {
    merged := bag.(instrumentationUpdated := false, secretVersion := secretVersion, agentNamespace := namespace);
    var connection := ReconcileConnection(bag.connection, s.connection);
    merged := merged.(connection := connection);
    if s.agentServerPort > 0 {
      merged := merged.(agentServerPort := s.agentServerPort);
    }
    if merged.netVizPort != s.netVizPort {
      merged := merged.(netVizPort := s.netVizPort);
    }
    var flagged, updated := ReconcileFlagged(bag.flagged, s.flagged);
    merged := merged.(flagged := flagged, instrumentationUpdated := updated);
    if s.biqRequestMem != "" {
      merged := merged.(biqRequestCpu := s.biqRequestCpu);
    }
  }

  /** A bag whose lists live on the heap; the list fields of `value` are not used. */
  class AppDBag {
    var value: Bag
    var slices: Slices

    constructor (value: Bag, slices: Slices)
      ensures this.value == value && this.slices == slices
    {
      this.value := value;
      this.slices := slices;
    }

    function Contents(): Bag
      reads this, slices.matchString, slices.nsToInstrument, slices.nsToInstrumentExclude
      reads slices.rules, slices.nsToMonitor
    {
      PutLists(value, slices.View())
    }

    /** The list part of `reconcileBag`. */
    method TakeSpecLists(spec: Slices) returns (updated: bool)
      requires Apart(slices, spec)
      modifies this`slices
      ensures slices.View() == MergeListValues(old(slices.View()), spec.View())
      ensures updated == ListsDiffer(old(slices.View()), spec.View())
      ensures spec.View() == old(spec.View())
      ensures Apart(slices, spec)
      ensures if old(slices.View()).rules != spec.View().rules then SharesRules(slices, spec)
              else slices.rules == old(slices.rules)
    {
      hide MergeListValues, ListsDiffer, Apart, ListView, RulesView, SharesRules;
      var merged;
      merged, updated := TakeLists(slices, spec);
      slices := merged;
    }

    /** Merges the spec into the bag in place, as Merge says. None of the five slices is shared with
        the spec; the lists inside the rules are, exactly when the rules were taken over. */
    method ReconcileBag(s: Spec, specSlices: Slices, namespace: string, secretVersion: string)
      requires Apart(slices, specSlices)
      modifies this
      ensures Contents() == Merge(old(Contents()), PutSpecLists(s, specSlices.View()), namespace, secretVersion)
      ensures Apart(slices, specSlices)
      ensures if old(Contents()).flagged.rules != specSlices.View().rules then SharesRules(slices, specSlices)
              else slices.rules == old(slices.rules)
    {
      hide MergePlain, Merge, MergeListValues, ListsDiffer, Apart, ListView, RulesView, SharesRules;
      PlainThenLists(value, slices.View(), s, specSlices.View(), namespace, secretVersion);
      var listsChanged := TakeSpecLists(specSlices);
      var plain := ReconcilePlain(value, s, namespace, secretVersion);
      value := plain.(instrumentationUpdated := plain.instrumentationUpdated || listsChanged);
    }
  }

  // ---------- From stored values and back ----------

  method InnerSliceOf(l: GoList<string>) returns (s: InnerSlice)
    ensures InnerView(s) == l
  {
    match l
    case Nil => s := null;
    case List(items) => s := new Cell(items);
  }

  method RuleSliceOf(l: GoList<Rule>) returns (a: array?<RuleRef>)
    ensures RulesView(a) == l && (a != null ==> fresh(a))
  {
    match l
    case Nil => a := null;
    case List(items) =>
      var refs: seq<RuleRef> := [];
      for i := 0 to |items|
        invariant RuleValues(refs) == items[..i]
      {
        var namespaces := InnerSliceOf(items[i].namespaces);
        var matchString := InnerSliceOf(items[i].matchString);
        refs := refs + [RuleRef(items[i].text, namespaces, matchString)];
        assert RuleValues(refs)[i] == items[i];
      }
      a := SliceOf(List(refs));
  }

  /** The slices of a decoded object, which belong to no other one. */
  method SlicesOf(l: ListValues, other: Slices) returns (slices: Slices)
    ensures slices.View() == l && Apart(slices, other)
  {
    hide ListView, RulesView;
    var matched := SliceOf(l.matchString);
    var instrumented := SliceOf(l.nsToInstrument);
    var excluded := SliceOf(l.nsToInstrumentExclude);
    var ruled := RuleSliceOf(l.rules);
    var monitored := SliceOf(l.nsToMonitor);
    slices := Slices(matched, instrumented, excluded, ruled, monitored);
  }

  /** The bag that is written to the ConfigMap: the default properties with the spec merged in. */
  method MergedBag(s: Spec, namespace: string, secretVersion: string) returns (bag: Bag)
    ensures bag == Merge(DefaultBag(), s, namespace, secretVersion)
  {
    hide Merge, ListView, RulesView, Apart;
    var d := DefaultBag();
    var specSlices := SlicesOf(ListsOf(s.flagged, s.nsToMonitor), Slices(null, null, null, null, null));
    var slices := SlicesOf(ListsOf(d.flagged, d.nsToMonitor), specSlices);
    var properties := new AppDBag(d, slices);
    properties.ReconcileBag(s, specSlices, namespace, secretVersion);
    bag := properties.Contents();
  }
}

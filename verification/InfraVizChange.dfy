/** `hasDSpecChanged` on the heap: a deep copy of the spec, six of its fields overwritten from
    the existing template, and a comparison of the two. Slices and maps are references here, nil
    ones null, so that sharing one would show. */
module InfraVizChange {
  import opened GoTypes
  import opened GoSlices
  import opened InfraVizSpec

  class StringMap {
    var entries: map<string, string>

    constructor (entries: map<string, string>)
      ensures this.entries == entries
    {
      this.entries := entries;
    }
  }

  ghost function MapView(m: StringMap?): GoMap<string, string>
    reads m
  {
    if m == null then NilMap else Map(m.entries)
  }

  // ---------- Elements with a pointer inside ----------

  datatype EnvRef = EnvRef(name: string, value: string, secret: Cell?<(string, string)>)

  function EnvValue(r: EnvRef): EnvVar {
    EnvVar(r.name, r.value, Pointed(r.secret))
  }

  function EnvValues(rs: seq<EnvRef>): seq<EnvVar> {
    seq(|rs|, i requires 0 <= i < |rs| => EnvValue(rs[i]))
  }

  function EnvView(a: array?<EnvRef>): GoList<EnvVar>
    reads a
  {
    if a == null then Nil else List(EnvValues(a[..]))
  }

  /** The slice is new, and so is everything its elements point to. */
  twostate predicate NewEnv(new a: array?<EnvRef>)
    reads a
  {
    a != null ==> fresh(a) && forall k | 0 <= k < a.Length :: a[k].secret == null || fresh(a[k].secret)
  }

  method CopyEnv(a: array?<EnvRef>) returns (copy: array?<EnvRef>)
    ensures EnvView(copy) == EnvView(a) && NewEnv(copy)
  {
    if a == null {
      return null;
    }
    copy := new EnvRef[a.Length];
    for i := 0 to a.Length
      invariant forall k | 0 <= k < i :: EnvValue(copy[k]) == EnvValue(a[k])
      invariant forall k | 0 <= k < i :: copy[k].secret == null || fresh(copy[k].secret)
    {
      var secret := CopyPointer(a[i].secret);
      copy[i] := a[i].(secret := secret);
    }
    assert EnvValues(copy[..]) == EnvValues(a[..]);
  }

  method EnvOf(l: GoList<EnvVar>) returns (a: array?<EnvRef>)
    ensures EnvView(a) == l
  {
    match l
    case Nil => a := null;
    case List(items) =>
      var refs: seq<EnvRef> := [];
      for i := 0 to |items|
        invariant EnvValues(refs) == items[..i]
      {
        var secret := PointerTo(items[i].secret);
        refs := refs + [EnvRef(items[i].name, items[i].value, secret)];
        assert EnvValues(refs)[i] == items[i];
      }
      a := SliceOf(List(refs));
  }

  datatype TolerationRef = TolerationRef(
    key: string, operator: string, value: string, effect: string, seconds: Cell?<int>)

  function TolerationValue(r: TolerationRef): Toleration {
    Toleration(r.key, r.operator, r.value, r.effect, Pointed(r.seconds))
  }

  function TolerationValues(rs: seq<TolerationRef>): seq<Toleration> {
    seq(|rs|, i requires 0 <= i < |rs| => TolerationValue(rs[i]))
  }

  function TolerationView(a: array?<TolerationRef>): GoList<Toleration>
    reads a
  {
    if a == null then Nil else List(TolerationValues(a[..]))
  }

  twostate predicate NewTolerations(new a: array?<TolerationRef>)
    reads a
  {
    a != null ==> fresh(a) && forall k | 0 <= k < a.Length :: a[k].seconds == null || fresh(a[k].seconds)
  }

  method CopyTolerations(a: array?<TolerationRef>) returns (copy: array?<TolerationRef>)
    ensures TolerationView(copy) == TolerationView(a) && NewTolerations(copy)
  {
    if a == null {
      return null;
    }
    copy := new TolerationRef[a.Length];
    for i := 0 to a.Length
      invariant forall k | 0 <= k < i :: TolerationValue(copy[k]) == TolerationValue(a[k])
      invariant forall k | 0 <= k < i :: copy[k].seconds == null || fresh(copy[k].seconds)
    {
      var seconds := CopyPointer(a[i].seconds);
      copy[i] := a[i].(seconds := seconds);
    }
    assert TolerationValues(copy[..]) == TolerationValues(a[..]);
  }

  method TolerationsOf(l: GoList<Toleration>) returns (a: array?<TolerationRef>)
    ensures TolerationView(a) == l
  {
    match l
    case Nil => a := null;
    case List(items) =>
      var refs: seq<TolerationRef> := [];
      for i := 0 to |items|
        invariant TolerationValues(refs) == items[..i]
      {
        var t := items[i];
        var seconds := PointerTo(t.seconds);
        refs := refs + [TolerationRef(t.key, t.operator, t.value, t.effect, seconds)];
        assert TolerationValues(refs)[i] == items[i];
      }
      a := SliceOf(List(refs));
  }

  // ---------- Copying ----------

  method CopyMap(m: StringMap?) returns (copy: StringMap?)
    ensures MapView(copy) == MapView(m)
    ensures copy == null || fresh(copy)
  {
    if m == null {
      return null;
    }
    copy := new StringMap(map[]);
    var left := m.entries.Keys;
    while left != {}
      invariant left <= m.entries.Keys
      invariant copy.entries.Keys == m.entries.Keys - left
      invariant forall k | k in copy.entries :: copy.entries[k] == m.entries[k]
      decreases |left|
    {
      var key :| key in left;
      copy.entries := copy.entries[key := m.entries[key]];
      left := left - {key};
    }
  }

  // ---------- The objects ----------

  /** The pod template of a DaemonSet as far as it is compared: of its first container the fields
      that are read, and how many containers and which ports the second one has. */
  class TemplateObject {
    var containers: nat
    var secondPorts: seq<int>
    var image: string
    var args: array?<string>
    var env: array?<EnvRef>
    var limits: StringMap?
    var requests: StringMap?
    var nodeSelector: StringMap?
    var tolerations: array?<TolerationRef>

    constructor (containers: nat, secondPorts: seq<int>, image: string, args: array?<string>, env: array?<EnvRef>,
                 limits: StringMap?, requests: StringMap?, nodeSelector: StringMap?, tolerations: array?<TolerationRef>)
      ensures this.containers == containers && this.secondPorts == secondPorts && this.image == image
      ensures this.args == args && this.env == env && this.limits == limits && this.requests == requests
      ensures this.nodeSelector == nodeSelector && this.tolerations == tolerations
    {
      this.containers, this.secondPorts, this.image := containers, secondPorts, image;
      this.args, this.env, this.limits, this.requests := args, env, limits, requests;
      this.nodeSelector, this.tolerations := nodeSelector, tolerations;
    }

    /** What ShownBy reads off the template. */
    ghost function Shown(s: Spec): Spec
      reads this, args, env, limits, requests, nodeSelector, tolerations
    {
      s.(image := if containers >= 1 then image else "",
         env := if containers >= 1 then EnvView(env) else Nil,
         nodeSelector := MapView(nodeSelector),
         tolerations := TolerationView(tolerations),
         args := if containers >= 1 then ListView(args) else Nil,
         resources := if containers >= 1 then Resources(MapView(limits), MapView(requests)) else NO_RESOURCES)
    }

    /** The object holds the template `p`. */
    ghost predicate Holds(p: PodSpec)
      reads this, args, env, limits, requests, nodeSelector, tolerations
    {
      && containers == |p.containers|
      && (containers >= 2 ==> secondPorts == p.containers[1].ports)
      && (containers >= 1 ==>
            && image == p.containers[0].image && ListView(args) == p.containers[0].args
            && EnvView(env) == p.containers[0].env
            && Resources(MapView(limits), MapView(requests)) == p.containers[0].resources)
      && MapView(nodeSelector) == p.nodeSelector && TolerationView(tolerations) == p.tolerations
    }
  }

  /** The spec: `plain` holds the image and the fields that are neither slices nor maps. */
  class SpecObject {
    var plain: Spec
    var nodeSelector: StringMap?
    var tolerations: array?<TolerationRef>
    var args: array?<string>
    var env: array?<EnvRef>
    var limits: StringMap?
    var requests: StringMap?

    ghost function View(): Spec
      reads this, nodeSelector, tolerations, args, env, limits, requests
    {
      plain.(nodeSelector := MapView(nodeSelector), tolerations := TolerationView(tolerations),
             args := ListView(args), env := EnvView(env),
             resources := Resources(MapView(limits), MapView(requests)))
    }

    /** The slices and maps it refers to. */
    ghost function Parts(): set<object?>
      reads this
    {
      {args, env, limits, requests, tolerations, nodeSelector} - {null}
    }

    constructor (plain: Spec)
      ensures Parts() == {}
      ensures View() == plain.(nodeSelector := NilMap, tolerations := Nil, args := Nil, env := Nil,
                               resources := NO_RESOURCES)
    {
      this.plain := plain;
      nodeSelector, tolerations, args, env, limits, requests := null, null, null, null, null, null;
    }

    /** A spec of slices and maps that nothing else refers to. */
    constructor Of(plain: Spec, nodeSelector: StringMap?, tolerations: array?<TolerationRef>, args: array?<string>,
                   env: array?<EnvRef>, limits: StringMap?, requests: StringMap?)
      ensures View() == plain.(nodeSelector := MapView(nodeSelector), tolerations := TolerationView(tolerations),
                               args := ListView(args), env := EnvView(env),
                               resources := Resources(MapView(limits), MapView(requests)))
    {
      this.plain, this.nodeSelector, this.tolerations := plain, nodeSelector, tolerations;
      this.args, this.env, this.limits, this.requests := args, env, limits, requests;
    }

    lemma Expand()
      ensures View() == plain.(nodeSelector := MapView(nodeSelector), tolerations := TolerationView(tolerations),
                               args := ListView(args), env := EnvView(env),
                               resources := Resources(MapView(limits), MapView(requests)))
    {
    }

    method SetImage(image: string)
      modifies this`plain
      ensures View() == old(View()).(image := image)
      ensures Parts() == old(Parts())
    {
      plain := plain.(image := image);
    }

    method SetArgs(source: array?<string>)
      modifies this`args
      ensures View() == old(View()).(args := ListView(source))
      ensures forall o | o in Parts() :: o in old(Parts()) || fresh(o)
    {
      args := CopySlice(source);
    }

    method SetEnv(source: array?<EnvRef>)
      modifies this`env
      ensures View() == old(View()).(env := EnvView(source)) && NewEnv(env)
      ensures forall o | o in Parts() :: o in old(Parts()) || fresh(o)
    {
      env := CopyEnv(source);
    }

    method SetTolerations(source: array?<TolerationRef>)
      modifies this`tolerations
      ensures View() == old(View()).(tolerations := TolerationView(source)) && NewTolerations(tolerations)
      ensures forall o | o in Parts() :: o in old(Parts()) || fresh(o)
    {
      tolerations := CopyTolerations(source);
    }

    method SetNodeSelector(source: StringMap?)
      modifies this`nodeSelector
      ensures View() == old(View()).(nodeSelector := MapView(source))
      ensures forall o | o in Parts() :: o in old(Parts()) || fresh(o)
    {
      nodeSelector := CopyMap(source);
    }

    method SetResources(newLimits: StringMap?, newRequests: StringMap?)
      modifies this`limits, this`requests
      ensures View() == old(View()).(resources := Resources(MapView(newLimits), MapView(newRequests)))
      ensures forall o | o in Parts() :: o in old(Parts()) || fresh(o)
    {
      limits := CopyMap(newLimits);
      requests := CopyMap(newRequests);
    }

    /** Copies the spec with storage of its own for every slice and map, and for what the elements of
        the slices point to. */
    method DeepCopy() returns (out: SpecObject)
      ensures fresh(out) && forall o | o in out.Parts() :: fresh(o)
      ensures NewEnv(out.env) && NewTolerations(out.tolerations)
      ensures out.View() == View()
    {
      hide View, Parts, ListView, EnvView, TolerationView, MapView;
      Expand();
      out := new SpecObject(plain);
      CopyMapsInto(out);
      CopySlicesInto(out);
    }

    method CopyMapsInto(out: SpecObject)
      requires out != this
      modifies out`nodeSelector, out`limits, out`requests
      ensures out.View() == old(out.View()).(nodeSelector := MapView(nodeSelector),
                                             resources := Resources(MapView(limits), MapView(requests)))
      ensures forall o | o in out.Parts() :: o in old(out.Parts()) || fresh(o)
    {
      hide View, Parts, ListView, EnvView, TolerationView, MapView;
      out.SetNodeSelector(nodeSelector);
      out.SetResources(limits, requests);
    }

    method CopySlicesInto(out: SpecObject)
      requires out != this
      modifies out`tolerations, out`args, out`env
      ensures out.View() == old(out.View()).(tolerations := TolerationView(tolerations), args := ListView(args),
                                             env := EnvView(env))
      ensures NewEnv(out.env) && NewTolerations(out.tolerations)
      ensures forall o | o in out.Parts() :: o in old(out.Parts()) || fresh(o)
    {
      hide View, Parts, ListView, EnvView, TolerationView, MapView;
      out.SetTolerations(tolerations);
      out.SetArgs(args);
      out.SetEnv(env);
    }
  }

  /** Overwrites the six fields of the clone, again with storage of their own. */
  method CloneCurrentSpec(ds: TemplateObject, clone: SpecObject)
    modifies clone
    ensures clone.View() == ds.Shown(old(clone.View())) && NewEnv(clone.env) && NewTolerations(clone.tolerations)
    ensures forall o | o in clone.Parts() :: o in old(clone.Parts()) || fresh(o)
  {
    hide SpecObject.View, SpecObject.Parts;
    clone.SetImage(if ds.containers >= 1 then ds.image else "");
    clone.SetEnv(if ds.containers >= 1 then ds.env else null);
    clone.SetNodeSelector(ds.nodeSelector);
    clone.SetTolerations(ds.tolerations);
    clone.SetArgs(if ds.containers >= 1 then ds.args else null);
    clone.SetResources(null, null);
    if ds.containers >= 1 {
      clone.SetResources(ds.limits, ds.requests);
    }
  }

  // ---------- From values ----------

  method MapOf(m: GoMap<string, string>) returns (o: StringMap?)
    ensures MapView(o) == m
  {
    match m
    case NilMap => o := null;
    case Map(entries) => o := new StringMap(entries);
  }

  /** The decoded template of a DaemonSet. */
  method TemplateOf(p: PodSpec) returns (o: TemplateObject)
    ensures fresh(o) && o.Holds(p)
  {
    hide ListView, EnvView, TolerationView, MapView;
    var containers := |p.containers|;
    var first := if containers >= 1 then p.containers[0]
                 else Container("", "", Nil, Nil, Nil, NO_RESOURCES, [], []);
    var args := SliceOf(first.args);
    var env := EnvOf(first.env);
    var limits := MapOf(first.resources.limits);
    var requests := MapOf(first.resources.requests);
    var nodeSelector := MapOf(p.nodeSelector);
    var tolerations := TolerationsOf(p.tolerations);
    o := new TemplateObject(containers, if containers >= 2 then p.containers[1].ports else [], first.image,
                            args, env, limits, requests, nodeSelector, tolerations);
  }

  /** The spec of a decoded resource. */
  method SpecOf(s: Spec) returns (o: SpecObject)
    ensures fresh(o) && o.View() == s
  {
    hide SpecObject.View, SpecObject.Parts, ListView, EnvView, TolerationView, MapView;
    var args := SliceOf(s.args);
    var env := EnvOf(s.env);
    var limits := MapOf(s.resources.limits);
    var requests := MapOf(s.resources.requests);
    var nodeSelector := MapOf(s.nodeSelector);
    var tolerations := TolerationsOf(s.tolerations);
    o := new SpecObject.Of(s, nodeSelector, tolerations, args, env, limits, requests);
  }

  // ---------- The comparison ----------

  method MapsEqual(a: StringMap?, b: StringMap?) returns (same: bool)
    ensures same == (MapView(a) == MapView(b))
  {
    same := if a == null || b == null then a == null && b == null else a.entries == b.entries;
  }

  /** `reflect.DeepEqual` of two specs. */
  method DeepEqual(a: SpecObject, b: SpecObject) returns (same: bool)
    ensures same == (a.View() == b.View())
  {
    hide ListView, EnvView, TolerationView, MapView;
    var nodeSelectors := MapsEqual(a.nodeSelector, b.nodeSelector);
    var limits := MapsEqual(a.limits, b.limits);
    var requests := MapsEqual(a.requests, b.requests);
    var tolerations := TolerationView(a.tolerations) == TolerationView(b.tolerations);
    var args := DeepEqualSlices(a.args, b.args);
    var envs := EnvView(a.env) == EnvView(b.env);
    var plains :=
      a.plain.(nodeSelector := NilMap, tolerations := Nil, args := Nil, env := Nil, resources := NO_RESOURCES)
      == b.plain.(nodeSelector := NilMap, tolerations := Nil, args := Nil, env := Nil, resources := NO_RESOURCES);
    same := nodeSelectors && limits && requests && tolerations && args && envs && plains;
  }

  /** Decides like `Changed`, for all templates the two objects hold. Having no modifies clause,
      it leaves all three arguments, and everything they reach, as they were. */
  method HasDSpecChanged(ds: TemplateObject, newSpec: TemplateObject, iv: SpecObject) returns (changed: bool)
    ensures forall p, q {:trigger ds.Holds(p), newSpec.Holds(q)} ::
              ds.Holds(p) && newSpec.Holds(q) ==> changed == Changed(p, q, iv.View())
  {
    hide SpecObject.View, ListView, EnvView, TolerationView, MapView;
    if ds.containers != newSpec.containers {
      return true;
    }
    if ds.containers == 2 && |ds.secondPorts| > 0 && |newSpec.secondPorts| > 0 {
      if ds.secondPorts[0] != newSpec.secondPorts[0] {
        return true;
      }
    }
    var clone := iv.DeepCopy();
    CloneCurrentSpec(ds, clone);
    var same := DeepEqual(iv, clone);
    changed := !same;
    forall p | ds.Holds(p) ensures ShownBy(p, iv.View()) == ds.Shown(iv.View()) {
    }
  }
}

/** The pod filter of the cluster agent, printed as one YAML flow mapping
    (section 7.4 of YAML 1.2.2) by appending to a builder and trimming commas. */
module PodFilter {
  import opened Text
  import opened GoTypes

  /** One Go map of labels, its pairs listed in the order in which `range` visits them. */
  type LabelMap = seq<(string, string)>

  datatype Filter = Filter(
    whitelistedNames: GoList<string>,
    blacklistedNames: GoList<string>,
    whitelistedLabels: GoList<LabelMap>,
    blacklistedLabels: GoList<LabelMap>)

  const WHITELISTED := "whitelisted"
  const BLACKLISTED := "blacklisted"

  // ---------- The fields ----------

  function NamesHeader(namesType: string): string {
    " " + namesType + "-names: ["
  }

  function LabelsHeader(labelsType: string): string {
    " " + labelsType + "-labels: ["
  }

  function CommaAfterEach(items: seq<string>): string {
    if items == [] then "" else items[0] + "," + CommaAfterEach(items[1..])
  }

  function LabelItem(pair: (string, string)): string {
    "{ " + pair.0 + ": " + pair.1 + " }"
  }

  function Flatten<T>(maps: seq<seq<T>>): seq<T> {
    if maps == [] then [] else maps[0] + Flatten(maps[1..])
  }

  function LabelItems(labels: seq<(string, string)>): (items: seq<string>)
    ensures |items| == |labels|
    ensures forall i | 0 <= i < |labels| :: items[i] == LabelItem(labels[i])
  {
    if labels == [] then [] else [LabelItem(labels[0])] + LabelItems(labels[1..])
  }

  method ParseNameField(names: seq<string>, namesType: string) returns (namesString: string)
    ensures namesString == NamesHeader(namesType) + TrimRight(CommaAfterEach(names), ',')
  {
    var builder := " " + namesType + "-names: [";
    for i := 0 to |names|
      invariant builder == NamesHeader(namesType) + CommaAfterEach(names[..i])
    {
      CommaAfterEachConcat(names[..i], [names[i]]);
      assert names[..i + 1] == names[..i] + [names[i]];
      builder := builder + names[i] + ",";
    }
    assert names[..|names|] == names;
    TrimBehindHeader(NamesHeader(namesType), CommaAfterEach(names));
    namesString := TrimRight(builder, ',');
  }

  method ParseLabelField(labels: seq<LabelMap>, labelsType: string) returns (labelsString: string)
    ensures labelsString == LabelsHeader(labelsType) + Join(LabelItems(Flatten(labels)), ',')
  {
    var builder := " " + labelsType + "-labels: [";
    for i := 0 to |labels|
      invariant builder == LabelsHeader(labelsType) + LabelsText(Flatten(labels[..i]))
    {
      var m := labels[i];
      ghost var before := Flatten(labels[..i]);
      assert before + m[..0] == before;
      for j := 0 to |m|
        invariant builder == LabelsHeader(labelsType) + LabelsText(before + m[..j])
      {
        AppendItem(LabelsHeader(labelsType), before + m[..j], m[j]);
        assert before + m[..j + 1] == before + m[..j] + [m[j]];
        builder := builder + ("{ " + m[j].0 + ": " + m[j].1 + " },");
      }
      assert m[..|m|] == m;
      FlattenConcat(labels[..i], [m]);
      assert labels[..i + 1] == labels[..i] + [m];
    }
    assert labels[..|labels|] == labels;
    TrimBehindHeader(LabelsHeader(labelsType), LabelsText(Flatten(labels)));
    TrimmedLabels(Flatten(labels));
    labelsString := TrimRight(builder, ',');
  }

  ghost function LabelsText(labels: seq<(string, string)>): string {
    CommaAfterEach(LabelItems(labels))
  }

  lemma {:induction false} CommaAfterEachConcat(a: seq<string>, b: seq<string>)
    ensures CommaAfterEach(a + b) == CommaAfterEach(a) + CommaAfterEach(b)
  {
    if a == [] {
      assert a + b == b;
    } else {
      assert (a + b)[1..] == a[1..] + b;
      CommaAfterEachConcat(a[1..], b);
    }
  }

  lemma {:induction false} FlattenConcat<T>(a: seq<seq<T>>, b: seq<seq<T>>)
    ensures Flatten(a + b) == Flatten(a) + Flatten(b)
    ensures |b| == 1 ==> Flatten(b) == b[0]
  {
    if a == [] {
      assert a + b == b;
    } else {
      assert (a + b)[1..] == a[1..] + b;
      FlattenConcat(a[1..], b);
    }
  }

  lemma AppendItem(header: string, labels: seq<(string, string)>, pair: (string, string))
    ensures header + LabelsText(labels + [pair])
         == header + LabelsText(labels) + ("{ " + pair.0 + ": " + pair.1 + " },")
  {
    var item := LabelItem(pair);
    assert LabelItems(labels + [pair]) == LabelItems(labels) + [item];
    CommaAfterEachConcat(LabelItems(labels), [item]);
    assert CommaAfterEach([item]) == item + "," + "" == item + ",";
    ItemText(pair);
    assert header + (LabelsText(labels) + (item + ",")) == header + LabelsText(labels) + (item + ",");
  }

  lemma ItemText(pair: (string, string))
    ensures LabelItem(pair) + "," == "{ " + pair.0 + ": " + pair.1 + " },"
  {
    var head := "{ " + pair.0 + ": " + pair.1;
    assert " }" + "," == " },";
    assert head + " }" + "," == head + (" }" + ",");
  }

  lemma {:induction false} TrimBehindHeader(header: string, text: string)
    requires header != "" && !EndsWith(header, ',')
    ensures TrimRight(header + text, ',') == header + TrimRight(text, ',')
  {
    var s := header + text;
    if text == "" {
      assert s == header;
    } else {
      assert s[..|s| - 1] == header + text[..|text| - 1];
      if EndsWith(text, ',') {
        TrimBehindHeader(header, text[..|text| - 1]);
      }
    }
  }

  // ---------- Append-then-trim is a join ----------

  lemma {:induction false} CommaAfterEachIsJoin(items: seq<string>)
    requires items != []
    ensures CommaAfterEach(items) == Join(items, ',') + ","
  {
    if |items| > 1 {
      CommaAfterEachIsJoin(items[1..]);
    }
  }

  lemma {:induction false} JoinEnd(items: seq<string>, c: char)
    requires items != []
    ensures var last := items[|items| - 1];
            EndsWith(Join(items, c), c) <==> EndsWith(last, c) || (last == "" && |items| > 1)
  {
    if |items| > 1 {
      JoinEnd(items[1..], c);
    }
  }

  lemma {:induction false} TrimRightLength(s: string, c: char)
    ensures |TrimRight(s, c)| <= |s|
    ensures EndsWith(s, c) ==> |TrimRight(s, c)| < |s|
  {
    if EndsWith(s, c) {
      TrimRightLength(s[..|s| - 1], c);
    }
  }

  /** The names are printed as their comma-separated join exactly when the join does not itself
      end in a comma: no names, a last name that neither is empty nor ends in a comma, or the
      single name "". */
  lemma NameFieldIsJoin(names: seq<string>)
    ensures TrimRight(CommaAfterEach(names), ',') == Join(names, ',')
            <==> names == [] || names == [""]
                 || (names[|names| - 1] != "" && !EndsWith(names[|names| - 1], ','))
  {
    if names != [] {
      var joined := Join(names, ',');
      CommaAfterEachIsJoin(names);
      JoinEnd(names, ',');
      if EndsWith(joined, ',') {
        var text := joined + ",";
        assert text[..|text| - 1] == joined;
        assert TrimRight(text, ',') == TrimRight(joined, ',');
        TrimRightLength(joined, ',');
      } else {
        TrimRightOnce(joined, ',');
      }
    }
  }

  /** Label items end in a brace, so for labels the trim always undoes exactly one comma. */
  lemma TrimmedLabels(labels: seq<(string, string)>)
    ensures TrimRight(CommaAfterEach(LabelItems(labels)), ',') == Join(LabelItems(labels), ',')
  {
    NameFieldIsJoin(LabelItems(labels));
  }

  // ---------- The whole filter ----------

  function NamesSection(names: GoList<string>, namesType: string): string {
    match names
    case Nil => ""
    case List(items) => NamesHeader(namesType) + TrimRight(CommaAfterEach(items), ',') + "],"
  }

  function LabelsSection(labels: GoList<LabelMap>, labelsType: string): string {
    match labels
    case Nil => ""
    case List(maps) => LabelsHeader(labelsType) + Join(LabelItems(Flatten(maps)), ',') + "],"
  }

  function Sections(f: Filter): string {
    LabelsSection(f.blacklistedLabels, BLACKLISTED)
    + LabelsSection(f.whitelistedLabels, WHITELISTED)
    + NamesSection(f.blacklistedNames, BLACKLISTED)
    + NamesSection(f.whitelistedNames, WHITELISTED)
  }

  function DropLast(s: string): string {
    if s == "" then "" else s[..|s| - 1]
  }

  /** The printed filter: the sections without the last comma, in braces. */
  function Print(f: Filter): string {
    "{" + DropLast(Sections(f)) + "}"
  }

  method CreatePodFilterString(f: Filter) returns (text: string)
    ensures text == Print(f)
  {
    var builder := "{";
    if f.blacklistedLabels != Nil {
      var field := ParseLabelField(f.blacklistedLabels.items, BLACKLISTED);
      builder := builder + (field + "],");
    }
    ghost var a := LabelsSection(f.blacklistedLabels, BLACKLISTED);
    assert builder == "{" + a;
    if f.whitelistedLabels != Nil {
      var field := ParseLabelField(f.whitelistedLabels.items, WHITELISTED);
      builder := builder + (field + "],");
    }
    ghost var b := LabelsSection(f.whitelistedLabels, WHITELISTED);
    assert builder == "{" + a + b;
    if f.blacklistedNames != Nil {
      var field := ParseNameField(f.blacklistedNames.items, BLACKLISTED);
      builder := builder + (field + "],");
    }
    ghost var c := NamesSection(f.blacklistedNames, BLACKLISTED);
    assert builder == "{" + a + b + c;
    if f.whitelistedNames != Nil {
      var field := ParseNameField(f.whitelistedNames.items, WHITELISTED);
      builder := builder + (field + "],");
    }
    ghost var d := NamesSection(f.whitelistedNames, WHITELISTED);
    assert builder == "{" + a + b + c + d;
    Regroup("{", a, b, c, d);
    TrimSections(f);
    text := TrimRight(builder, ',') + "}";
  }

  lemma Regroup(open: string, a: string, b: string, c: string, d: string)
    ensures open + a + b + c + d == open + (a + b + c + d)
  {
  }

  lemma TrimSections(f: Filter)
    ensures TrimRight("{" + Sections(f), ',') == "{" + DropLast(Sections(f))
  {
    TrimBehindHeader("{", Sections(f));
    SectionsEnd(f);
    var s := Sections(f);
    if s != "" {
      TrimRightOnce(s[..|s| - 1], ',');
      assert s == s[..|s| - 1] + [','];
    }
  }

  lemma SectionsEnd(f: Filter)
    ensures var s := Sections(f);
            s != "" ==> |s| >= 2 && s[|s| - 1] == ',' && s[|s| - 2] == ']'
  {
    hide LabelsSection, NamesSection;
    var a := LabelsSection(f.blacklistedLabels, BLACKLISTED);
    var b := LabelsSection(f.whitelistedLabels, WHITELISTED);
    var c := NamesSection(f.blacklistedNames, BLACKLISTED);
    var d := NamesSection(f.whitelistedNames, WHITELISTED);
    SectionEnd(f);
    LastTwo(a + b + c, d);
    LastTwo(a + b, c);
    LastTwo(a, b);
  }

  predicate Closed(s: string) {
    s == "" || (|s| >= 2 && s[|s| - 1] == ',' && s[|s| - 2] == ']')
  }

  lemma SectionEnd(f: Filter)
    ensures Closed(LabelsSection(f.blacklistedLabels, BLACKLISTED))
    ensures Closed(LabelsSection(f.whitelistedLabels, WHITELISTED))
    ensures Closed(NamesSection(f.blacklistedNames, BLACKLISTED))
    ensures Closed(NamesSection(f.whitelistedNames, WHITELISTED))
  {
  }

  lemma LastTwo(t: string, u: string)
    requires Closed(t) && Closed(u)
    ensures Closed(t + u)
  {
    if u == "" {
      assert t + u == t;
    } else {
      assert (t + u)[|t + u| - 1] == u[|u| - 1];
      assert (t + u)[|t + u| - 2] == u[|u| - 2];
    }
  }

  // ---------- What the agent reads ----------

  lemma LabelHeaders()
    ensures LabelsHeader(BLACKLISTED) == " blacklisted-labels: ["
    ensures LabelsHeader(WHITELISTED) == " whitelisted-labels: ["
  {
  }

  lemma NameHeaders()
    ensures NamesHeader(BLACKLISTED) == " blacklisted-names: ["
    ensures NamesHeader(WHITELISTED) == " whitelisted-names: ["
  {
  }

  lemma JoinTwo(first: string, second: string)
    ensures Join([first, second], ',') == first + "," + second
  {
    assert [first, second][1..] == [second];
  }

  /** Two labels of a section; which maps they come from does not show. */
  lemma PrintedLabels(k: string, v: string, l: string, w: string)
    ensures Join(LabelItems(Flatten([[(k, v), (l, w)]])), ',')
            == Join(LabelItems(Flatten([[(k, v)], [(l, w)]])), ',')
            == "{ " + k + ": " + v + " }" + "," + ("{ " + l + ": " + w + " }")
  {
    hide Join;
    var first, second := LabelItem((k, v)), LabelItem((l, w));
    assert Flatten([[(k, v), (l, w)]]) == [(k, v), (l, w)] by {
      FlattenConcat([], [[(k, v), (l, w)]]);
    }
    assert Flatten([[(k, v)], [(l, w)]]) == [(k, v), (l, w)] by {
      FlattenConcat([[(k, v)]], [[(l, w)]]);
      FlattenConcat([], [[(k, v)]]);
      assert [[(k, v)], [(l, w)]] == [[(k, v)]] + [[(l, w)]];
    }
    assert LabelItems([(k, v), (l, w)]) == [first, second];
    JoinTwo(first, second);
  }

  /** A filter with any of the four lists, in the order and under the names that the agent knows. */
  lemma PrintedFilter(f: Filter, inner: string)
    requires inner + ","
          == (match f.blacklistedLabels
              case Nil => ""
              case List(maps) => " blacklisted-labels: [" + Join(LabelItems(Flatten(maps)), ',') + "],")
             + (match f.whitelistedLabels
                case Nil => ""
                case List(maps) => " whitelisted-labels: [" + Join(LabelItems(Flatten(maps)), ',') + "],")
             + (match f.blacklistedNames
                case Nil => ""
                case List(names) => " blacklisted-names: [" + TrimRight(CommaAfterEach(names), ',') + "],")
             + (match f.whitelistedNames
                case Nil => ""
                case List(names) => " whitelisted-names: [" + TrimRight(CommaAfterEach(names), ',') + "],")
    ensures Print(f) == "{" + inner + "}"
  {
    hide LabelsHeader, NamesHeader, LabelItems, Flatten, CommaAfterEach, TrimRight, Join;
    LabelHeaders();
    NameHeaders();
    assert Sections(f) == inner + ",";
    DropOne(inner);
  }

  lemma DropOne(inner: string)
    ensures DropLast(inner + ",") == inner
  {
  }

  /** A filter with no list at all. */
  lemma PrintedEmpty()
    ensures Print(Filter(Nil, Nil, Nil, Nil)) == "{}"
  {
  }
}

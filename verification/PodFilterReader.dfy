/** What a reader can recover from a printed pod filter, and the brackets it prints. */
module PodFilterReader {
  import opened Text
  import opened GoTypes
  import opened PodFilter

  /** A filter as far as its text tells: which sections are present, names in order, and the
      label pairs of all maps in iteration order. */
  datatype Reading = Reading(
    whitelistedNames: GoList<string>,
    blacklistedNames: GoList<string>,
    whitelistedLabels: GoList<(string, string)>,
    blacklistedLabels: GoList<(string, string)>)

  function FlattenLabels(labels: GoList<LabelMap>): GoList<(string, string)> {
    match labels case Nil => Nil case List(maps) => List(Flatten(maps))
  }

  function Visible(f: Filter): Reading {
    Reading(f.whitelistedNames, f.blacklistedNames,
            FlattenLabels(f.whitelistedLabels), FlattenLabels(f.blacklistedLabels))
  }

  // ---------- The reader ----------

  function TakeSection(text: string, header: string): (Option<string>, string) {
    if header <= text then
      var body := text[|header|..];
      var rest := AfterFirst(body, ']');
      (Some(BeforeFirst(body, ']')), if StartsWith(rest, ',') then rest[1..] else rest)
    else
      (None, text)
  }

  function ReadNames(content: Option<string>): GoList<string> {
    match content
    case None => Nil
    case Some(s) => List(if s == "" then [] else Split(s, ','))
  }

  function ReadItem(item: string): (string, string) {
    if |item| < 4 then ("", "")
    else
      var pair := item[2..|item| - 2];
      var value := AfterFirst(pair, ':');
      (BeforeFirst(pair, ':'), if value == "" then "" else value[1..])
  }

  function ReadItems(items: seq<string>): (r: seq<(string, string)>)
    ensures |r| == |items|
    ensures forall i | 0 <= i < |items| :: r[i] == ReadItem(items[i])
  {
    if items == [] then [] else [ReadItem(items[0])] + ReadItems(items[1..])
  }

  function ReadLabels(content: Option<string>): GoList<(string, string)> {
    match content
    case None => Nil
    case Some(s) => List(if s == "" then [] else ReadItems(Split(s, ',')))
  }

  function Read(text: string): Option<Reading> {
    if !("{" <= text) then None
    else
      var (bl, r1) := TakeSection(text[1..], LabelsHeader(BLACKLISTED));
      var (wl, r2) := TakeSection(r1, LabelsHeader(WHITELISTED));
      var (bn, r3) := TakeSection(r2, NamesHeader(BLACKLISTED));
      var (wn, r4) := TakeSection(r3, NamesHeader(WHITELISTED));
      if r4 == "}" then Some(Reading(ReadNames(wn), ReadNames(bn), ReadLabels(wl), ReadLabels(bl))) else None
  }

  // ---------- The round trip ----------

  predicate PlainName(name: string) {
    Free(name, ',') && Free(name, ']')
  }

  predicate PlainLabel(pair: (string, string)) {
    && Free(pair.0, ',') && Free(pair.0, ']') && Free(pair.0, ':')
    && Free(pair.1, ',') && Free(pair.1, ']')
  }

  predicate PlainNames(names: GoList<string>) {
    names.List? ==> forall i | 0 <= i < |names.items| :: PlainName(names.items[i])
  }

  predicate PlainLabels(labels: GoList<(string, string)>) {
    labels.List? ==> AllPlain(labels.items)
  }

  /** The trimming of commas takes nothing away but the one that was appended. */
  predicate LastNamed(names: GoList<string>) {
    names.List? && names.items != [] ==> names.items[|names.items| - 1] != ""
  }

  /** No name or label holds a delimiter that the reader cuts at. */
  predicate Plain(r: Reading) {
    && PlainNames(r.whitelistedNames) && PlainNames(r.blacklistedNames)
    && PlainLabels(r.whitelistedLabels) && PlainLabels(r.blacklistedLabels)
  }

  lemma NamesContent(names: seq<string>)
    requires PlainNames(List(names))
    ensures var content := TrimRight(CommaAfterEach(names), ',');
            Free(content, ']') && (ReadNames(Some(content)) == List(names) <==> LastNamed(List(names)))
  {
    if names != [] {
      hide Join, TrimRight, Split, CommaAfterEach, Free;
      assert AllFree(names, ',') && AllFree(names, ']') by {
        assert forall i | 0 <= i < |names| :: PlainName(names[i]);
      }
      var joined := Join(names, ',');
      CommaAfterEachIsJoin(names);
      JoinFree(names, ',', ']');
      CommaFree(joined);
      TrimRightFree(joined + ",", ',', ']');
      if LastNamed(List(names)) {
        NamedContent(names);
      } else {
        UnnamedContent(names);
      }
    }
  }

  lemma CommaFree(s: string)
    requires Free(s, ']')
    ensures Free(s + ",", ']')
  {
  }

  lemma NamedContent(names: seq<string>)
    requires names != [] && AllFree(names, ',') && names[|names| - 1] != ""
    ensures ReadNames(Some(TrimRight(CommaAfterEach(names), ','))) == List(names)
  {
    hide Join, TrimRight, Split, CommaAfterEach;
    assert Free(names[|names| - 1], ',');
    NameFieldIsJoin(names);
    JoinThenSplit(names, ',');
    NonEmptyJoin(names);
  }

  /** What the trim leaves over does not end in a comma, so no last name read from it is empty. */
  lemma UnnamedContent(names: seq<string>)
    requires names != [] && names[|names| - 1] == ""
    ensures ReadNames(Some(TrimRight(CommaAfterEach(names), ','))) != List(names)
  {
    hide Join, TrimRight, Split, CommaAfterEach, AllFree;
    var content := TrimRight(CommaAfterEach(names), ',');
    var _ := TrimRightShape(CommaAfterEach(names), ',');
    var pieces := Split(content, ',');
    SplitThenJoin(content, ',');
    JoinEnd(pieces, ',');
    if pieces == names {
      if |names| == 1 {
        assert names == [""];
        OnePiece("");
      }
    }
  }

  lemma OnePiece(part: string)
    ensures Join([part], ',') == part
  {
  }

  lemma {:induction false} TrimRightFree(s: string, c: char, d: char)
    requires Free(s, d)
    ensures Free(TrimRight(s, c), d)
  {
    if EndsWith(s, c) {
      TrimRightFree(s[..|s| - 1], c, d);
    }
  }

  lemma {:induction false} NonEmptyJoin(items: seq<string>)
    requires items != [] && items[|items| - 1] != ""
    ensures Join(items, ',') != ""
  {
    if |items| > 1 {
      NonEmptyJoin(items[1..]);
    }
  }

  lemma ReadsItem(pair: (string, string))
    requires PlainLabel(pair)
    ensures ReadItem(LabelItem(pair)) == pair
    ensures Free(LabelItem(pair), ',') && Free(LabelItem(pair), ']')
  {
    var item := LabelItem(pair);
    var inner := pair.0 + [':'] + (" " + pair.1);
    assert item == "{ " + inner + " }";
    assert item[2..|item| - 2] == inner;
    FirstOfConcat(pair.0, " " + pair.1, ':');
    assert (" " + pair.1)[1..] == pair.1;
  }

  predicate AllPlain(labels: seq<(string, string)>) {
    forall i | 0 <= i < |labels| :: PlainLabel(labels[i])
  }

  lemma {:induction false} ReadsItems(labels: seq<(string, string)>)
    requires AllPlain(labels)
    ensures ReadItems(LabelItems(labels)) == labels
    ensures AllFree(LabelItems(labels), ',') && AllFree(LabelItems(labels), ']')
  {
    hide ReadItem, LabelItem, PlainLabel, Free;
    if labels != [] {
      ReadsItem(labels[0]);
      ReadsItems(labels[1..]);
      assert LabelItems(labels)[1..] == LabelItems(labels[1..]);
    }
  }

  lemma LabelsContent(labels: seq<(string, string)>)
    requires AllPlain(labels)
    ensures var content := Join(LabelItems(labels), ',');
            Free(content, ']') && ReadLabels(Some(content)) == List(labels)
  {
    hide ReadItem, LabelItem, AllPlain, AllFree;
    if labels != [] {
      var items := LabelItems(labels);
      ReadsItems(labels);
      JoinThenSplit(items, ',');
      JoinFree(items, ',', ']');
      LastItem(labels);
      NonEmptyJoin(items);
    }
  }

  lemma LastItem(labels: seq<(string, string)>)
    requires labels != []
    ensures LabelItems(labels)[|labels| - 1] != ""
  {
    assert LabelItem(labels[|labels| - 1])[0] == '{';
  }

  /** The text after the sections already read. */
  function Remaining(sections: string): string {
    DropLast(sections) + "}"
  }

  lemma TakesPresent(header: string, content: string, sections: string)
    requires Free(content, ']') && Closed(sections)
    ensures TakeSection(Remaining(header + content + "]," + sections), header)
         == (Some(content), Remaining(sections))
  {
    var text := Remaining(header + content + "]," + sections);
    var tail := if sections == "" then "}" else "," + Remaining(sections);
    RemainingSplit(header, content, sections);
    assert text == header + (content + [']'] + tail);
    assert text[|header|..] == content + [']'] + tail;
    FirstOfConcat(content, tail, ']');
    assert header <= text;
    assert ("," + Remaining(sections))[1..] == Remaining(sections);
    assert Remaining("") == "}";
  }

  lemma RemainingSplit(header: string, content: string, sections: string)
    requires Closed(sections)
    ensures Remaining(header + content + "]," + sections)
         == header + (content + [']'] + (if sections == "" then "}" else "," + Remaining(sections)))
  {
    var printed := header + content + "]," + sections;
    if sections == "" {
      assert printed == header + content + [']'] + [','];
      assert DropLast(printed) == header + content + [']'];
    } else {
      assert DropLast(printed) == header + content + "]," + DropLast(sections);
    }
  }

  /** Two positions tell the four headers apart. */
  predicate Headed(sections: string, colour: char, kind: char) {
    |sections| > 16 && sections[1] == colour && sections[13] == kind
  }

  lemma TakesAbsent(header: string, sections: string)
    requires Follows(sections, header)
    ensures TakeSection(Remaining(sections), header) == (None, Remaining(sections))
  {
    if sections != "" {
      var text := Remaining(sections);
      assert text[1] == sections[1] && text[13] == sections[13];
    }
  }

  lemma HeadersDiffer()
    ensures Headed(LabelsHeader(BLACKLISTED), 'b', 'l')
    ensures Headed(LabelsHeader(WHITELISTED), 'w', 'l')
    ensures Headed(NamesHeader(BLACKLISTED), 'b', 'n')
    ensures Headed(NamesHeader(WHITELISTED), 'w', 'n')
  {
  }

  lemma SectionHeads(f: Filter)
    ensures f.whitelistedLabels.List? ==> Headed(LabelsSection(f.whitelistedLabels, WHITELISTED), 'w', 'l')
    ensures f.blacklistedNames.List? ==> Headed(NamesSection(f.blacklistedNames, BLACKLISTED), 'b', 'n')
    ensures f.whitelistedNames.List? ==> Headed(NamesSection(f.whitelistedNames, WHITELISTED), 'w', 'n')
  {
    HeadersDiffer();
  }

  lemma TakesLabels(labels: GoList<LabelMap>, labelsType: string, sections: string)
    requires PlainLabels(FlattenLabels(labels)) && Closed(sections)
    requires Follows(sections, LabelsHeader(labelsType))
    ensures var (content, rest) :=
              TakeSection(Remaining(LabelsSection(labels, labelsType) + sections), LabelsHeader(labelsType));
            ReadLabels(content) == FlattenLabels(labels) && rest == Remaining(sections)
  {
    match labels
    case Nil =>
      assert "" + sections == sections;
      TakesAbsent(LabelsHeader(labelsType), sections);
    case List(maps) =>
      LabelsContent(Flatten(maps));
      TakesPresent(LabelsHeader(labelsType), Join(LabelItems(Flatten(maps)), ','), sections);
  }

  lemma TakesNames(names: GoList<string>, namesType: string, sections: string)
    requires PlainNames(names) && Closed(sections)
    requires Follows(sections, NamesHeader(namesType))
    ensures var (content, rest) :=
              TakeSection(Remaining(NamesSection(names, namesType) + sections), NamesHeader(namesType));
            (ReadNames(content) == names <==> LastNamed(names)) && rest == Remaining(sections)
  {
    match names
    case Nil =>
      assert "" + sections == sections;
      TakesAbsent(NamesHeader(namesType), sections);
    case List(items) =>
      NamesContent(items);
      TakesPresent(NamesHeader(namesType), TrimRight(CommaAfterEach(items), ','), sections);
  }

  lemma ReadsPlain(f: Filter)
    requires Plain(Visible(f))
    ensures var r := Read(Print(f));
            && r.Some?
            && r.value.whitelistedLabels == FlattenLabels(f.whitelistedLabels)
            && r.value.blacklistedLabels == FlattenLabels(f.blacklistedLabels)
            && (r.value.whitelistedNames == f.whitelistedNames <==> LastNamed(f.whitelistedNames))
            && (r.value.blacklistedNames == f.blacklistedNames <==> LastNamed(f.blacklistedNames))
  {
    hide LabelsSection, NamesSection, TakeSection, ReadNames, ReadLabels, PlainNames, PlainLabels, LastNamed;
    var a := LabelsSection(f.blacklistedLabels, BLACKLISTED);
    var b := LabelsSection(f.whitelistedLabels, WHITELISTED);
    var c := NamesSection(f.blacklistedNames, BLACKLISTED);
    var d := NamesSection(f.whitelistedNames, WHITELISTED);
    Grouping(a, b, c, d);
    assert Print(f) == "{" + Remaining(Sections(f));
    assert Print(f)[1..] == Remaining(a + (b + (c + (d + ""))));
    SectionEnd(f);
    LastTwo(d, "");
    LastTwo(c, d + "");
    LastTwo(b, c + (d + ""));
    SectionOrder(f);
    TakesLabels(f.blacklistedLabels, BLACKLISTED, b + (c + (d + "")));
    TakesLabels(f.whitelistedLabels, WHITELISTED, c + (d + ""));
    TakesNames(f.blacklistedNames, BLACKLISTED, d + "");
    TakesNames(f.whitelistedNames, WHITELISTED, "");
  }

  /** Everything but the grouping of label pairs into maps is read back from the text exactly when
      no name holds "," or "]", no label holds "," or "]", no key holds ":", and no list of names
      ends in an empty one. */
  lemma PrintThenRead(f: Filter)
    ensures Read(Print(f)) == Some(Visible(f))
            <==> Plain(Visible(f)) && LastNamed(f.whitelistedNames) && LastNamed(f.blacklistedNames)
  {
    hide Read, Print, Plain, LastNamed;
    if Plain(Visible(f)) {
      ReadsPlain(f);
    } else if Read(Print(f)).Some? {
      ReadingIsPlain(Print(f));
    }
  }

  // ---------- What the reader can return at all ----------

  lemma {:induction false} SplitKeepsFree(s: string, c: char, d: char)
    requires Free(s, d)
    ensures AllFree(Split(s, c), d)
  {
    if s != "" {
      assert forall i | 0 <= i < |s[1..]| :: s[1..][i] == s[i + 1];
      SplitKeepsFree(s[1..], c, d);
      assert Split(s, c)[0] == "" || Split(s, c)[0] == [s[0]] + Split(s[1..], c)[0];
    }
  }

  lemma {:induction false} CutKeepsFree(s: string, c: char, d: char)
    requires Free(s, d)
    ensures Free(BeforeFirst(s, c), d) && Free(AfterFirst(s, c), d)
  {
    if s != "" {
      assert forall i | 0 <= i < |s[1..]| :: s[1..][i] == s[i + 1];
      CutKeepsFree(s[1..], c, d);
    }
  }

  lemma ReadItemIsPlain(item: string)
    requires Free(item, ',') && Free(item, ']')
    ensures PlainLabel(ReadItem(item))
  {
    if |item| >= 4 {
      var pair := item[2..|item| - 2];
      assert Free(pair, ',') && Free(pair, ']');
      CutAtFirst(pair, ':');
      CutKeepsFree(pair, ':', ',');
      CutKeepsFree(pair, ':', ']');
    }
  }

  lemma NamesArePlain(content: Option<string>)
    requires content.Some? ==> Free(content.value, ']')
    ensures PlainNames(ReadNames(content))
  {
    if content.Some? {
      SplitThenJoin(content.value, ',');
      SplitKeepsFree(content.value, ',', ']');
    }
  }

  lemma LabelsArePlain(content: Option<string>)
    requires content.Some? ==> Free(content.value, ']')
    ensures PlainLabels(ReadLabels(content))
  {
    hide ReadItem, PlainLabel;
    if content.Some? && content.value != "" {
      var items := Split(content.value, ',');
      SplitThenJoin(content.value, ',');
      SplitKeepsFree(content.value, ',', ']');
      forall i | 0 <= i < |items|
        ensures PlainLabel(ReadItems(items)[i])
      {
        ReadItemIsPlain(items[i]);
      }
    }
  }

  lemma SectionIsFree(text: string, header: string)
    ensures var (content, _) := TakeSection(text, header); content.Some? ==> Free(content.value, ']')
  {
    if header <= text {
      CutAtFirst(text[|header|..], ']');
    }
  }

  /** Whatever text it is given, the reader returns no name and no label with a delimiter. */
  lemma ReadingIsPlain(text: string)
    requires Read(text).Some?
    ensures Plain(Read(text).value)
  {
    hide TakeSection, ReadNames, ReadLabels, PlainNames, PlainLabels, LabelsHeader, NamesHeader;
    var (bl, r1) := TakeSection(text[1..], LabelsHeader(BLACKLISTED));
    var (wl, r2) := TakeSection(r1, LabelsHeader(WHITELISTED));
    var (bn, r3) := TakeSection(r2, NamesHeader(BLACKLISTED));
    var (wn, r4) := TakeSection(r3, NamesHeader(WHITELISTED));
    SectionIsFree(text[1..], LabelsHeader(BLACKLISTED));
    SectionIsFree(r1, LabelsHeader(WHITELISTED));
    SectionIsFree(r2, NamesHeader(BLACKLISTED));
    SectionIsFree(r3, NamesHeader(WHITELISTED));
    LabelsArePlain(bl);
    LabelsArePlain(wl);
    NamesArePlain(bn);
    NamesArePlain(wn);
  }

  lemma Grouping(a: string, b: string, c: string, d: string)
    ensures a + b + c + d == a + (b + (c + (d + "")))
  {
    assert d + "" == d;
  }

  predicate Follows(sections: string, header: string) {
    |header| > 16
    && (sections == "" || (|sections| > 16 && (sections[1] != header[1] || sections[13] != header[13])))
  }

  lemma PrependSection(section: string, sections: string, header: string)
    requires Follows(section, header) && Follows(sections, header)
    ensures Follows(section + sections, header)
  {
    if section == "" {
      assert section + sections == sections;
    }
  }

  lemma SectionOrder(f: Filter)
    ensures var b := LabelsSection(f.whitelistedLabels, WHITELISTED);
            var c := NamesSection(f.blacklistedNames, BLACKLISTED);
            var d := NamesSection(f.whitelistedNames, WHITELISTED);
            && Follows(b + (c + (d + "")), LabelsHeader(BLACKLISTED))
            && Follows(c + (d + ""), LabelsHeader(WHITELISTED))
            && Follows(d + "", NamesHeader(BLACKLISTED))
            && Follows("", NamesHeader(WHITELISTED))
  {
    var b := LabelsSection(f.whitelistedLabels, WHITELISTED);
    var c := NamesSection(f.blacklistedNames, BLACKLISTED);
    var d := NamesSection(f.whitelistedNames, WHITELISTED);
    HeadersDiffer();
    SectionHeads(f);
    PrependSection(d, "", NamesHeader(BLACKLISTED));
    PrependSection(d, "", LabelsHeader(WHITELISTED));
    PrependSection(d, "", LabelsHeader(BLACKLISTED));
    PrependSection(c, d + "", LabelsHeader(WHITELISTED));
    PrependSection(c, d + "", LabelsHeader(BLACKLISTED));
    PrependSection(b, c + (d + ""), LabelsHeader(BLACKLISTED));
  }

  // ---------- No other reader can do better ----------

  /** The names that a list with a comma in a name, or with an empty last name, is printed like. */
  function Twin(names: seq<string>): seq<string>
    requires names != []
  {
    if names[|names| - 1] == "" then names[..|names| - 1] else Split(Join(names, ','), ',')
  }

  /** Every list of names with an empty last name or with a comma in a name is printed exactly like
      another list, so no reader at all can tell the two apart. */
  lemma NotReadable(f: Filter, names: seq<string>)
    requires names != [] && (names[|names| - 1] == "" || !AllFree(names, ','))
    ensures Twin(names) != names
    ensures Print(f.(whitelistedNames := List(names))) == Print(f.(whitelistedNames := List(Twin(names))))
    ensures Print(f.(blacklistedNames := List(names))) == Print(f.(blacklistedNames := List(Twin(names))))
  {
    var twin := Twin(names);
    if names[|names| - 1] == "" {
      assert names == twin + [""];
      CommaAfterEachConcat(twin, [""]);
      assert CommaAfterEach([""]) == ",";
      var text := CommaAfterEach(twin) + ",";
      assert text[..|text| - 1] == CommaAfterEach(twin);
    } else {
      SplitThenJoin(Join(names, ','), ',');
      CommaAfterEachIsJoin(names);
      CommaAfterEachIsJoin(twin);
    }
    assert TrimRight(CommaAfterEach(names), ',') == TrimRight(CommaAfterEach(twin), ',');
  }
}

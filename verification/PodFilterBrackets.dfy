/** The brackets of a printed pod filter match by kind, and only its last character closes it. */
module PodFilterBrackets {
  import opened Text
  import opened GoTypes
  import opened PodFilter

  /** Reads `s` with the closers still expected on `stack`, innermost first. */
  function Scan(s: string, stack: string): Option<string> {
    if s == "" then Some(stack)
    else if s[0] == '[' then Scan(s[1..], "]" + stack)
    else if s[0] == '{' then Scan(s[1..], "}" + stack)
    else if s[0] == ']' || s[0] == '}' then
      if StartsWith(stack, s[0]) then Scan(s[1..], stack[1..]) else None
    else Scan(s[1..], stack)
  }

  predicate Neutral(s: string) {
    Scan(s, "") == Some("")
  }

  predicate BracketFree(s: string) {
    Free(s, '[') && Free(s, ']') && Free(s, '{') && Free(s, '}')
  }

  lemma {:induction false} ScanConcat(a: string, b: string, stack: string)
    ensures Scan(a + b, stack) == match Scan(a, stack) case None => None case Some(t) => Scan(b, t)
  {
    if a == "" {
      assert a + b == b;
    } else {
      assert (a + b)[1..] == a[1..] + b;
      var c := a[0];
      var next := if c == '[' then "]" + stack else if c == '{' then "}" + stack
                  else if (c == ']' || c == '}') && StartsWith(stack, c) then stack[1..] else stack;
      ScanConcat(a[1..], b, next);
    }
  }

  lemma {:induction false} ScanFrame(s: string, stack: string, base: string)
    requires Scan(s, stack).Some?
    ensures Scan(s, stack + base) == Some(Scan(s, stack).value + base)
  {
    if s != "" {
      var c := s[0];
      if c == '[' {
        assert "]" + stack + base == "]" + (stack + base);
        ScanFrame(s[1..], "]" + stack, base);
      } else if c == '{' {
        assert "}" + stack + base == "}" + (stack + base);
        ScanFrame(s[1..], "}" + stack, base);
      } else if c == ']' || c == '}' {
        assert (stack + base)[1..] == stack[1..] + base;
        ScanFrame(s[1..], stack[1..], base);
      } else {
        ScanFrame(s[1..], stack, base);
      }
    }
  }

  lemma NeutralAnywhere(s: string, stack: string)
    requires Neutral(s)
    ensures Scan(s, stack) == Some(stack)
  {
    ScanFrame(s, "", stack);
    assert "" + stack == stack;
  }

  lemma NeutralConcat(a: string, b: string)
    requires Neutral(a) && Neutral(b)
    ensures Neutral(a + b)
  {
    ScanConcat(a, b, "");
  }

  lemma {:induction false} NeutralToken(s: string)
    requires BracketFree(s)
    ensures Neutral(s)
  {
    if s != "" {
      NeutralToken(s[1..]);
    }
  }

  lemma NeutralInside(open: char, s: string)
    requires Neutral(s) && (open == '[' || open == '{')
    ensures Neutral([open] + s + [if open == '[' then ']' else '}'])
  {
    var close := if open == '[' then ']' else '}';
    NeutralAnywhere(s, [close]);
    ScanConcat(s, [close], [close]);
    assert [open] + s + [close] == [open] + (s + [close]);
    assert ([open] + (s + [close]))[1..] == s + [close];
    assert [close] + "" == [close];
  }

  // ---------- The pieces of a filter ----------

  predicate BracketFreeNames(names: GoList<string>) {
    names.List? ==> forall i | 0 <= i < |names.items| :: BracketFree(names.items[i])
  }

  predicate BracketFreeLabels(labels: GoList<LabelMap>) {
    labels.List? ==>
      forall i | 0 <= i < |Flatten(labels.items)| ::
        BracketFree(Flatten(labels.items)[i].0) && BracketFree(Flatten(labels.items)[i].1)
  }

  predicate BracketFreeFilter(f: Filter) {
    && BracketFreeNames(f.whitelistedNames) && BracketFreeNames(f.blacklistedNames)
    && BracketFreeLabels(f.whitelistedLabels) && BracketFreeLabels(f.blacklistedLabels)
  }

  lemma {:induction false} BracketFreeCommas(names: seq<string>)
    requires BracketFreeNames(List(names))
    ensures BracketFree(CommaAfterEach(names))
  {
    if names != [] {
      assert BracketFree(names[0]);
      assert forall i | 0 <= i < |names[1..]| :: names[1..][i] == names[i + 1];
      BracketFreeCommas(names[1..]);
    }
  }

  lemma {:induction false} BracketFreeTrim(s: string)
    requires BracketFree(s)
    ensures BracketFree(TrimRight(s, ','))
  {
    if EndsWith(s, ',') {
      BracketFreeTrim(s[..|s| - 1]);
    }
  }

  lemma NeutralItem(pair: (string, string))
    requires BracketFree(pair.0) && BracketFree(pair.1)
    ensures Neutral(LabelItem(pair))
  {
    var inner := " " + pair.0 + ": " + pair.1 + " ";
    NeutralToken(inner);
    NeutralInside('{', inner);
    assert LabelItem(pair) == ['{'] + inner + ['}'];
  }

  lemma {:induction false} NeutralItems(labels: seq<(string, string)>)
    requires forall i | 0 <= i < |labels| :: BracketFree(labels[i].0) && BracketFree(labels[i].1)
    ensures Neutral(Join(LabelItems(labels), ','))
  {
    if labels != [] {
      NeutralItem(labels[0]);
      NeutralItems(labels[1..]);
      var items := LabelItems(labels);
      assert items[1..] == LabelItems(labels[1..]);
      if |labels| > 1 {
        NeutralToken(",");
        NeutralConcat(items[0], ",");
        NeutralConcat(items[0] + ",", Join(items[1..], ','));
      }
    }
  }

  lemma NeutralSection(title: string, content: string)
    requires BracketFree(title) && Neutral(content)
    ensures Neutral(title + "[" + content + "],")
  {
    NeutralToken(title);
    NeutralInside('[', content);
    NeutralConcat(title, "[" + content + "]");
    NeutralToken(",");
    NeutralConcat(title + ("[" + content + "]"), ",");
    assert title + ("[" + content + "]") + "," == title + "[" + content + "],";
  }

  lemma Titles(listType: string)
    requires BracketFree(listType)
    ensures BracketFree(" " + listType + "-names: ") && BracketFree(" " + listType + "-labels: ")
    ensures NamesHeader(listType) == " " + listType + "-names: " + "["
    ensures LabelsHeader(listType) == " " + listType + "-labels: " + "["
  {
  }

  lemma NeutralNames(names: GoList<string>, namesType: string)
    requires BracketFreeNames(names) && BracketFree(namesType)
    ensures Neutral(NamesSection(names, namesType))
  {
    if names.List? {
      hide Neutral, BracketFree, BracketFreeNames, TrimRight, CommaAfterEach, NamesHeader;
      var content := TrimRight(CommaAfterEach(names.items), ',');
      BracketFreeCommas(names.items);
      BracketFreeTrim(CommaAfterEach(names.items));
      NeutralToken(content);
      Titles(namesType);
      NeutralSection(" " + namesType + "-names: ", content);
    }
  }

  lemma NeutralLabels(labels: GoList<LabelMap>, labelsType: string)
    requires BracketFreeLabels(labels) && BracketFree(labelsType)
    ensures Neutral(LabelsSection(labels, labelsType))
  {
    if labels.List? {
      hide Neutral, BracketFree, LabelsHeader, Join;
      var content := Join(LabelItems(Flatten(labels.items)), ',');
      NeutralItems(Flatten(labels.items));
      Titles(labelsType);
      NeutralSection(" " + labelsType + "-labels: ", content);
    }
  }

  lemma NeutralSections(f: Filter)
    requires BracketFreeFilter(f)
    ensures Neutral(Sections(f))
    ensures Neutral(DropLast(Sections(f)))
  {
    var a := LabelsSection(f.blacklistedLabels, BLACKLISTED);
    var b := LabelsSection(f.whitelistedLabels, WHITELISTED);
    var c := NamesSection(f.blacklistedNames, BLACKLISTED);
    NeutralLabels(f.blacklistedLabels, BLACKLISTED);
    NeutralLabels(f.whitelistedLabels, WHITELISTED);
    NeutralNames(f.blacklistedNames, BLACKLISTED);
    NeutralNames(f.whitelistedNames, WHITELISTED);
    NeutralConcat(a, b);
    NeutralConcat(a + b, c);
    NeutralConcat(a + b + c, NamesSection(f.whitelistedNames, WHITELISTED));
    SectionsEnd(f);
    var s := Sections(f);
    if s != "" {
      assert s == DropLast(s) + [','];
      ScanConcat(DropLast(s), [','], "");
    }
  }

  lemma StillOpen(s: string, k: nat)
    requires Neutral(s) && k <= |s|
    ensures var r := Scan(['{'] + s[..k], ""); r.Some? && r.value != ""
  {
    var seen := s[..k];
    assert s == seen + s[k..];
    ScanConcat(seen, s[k..], "");
    ScanFrame(seen, "", "}");
    assert "" + "}" == "}" && "}" + "" == "}";
    assert (['{'] + seen)[1..] == seen;
  }

  /** For bracket-free names, keys and values, every bracket of the text is closed by one of its
      own kind, and before the last character something always is still open. */
  lemma PrintIsBalanced(f: Filter)
    requires BracketFreeFilter(f)
    ensures Neutral(Print(f))
    ensures forall k | 0 < k < |Print(f)| ::
              Scan(Print(f)[..k], "").Some? && Scan(Print(f)[..k], "").value != ""
  {
    var s := DropLast(Sections(f));
    hide Neutral, Sections, Scan;
    NeutralSections(f);
    NeutralInside('{', s);
    forall k | 0 < k < |Print(f)|
      ensures Scan(Print(f)[..k], "").Some? && Scan(Print(f)[..k], "").value != ""
    {
      StillOpen(s, k - 1);
      assert Print(f)[..k] == ['{'] + s[..k - 1];
    }
  }
}

/** `LabelMarkdownRenderer` (src/renderers/markdown/LabelMarkdownRenderer.ts):
    a label becomes a hashtag made of lower-case ASCII letters, digits and
    hyphens. */
module LabelRendering {
  import opened Wrappers
  import opened Text
  import opened Entities
  import BaseRendering

  predicate IsAsciiLetter(c: char)
  {
    'a' <= c <= 'z' || 'A' <= c <= 'Z'
  }

  /** What the class `[a-zA-Z0-9\s-]` matches: the characters that survive
      the filtering step. */
  predicate IsKept(c: char)
  {
    IsAsciiLetter(c) || IsDigit(c) || IsSpace(c) || c == '-'
  }

  /** The characters left after filtering and collapsing. */
  predicate IsCollapsedChar(c: char)
  {
    IsAsciiLetter(c) || IsDigit(c) || c == '-'
  }

  /** The characters a sanitised label is made of. */
  predicate IsHashtagChar(c: char)
  {
    'a' <= c <= 'z' || IsDigit(c) || c == '-'
  }

  predicate AllKept(s: string)
  {
    forall i :: 0 <= i < |s| ==> IsKept(s[i])
  }

  predicate AllCollapsed(s: string)
  {
    forall i :: 0 <= i < |s| ==> IsCollapsedChar(s[i])
  }

  predicate AllHashtag(s: string)
  {
    forall i :: 0 <= i < |s| ==> IsHashtagChar(s[i])
  }

  /** `replace(/^#+/, '')`: drops the run of `#` at the very start. */
  function StripLeadingHashes(s: string): (r: string)
    ensures |r| <= |s| && r == s[|s| - |r|..]
    ensures forall k :: 0 <= k < |s| - |r| ==> s[k] == '#'
    ensures r != [] ==> r[0] != '#'
  {
    if s != [] && s[0] == '#' then StripLeadingHashes(s[1..]) else s
  }

  /** `replace(/[^a-zA-Z0-9\s-]/g, '')`: deletes every character the class
      does not match and keeps the others, in order. */
  function KeepHashtagText(s: string): (r: string)
    ensures AllKept(r)
  {
    if s == [] then ""
    else if IsKept(s[0]) then [s[0]] + KeepHashtagText(s[1..])
    else KeepHashtagText(s[1..])
  }

  /** Filtering keeps every occurrence of every kept character. */
  lemma {:induction false} KeepCounts(s: string, c: char)
    requires IsKept(c)
    ensures multiset(KeepHashtagText(s))[c] == multiset(s)[c]
  {
    if s != [] {
      KeepCounts(s[1..], c);
      assert s == [s[0]] + s[1..];
    }
  }

  /** Text made only of kept characters is left as it is. */
  lemma {:induction false} KeepAllKept(s: string)
    requires AllKept(s)
    ensures KeepHashtagText(s) == s
  {
    if s != [] {
      KeptSuffix(s, 1);
      KeepAllKept(s[1..]);
      assert s == [s[0]] + s[1..];
    }
  }

  /** The filter works character by character, so kept characters stay in
      the order of the input. */
  lemma {:induction false} KeepConcat(a: string, b: string)
    ensures KeepHashtagText(a + b) == KeepHashtagText(a) + KeepHashtagText(b)
  {
    if a == [] {
      assert a + b == b;
    } else {
      assert (a + b)[0] == a[0];
      assert (a + b)[1..] == a[1..] + b;
      KeepConcat(a[1..], b);
    }
  }

  lemma KeptSuffix(s: string, k: nat)
    requires AllKept(s) && k <= |s|
    ensures AllKept(s[k..])
  {
  }

  /** `replace(/\s+/g, '-')`: each maximal run of white space becomes one
      hyphen. */
  function CollapseSpaces(s: string): (r: string)
    ensures |r| <= |s|
    decreases |s|
  {
    if s == [] then ""
    else if IsSpace(s[0]) then "-" + CollapseSpaces(TrimStart(s[1..]))
    else [s[0]] + CollapseSpaces(s[1..])
  }

  /** No white space is left after collapsing. */
  lemma {:induction false} CollapsedNoSpace(s: string)
    ensures NoSpace(CollapseSpaces(s))
    decreases |s|
  {
    if s == [] {
    } else if IsSpace(s[0]) {
      CollapsedNoSpace(TrimStart(s[1..]));
      ConcatHeadTail("-", CollapseSpaces(TrimStart(s[1..])));
    } else {
      CollapsedNoSpace(s[1..]);
      ConcatHeadTail([s[0]], CollapseSpaces(s[1..]));
    }
  }

  /** Collapsing filtered text leaves letters, digits and hyphens. */
  lemma {:induction false} CollapsedOfKept(s: string)
    requires AllKept(s)
    ensures AllCollapsed(CollapseSpaces(s))
    decreases |s|
  {
    if s == [] {
    } else if IsSpace(s[0]) {
      var t := TrimStart(s[1..]);
      KeptSuffix(s, 1);
      KeptSuffix(s[1..], |s[1..]| - |t|);
      CollapsedOfKept(t);
      CollapsedCons('-', CollapseSpaces(t));
    } else {
      KeptSuffix(s, 1);
      CollapsedOfKept(s[1..]);
      CollapsedCons(s[0], CollapseSpaces(s[1..]));
    }
  }

  lemma CollapsedCons(c: char, s: string)
    requires IsCollapsedChar(c) && AllCollapsed(s)
    ensures AllCollapsed([c] + s)
  {
  }

  /** Text without white space is left as it is. */
  lemma {:induction false} CollapseWithoutSpace(s: string)
    requires NoSpace(s)
    ensures CollapseSpaces(s) == s
  {
    if s != [] {
      CollapseWithoutSpace(s[1..]);
      assert [s[0]] + s[1..] == s;
    }
  }

  /** A run of white space followed by text that does not start with white
      space collapses to one hyphen. */
  lemma CollapseRun(spaces: string, rest: string)
    requires spaces != [] && forall i :: 0 <= i < |spaces| ==> IsSpace(spaces[i])
    requires rest == [] || !IsSpace(rest[0])
    ensures CollapseSpaces(spaces + rest) == "-" + CollapseSpaces(rest)
  {
    ConcatHeadTail(spaces, rest);
    TrimSpaceRun(spaces[1..], rest);
  }

  lemma {:induction false} TrimSpaceRun(spaces: string, rest: string)
    requires forall i :: 0 <= i < |spaces| ==> IsSpace(spaces[i])
    requires rest == [] || !IsSpace(rest[0])
    ensures TrimStart(spaces + rest) == rest
  {
    if spaces == [] {
      assert spaces + rest == rest;
    } else {
      ConcatHeadTail(spaces, rest);
      TrimSpaceRun(spaces[1..], rest);
    }
  }

  /** Collapsing works piece by piece across a boundary that does not split
      a run of white space. */
  lemma {:induction false} CollapseConcat(a: string, b: string)
    requires a == [] || !IsSpace(a[|a| - 1])
    ensures CollapseSpaces(a + b) == CollapseSpaces(a) + CollapseSpaces(b)
    decreases |a|
  {
    if a == [] {
      assert a + b == b;
    } else if IsSpace(a[0]) {
      var t := TrimStart(a[1..]);
      assert t != [] && t[|t| - 1] == a[|a| - 1];
      CollapseConcat(t, b);
      CollapseConcatAfterRun(a, b);
    } else {
      var t := a[1..];
      assert t == [] || t[|t| - 1] == a[|a| - 1];
      CollapseConcat(t, b);
      CollapseConcatAfterChar(a, b);
    }
  }

  /** The step of `CollapseConcat` when `a` starts with white space: the run
      ends inside `a`, since `a` ends in a character that is not white
      space. */
  lemma CollapseConcatAfterRun(a: string, b: string)
    requires a != [] && IsSpace(a[0]) && !IsSpace(a[|a| - 1])
    requires CollapseSpaces(TrimStart(a[1..]) + b) == CollapseSpaces(TrimStart(a[1..])) + CollapseSpaces(b)
    ensures CollapseSpaces(a + b) == CollapseSpaces(a) + CollapseSpaces(b)
  {
    var rest := a[1..];
    var t := TrimStart(rest);
    var k := |a| - |t|;
    assert t == a[k..] by {
      assert t == rest[|rest| - |t|..];
    }
    var run := a[..k];
    TakeDrop(a, k);
    forall i | 0 <= i < |run| ensures IsSpace(run[i]) {
      if i > 0 {
        assert run[i] == rest[i - 1];
      }
    }
    CollapseRunThenText(run, t, b);
  }

  lemma CollapseRunThenText(run: string, t: string, b: string)
    requires run != [] && forall i :: 0 <= i < |run| ==> IsSpace(run[i])
    requires t != [] && !IsSpace(t[0])
    requires CollapseSpaces(t + b) == CollapseSpaces(t) + CollapseSpaces(b)
    ensures CollapseSpaces(run + t + b) == CollapseSpaces(run + t) + CollapseSpaces(b)
  {
    CollapseRun(run, t);
    ConcatAssoc(run, t, b);
    ConcatHeadTail(t, b);
    CollapseRun(run, t + b);
    ConcatAssoc("-", CollapseSpaces(t), CollapseSpaces(b));
  }

  /** The step of `CollapseConcat` when `a` starts with a character that is
      not white space. */
  lemma CollapseConcatAfterChar(a: string, b: string)
    requires a != [] && !IsSpace(a[0])
    requires CollapseSpaces(a[1..] + b) == CollapseSpaces(a[1..]) + CollapseSpaces(b)
    ensures CollapseSpaces(a + b) == CollapseSpaces(a) + CollapseSpaces(b)
  {
    ConcatHeadTail(a, b);
    ConcatAssoc([a[0]], CollapseSpaces(a[1..]), CollapseSpaces(b));
  }

  function LowerChar(c: char): (d: char)
    ensures 'A' <= c <= 'Z' ==> 'a' <= d <= 'z'
    ensures !('A' <= c <= 'Z') ==> d == c
  {
    if 'A' <= c <= 'Z' then (c as int - 'A' as int + 'a' as int) as char else c
  }

  /** `toLowerCase()` on text that holds only ASCII letters, digits and
      hyphens, which is all it is ever applied to here. */
  function LowerAscii(s: string): (r: string)
    ensures |r| == |s|
    ensures forall i :: 0 <= i < |s| ==> r[i] == LowerChar(s[i])
  {
    if s == [] then "" else [LowerChar(s[0])] + LowerAscii(s[1..])
  }

  lemma LowerOfCollapsed(s: string)
    requires AllCollapsed(s)
    ensures AllHashtag(LowerAscii(s))
  {
  }

  /** `sanitizeLabelText(text)` (LabelMarkdownRenderer.ts:41-48): trim,
      strip the leading hash signs, delete the characters that are not ASCII
      letters, digits, white space or hyphens, turn each white-space run into
      a hyphen, lower-case. What is left is lower-case letters, digits and
      hyphens. */
  function SanitizeLabelText(text: string): (r: string)
    ensures AllHashtag(r)
  {
    var filtered := KeepHashtagText(StripLeadingHashes(Trim(text)));
    CollapsedOfKept(filtered);
    LowerOfCollapsed(CollapseSpaces(filtered));
    LowerAscii(CollapseSpaces(filtered))
  }

  /** Sanitised text is left alone by a second sanitising. */
  lemma SanitizeIdempotent(text: string)
    ensures SanitizeLabelText(SanitizeLabelText(text)) == SanitizeLabelText(text)
  {
    var r := SanitizeLabelText(text);
    HashtagFixed(r);
  }

  /** Each step leaves text made of hashtag characters as it is. */
  lemma HashtagFixed(r: string)
    requires AllHashtag(r)
    ensures SanitizeLabelText(r) == r
  {
    HashtagNoSpace(r);
    assert Trim(r) == r;
    HashtagCharsPlain(r);
    StripWithoutHash(r);
    HashtagKept(r);
    KeepAllKept(r);
    CollapseWithoutSpace(r);
    HashtagLower(r);
  }

  lemma HashtagNoSpace(r: string)
    requires AllHashtag(r)
    ensures NoSpace(r)
  {
    forall i | 0 <= i < |r| ensures !IsSpace(r[i]) {
      assert IsHashtagChar(r[i]);
    }
  }

  lemma HashtagKept(r: string)
    requires AllHashtag(r)
    ensures AllKept(r)
  {
    forall i | 0 <= i < |r| ensures IsKept(r[i]) {
      assert IsHashtagChar(r[i]);
    }
  }

  lemma HashtagLower(r: string)
    requires AllHashtag(r)
    ensures LowerAscii(r) == r
  {
    forall i | 0 <= i < |r| ensures LowerChar(r[i]) == r[i] {
      assert IsHashtagChar(r[i]);
    }
  }

  lemma StripWithoutHash(r: string)
    requires '#' !in r
    ensures StripLeadingHashes(r) == r
  {
    assert r != [] ==> r[0] != '#';
  }

  /** The filtering step deletes every `#` anyway, so stripping the leading
      ones first changes nothing. */
  lemma {:induction false} HashStripRedundant(s: string)
    ensures KeepHashtagText(StripLeadingHashes(s)) == KeepHashtagText(s)
  {
    if s != [] && s[0] == '#' {
      HashStripRedundant(s[1..]);
      DropHash(s);
    }
  }

  /** A leading `#` is deleted by the filtering step. */
  lemma DropHash(s: string)
    requires s != [] && s[0] == '#'
    ensures KeepHashtagText(s) == KeepHashtagText(s[1..])
  {
    assert !IsKept('#');
  }

  /** A hash sign followed by a space, as in `# Urgent`, leaves a leading
      hyphen: the space after the hash sign survives the stripping and is
      turned into `-`. */
  lemma HashThenSpaceGivesHyphen(word: string)
    requires word != [] && IsAsciiLetter(word[0]) && !IsSpace(word[|word| - 1])
    ensures var r := SanitizeLabelText("# " + word); r != [] && r[0] == '-'
  {
    var spaced := " " + word;
    var input := "# " + word;
    var kept := KeepHashtagText(word);
    assert input == "#" + spaced;
    assert Trim(input) == input by {
      TrimUnspaced(input);
    }
    assert StripLeadingHashes(input) == spaced by {
      StripOneHash(spaced);
    }
    assert KeepHashtagText(spaced) == " " + kept by {
      KeepsSpaceHead(word);
    }
    assert kept != [] && !IsSpace(kept[0]) by {
      KeepsLetterHead(word);
      LetterNotSpace(kept[0]);
    }
    CollapseSpaceHead(kept);
    assert SanitizeLabelText(input) == LowerAscii(CollapseSpaces(" " + kept));
  }

  /** Text that neither starts nor ends with white space is not trimmed. */
  lemma TrimUnspaced(s: string)
    requires s != [] && !IsSpace(s[0]) && !IsSpace(s[|s| - 1])
    ensures Trim(s) == s
  {
  }

  lemma StripOneHash(s: string)
    requires s != [] && s[0] != '#'
    ensures StripLeadingHashes("#" + s) == s
  {
    assert ("#" + s)[1..] == s;
  }

  lemma KeepsLetterHead(word: string)
    requires word != [] && IsAsciiLetter(word[0])
    ensures var k := KeepHashtagText(word); k != [] && IsAsciiLetter(k[0])
  {
  }

  lemma LetterNotSpace(c: char)
    requires IsAsciiLetter(c)
    ensures !IsSpace(c)
  {
  }

  lemma KeepsSpaceHead(word: string)
    ensures KeepHashtagText(" " + word) == " " + KeepHashtagText(word)
  {
    assert (" " + word)[1..] == word;
  }

  lemma CollapseSpaceHead(t: string)
    requires t != [] && !IsSpace(t[0])
    ensures var r := LowerAscii(CollapseSpaces(" " + t)); r != [] && r[0] == '-'
  {
    assert (" " + t)[1..] == t;
  }

  /** `renderAsHashtag(label)` (LabelMarkdownRenderer.ts:11-14): a hash
      sign and the sanitised title, and no other hash sign. */
  function RenderAsHashtag(l: Label): (r: string)
    ensures |r| >= 1 && r[0] == '#' && r[1..] == SanitizeLabelText(l.title)
    ensures AllHashtag(r[1..])
  {
    var s := SanitizeLabelText(l.title);
    ConcatHeadTail("#", s);
    "#" + s
  }

  /** A hashtag has exactly one `#`, at its start, and neither a newline
      nor a space. */
  lemma HashtagShape(l: Label)
    ensures multiset(RenderAsHashtag(l))['#'] == 1
    ensures '\n' !in RenderAsHashtag(l) && ' ' !in RenderAsHashtag(l)
  {
    var s := SanitizeLabelText(l.title);
    assert RenderAsHashtag(l) == "#" + s;
    HashtagCharsPlain(s);
    OneLeadingHash(s);
  }

  /** Hashtag characters hold neither `#` nor a line break. */
  lemma HashtagCharsPlain(s: string)
    requires AllHashtag(s)
    ensures '#' !in s && '\n' !in s && ' ' !in s
  {
    forall i | 0 <= i < |s| ensures s[i] != '#' && s[i] != '\n' && s[i] != ' ' {
      assert IsHashtagChar(s[i]);
    }
  }

  lemma OneLeadingHash(s: string)
    requires '#' !in s && '\n' !in s && ' ' !in s
    ensures multiset("#" + s)['#'] == 1 && '\n' !in "#" + s && ' ' !in "#" + s
  {
    assert multiset("#" + s) == multiset("#") + multiset(s);
  }

  /** `render(label)` (LabelMarkdownRenderer.ts:19-25): the hashtag, then
      ` - ` and the description when it is present and non-empty. */
  function Render(l: Label): (r: string)
    ensures l.description.Some? && l.description.value != "" ==>
              r == RenderAsHashtag(l) + " - " + l.description.value
    ensures l.description.None? || l.description.value == "" ==> r == RenderAsHashtag(l)
  {
    var hashtag := RenderAsHashtag(l);
    if l.description.Some? && l.description.value != "" then hashtag + " - " + l.description.value else hashtag
  }

  /** `renderAsListItem(label)` (LabelMarkdownRenderer.ts:31-33). */
  function RenderAsListItem(l: Label): (r: string)
    ensures |r| >= 3 && r[..2] == "- " && r[2..] == RenderAsHashtag(l)
  {
    var h := RenderAsHashtag(l);
    ConcatHeadTail("- ", h);
    "- " + h
  }

  /** `renderList(labels)` (BaseMarkdownRenderer.ts:13-16 with this
      renderer's list items). */
  function RenderList(labels: seq<Label>): string
  {
    BaseRendering.RenderList(labels, RenderAsListItem)
  }

  /** A label list has one line per label, and each line is that label's
      list item. */
  lemma RenderListLines(labels: seq<Label>)
    requires |labels| >= 1
    ensures Lines(RenderList(labels)) == BaseRendering.Map(labels, RenderAsListItem)
  {
    forall i | 0 <= i < |labels| ensures '\n' !in RenderAsListItem(labels[i]) {
      ListItemPlain(labels[i]);
    }
    BaseRendering.RenderListLines(labels, RenderAsListItem);
  }

  lemma ListItemPlain(l: Label)
    ensures '\n' !in RenderAsListItem(l)
  {
    HashtagShape(l);
    assert RenderAsListItem(l) == "- " + RenderAsHashtag(l);
  }
}

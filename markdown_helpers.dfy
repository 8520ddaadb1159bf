/** The markdown building blocks every renderer uses
    (src/renderers/utils/markdown-helpers.ts): backslash escaping of a fixed
    set of markdown characters, and the link, list-item, heading and
    code-block templates. */
module MarkdownHelpers {
  import opened Text

  /** The characters `escapeMarkdown` escapes: `* _ ` [ ] ( ) # >`. The
      backslash itself is not among them. */
  predicate IsSpecial(c: char)
  {
    c == '*' || c == '_' || c == '`' || c == '[' || c == ']' || c == '(' || c == ')' || c == '#' || c == '>'
  }

  predicate NoSpecial(t: string)
  {
    forall i :: 0 <= i < |t| ==> !IsSpecial(t[i])
  }

  /** The number of special characters in `t`. */
  function SpecialCount(t: string): (n: nat)
    ensures n <= |t|
    ensures n == 0 <==> NoSpecial(t)
  {
    if t == [] then 0 else (if IsSpecial(t[0]) then 1 else 0) + SpecialCount(t[1..])
  }

  /** `escapeMarkdown(text)`: one backslash before each special character,
      every other character unchanged. The output never starts with a special
      character, and every special character in it directly follows a
      backslash. */
  function EscapeMarkdown(t: string): (r: string)
    ensures |r| == |t| + SpecialCount(t)
    ensures NoSpecial(t) ==> r == t
    ensures r != [] ==> !IsSpecial(r[0])
    ensures forall i :: 0 <= i < |r| && IsSpecial(r[i]) ==> i > 0 && r[i - 1] == '\\'
  {
    if t == [] then ""
    else if IsSpecial(t[0]) then ['\\', t[0]] + EscapeMarkdown(t[1..])
    else [t[0]] + EscapeMarkdown(t[1..])
  }

  /** Reads escaped text back: a backslash directly before a special
      character is dropped. */
  function UnescapeMarkdown(u: string): string
  {
    if u == [] then ""
    else if |u| >= 2 && u[0] == '\\' && IsSpecial(u[1]) then [u[1]] + UnescapeMarkdown(u[2..])
    else [u[0]] + UnescapeMarkdown(u[1..])
  }

  /** Escaping loses nothing: the escaped text reads back as the text. */
  lemma {:induction false} UnescapeEscape(t: string)
    ensures UnescapeMarkdown(EscapeMarkdown(t)) == t
  {
    if t != [] {
      UnescapeEscape(t[1..]);
      var rest := EscapeMarkdown(t[1..]);
      if IsSpecial(t[0]) {
        assert (['\\', t[0]] + rest)[2..] == rest;
      } else {
        // The character after a kept character is never special.
        assert ([t[0]] + rest)[1..] == rest;
        assert |[t[0]] + rest| >= 2 ==> ([t[0]] + rest)[1] == rest[0];
      }
      assert [t[0]] + t[1..] == t;
    }
  }

  /** Two texts with the same escaped form are equal. */
  lemma EscapeInjective(t1: string, t2: string)
    requires EscapeMarkdown(t1) == EscapeMarkdown(t2)
    ensures t1 == t2
  {
    UnescapeEscape(t1);
    UnescapeEscape(t2);
  }

  /** A character that is neither special nor a backslash occurs in the
      escaped text exactly when it occurs in the text. */
  lemma {:induction false} EscapeKeepsChar(t: string, c: char)
    requires c != '\\'
    ensures c in EscapeMarkdown(t) <==> c in t
  {
    if t != [] {
      EscapeKeepsChar(t[1..], c);
      var head := if IsSpecial(t[0]) then ['\\', t[0]] else [t[0]];
      assert EscapeMarkdown(t) == head + EscapeMarkdown(t[1..]);
      assert c in head <==> c == t[0];
      assert t == [t[0]] + t[1..];
    }
  }

  /** `createLink(text, url)`: `[text](url)`, with no escaping of its own. */
  function CreateLink(text: string, url: string): (r: string)
    ensures |r| == |text| + |url| + 4
    ensures r[0] == '[' && r[1..|text| + 1] == text && r[|text| + 1..|text| + 3] == "]("
    ensures r[|text| + 3..|r| - 1] == url && r[|r| - 1] == ')'
  {
    "[" + text + "](" + url + ")"
  }

  /** A link whose text has no `]` determines its text and its target: the
      first `]` closes the text. */
  lemma LinkInjective(text1: string, url1: string, text2: string, url2: string)
    requires ']' !in text1 && ']' !in text2
    requires CreateLink(text1, url1) == CreateLink(text2, url2)
    ensures text1 == text2 && url1 == url2
  {
    var r := CreateLink(text1, url1);
    assert r[|text1| + 1] == ']' && r[|text2| + 1] == ']';
    assert forall i :: 1 <= i < |text1| + 1 ==> r[i] == text1[i - 1];
    assert forall i :: 1 <= i < |text2| + 1 ==> r[i] == text2[i - 1];
  }

  /** `createListItem(text, level)`: two spaces per level, then `- `, then
      the text. */
  function CreateListItem(text: string, level: nat := 0): (r: string)
    ensures |r| == 2 * level + 2 + |text|
    ensures forall i :: 0 <= i < 2 * level ==> r[i] == ' '
    ensures r[2 * level..2 * level + 2] == "- " && r[2 * level + 2..] == text
  {
    RepeatSpaces(level);
    Repeat("  ", level) + "- " + text
  }

  /** Every character of `"  ".repeat(n)` is a space. */
  lemma {:induction false} RepeatSpaces(n: nat)
    ensures forall i :: 0 <= i < 2 * n ==> Repeat("  ", n)[i] == ' '
  {
    if n > 0 {
      RepeatSpaces(n - 1);
    }
  }

  /** The indentation of a list item tells its level, and the rest its
      text. */
  lemma ListItemInjective(text1: string, level1: nat, text2: string, level2: nat)
    requires CreateListItem(text1, level1) == CreateListItem(text2, level2)
    ensures level1 == level2 && text1 == text2
  {
    var r := CreateListItem(text1, level1);
    assert r[2 * level1] == '-' && r[2 * level2] == '-';
  }

  /** `createHeading(text, level)`: `level` hash signs, a space, the
      text. */
  function CreateHeading(text: string, level: nat := 1): (r: string)
    ensures |r| == level + 1 + |text|
    ensures forall i :: 0 <= i < level ==> r[i] == '#'
    ensures r[level] == ' ' && r[level + 1..] == text
  {
    RepeatChar('#', level);
    Repeat("#", level) + " " + text
  }

  /** The run of hash signs of a heading tells its level. */
  lemma HeadingInjective(text1: string, level1: nat, text2: string, level2: nat)
    requires CreateHeading(text1, level1) == CreateHeading(text2, level2)
    ensures level1 == level2 && text1 == text2
  {
  }

  /** `createCodeBlock(text, language)`: a fence with the language, the
      text, a closing fence. */
  function CreateCodeBlock(text: string, language: string := ""): (r: string)
    ensures |r| == |text| + |language| + 8
    ensures r[..3] == "```" && r[|r| - 4..] == "\n```"
  {
    "```" + language + "\n" + text + "\n```"
  }

  /** The lines of a code block: the opening fence with the language, the
      lines of the text, the closing fence. */
  lemma CodeBlockLines(text: string, language: string)
    requires '\n' !in language
    ensures Lines(CreateCodeBlock(text, language)) == ["```" + language] + Lines(text) + ["```"]
  {
    var open := "```" + language;
    var close := "```";
    assert CreateCodeBlock(text, language) == open + ['\n'] + (text + ['\n'] + close);
    SplitAfter(open, '\n', text + ['\n'] + close);
    SplitConcat(text, '\n', close);
    SplitWithout(close, '\n');
  }

  /** Escaping works character by character, so it distributes over
      concatenation. */
  lemma {:induction false} EscapeConcat(a: string, b: string)
    ensures EscapeMarkdown(a + b) == EscapeMarkdown(a) + EscapeMarkdown(b)
  {
    if a != [] {
      var rest := a[1..];
      assert a == [a[0]] + rest;
      assert a + b == [a[0]] + (rest + b);
      EscapeCons(a[0], rest);
      EscapeCons(a[0], rest + b);
      EscapeConcat(rest, b);
      ConcatAssoc(EscapeChar(a[0]), EscapeMarkdown(rest), EscapeMarkdown(b));
    } else {
      assert a + b == b;
    }
  }

  /** What escaping makes of one character. */
  function EscapeChar(c: char): (r: string)
    ensures IsSpecial(c) ==> r == ['\\', c]
    ensures !IsSpecial(c) ==> r == [c]
  {
    if IsSpecial(c) then ['\\', c] else [c]
  }

  lemma EscapeCons(c: char, t: string)
    ensures EscapeMarkdown([c] + t) == EscapeChar(c) + EscapeMarkdown(t)
  {
    assert ([c] + t)[0] == c && ([c] + t)[1..] == t;
  }

  /** A level-one heading is `# ` and the text. */
  lemma HeadingOne(text: string)
    ensures CreateHeading(text, 1) == "# " + text
  {
    assert Repeat("#", 1) == "#" + "";
  }

  /** The template examples that the tests of markdown-helpers.ts check. */
  lemma LinkExample(text: string, url: string)
    requires text == "Example" && url == "http://" + "example.com"
    ensures CreateLink(text, url) == "[Example]" + "(http://" + "example.com)"
  {
    LinkHalves(text, url);
    assert "[" + text + "]" == "[Example]";
    var scheme, host := "http://", "example.com";
    assert "(" + url + ")" == "(" + scheme + (host + ")") by {
      ConcatAssoc("(", scheme, host);
      ConcatAssoc("(" + scheme, host, ")");
    }
    assert "(" + scheme == "(http://" && host + ")" == "example.com)";
    ConcatAssoc("[Example]", "(http://", "example.com)");
  }

  /** A link is its bracketed text, then its parenthesised target. */
  lemma LinkHalves(text: string, url: string)
    ensures CreateLink(text, url) == "[" + text + "]" + ("(" + url + ")")
  {
    assert "](" + url + ")" == "]" + ("(" + url + ")");
  }

  lemma ListItemExamples(item: string, nested: string)
    requires item == "Item" && nested == "Nested Item"
    ensures CreateListItem(item) == "- Item"
    ensures CreateListItem(nested, 2) == "    - Nested Item"
  {
  }

  lemma HeadingExamples(title: string)
    requires title == "Title"
    ensures CreateHeading(title) == "# Title"
    ensures CreateHeading(title, 3) == "### Title"
  {
  }

  lemma CodeBlockExample(code: string)
    requires code == "code"
    ensures CreateCodeBlock(code) == "```\ncode\n```"
  {
  }
}

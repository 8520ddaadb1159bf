/** What the core reads of a failed zod parse (`ZodError.errors`): each
    issue's path and message, in the order zod reports them. How zod finds
    the issues is modelled by each schema's own rules; how it words them is
    given there as constants. */
module ZodIssues {
  import opened Text

  /** One step of an issue's path: an object key or an array index. */
  datatype Segment = Key(name: string) | Index(position: nat) {
    /** The text `Array.prototype.join` writes for the step. */
    function Display(): (s: string)
      ensures Key? ==> s == name
      ensures Index? ==> IsDigitString(s) && DigitsValue(s) == position
    {
      match this
      case Key(n) => n
      case Index(p) => DigitsValueOfNatToString(p); NatToString(p)
    }
  }

  datatype Issue = Issue(path: seq<Segment>, message: string)

  function SegmentTexts(path: seq<Segment>): (r: seq<string>)
    ensures |r| == |path|
    ensures forall i :: 0 <= i < |path| ==> r[i] == path[i].Display()
  {
    seq(|path|, i requires 0 <= i < |path| => path[i].Display())
  }

  /** `issue.path.join('.')`. */
  function PathText(path: seq<Segment>): string
  {
    Join(SegmentTexts(path), ".")
  }

  /** A path of one key is written as the key itself. */
  lemma SingleKey(name: string)
    ensures PathText([Key(name)]) == name
  {
  }

  /** A path of two keys is written with one dot between them. */
  lemma TwoKeys(outer: string, inner: string)
    ensures PathText([Key(outer), Key(inner)]) == outer + "." + inner
  {
    var texts := SegmentTexts([Key(outer), Key(inner)]);
    assert texts == [outer, inner];
    assert texts[1..] == [inner];
    assert Join([inner], ".") == inner;
  }

  /** A dotted path splits back at the dots into its steps, when no key
      holds a dot of its own. */
  lemma DottedPath(path: seq<Segment>)
    requires |path| >= 1
    requires forall i :: 0 <= i < |path| ==> path[i].Key? ==> '.' !in path[i].name
    ensures Split(PathText(path), '.') == SegmentTexts(path)
  {
    var texts := SegmentTexts(path);
    forall i | 0 <= i < |texts|
      ensures '.' !in texts[i]
    {
      if path[i].Index? {
        assert forall k :: 0 <= k < |texts[i]| ==> IsDigit(texts[i][k]);
      }
    }
    SplitJoin(texts, '.');
  }
}

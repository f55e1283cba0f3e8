/**
 * `toTitleCase`, given here by a single left-to-right scan of the input
 * (each underscore becomes a space and starts a new word), and proved equal
 * to the split/map/join pipeline of `formatOrderStatus`.
 */
module Utils {
  import opened Strings
  import opened Constants

  /**
   * The title-cased rendering of `s`, where `atStart` says whether the
   * character before `s` ended a word (or there was none).
   */
  function TitleFrom(s: string, atStart: bool): (r: string)
    ensures |r| == |s|
  {
    if s == [] then []
    else if s[0] == '_' then [' '] + TitleFrom(s[1..], true)
    else [if atStart then UpperChar(LowerChar(s[0])) else LowerChar(s[0])] + TitleFrom(s[1..], false)
  }

  /** `toTitleCase`. */
  function ToTitleCase(value: string): (r: string)
    ensures |r| == |value|
  {
    TitleFrom(value, true)
  }

  /** A leading character can be put in front of the first piece of a join. */
  lemma JoinCons(c: char, p: string, rest: seq<string>, sep: char)
    ensures Join([[c] + p] + rest, sep) == [c] + Join([p] + rest, sep)
  {
    assert ([[c] + p] + rest)[1..] == rest;
    assert ([p] + rest)[1..] == rest;
  }

  lemma JoinEmptyHead(rest: seq<string>, sep: char)
    requires |rest| >= 1
    ensures Join([[]] + rest, sep) == [sep] + Join(rest, sep)
  {
    assert ([[]] + rest)[1..] == rest;
  }

  /**
   * The scan agrees with the pipeline on every suffix: from a word start it
   * produces all capitalised pieces, inside a word it leaves the first piece
   * as it is.
   */
  lemma {:induction false} TitleFromIsPipeline(s: string, atStart: bool)
    ensures var pieces := Split(ToLower(s), '_');
      TitleFrom(s, atStart) == Join(if atStart then Caps(pieces) else [pieces[0]] + Caps(pieces[1..]), ' ')
  {
    if s != [] {
      var lowered := ToLower(s);
      assert lowered[1..] == ToLower(s[1..]);
      var rest := Split(ToLower(s[1..]), '_');
      TitleFromIsPipeline(s[1..], true);
      TitleFromIsPipeline(s[1..], false);
      assert Caps(rest) == [Capitalize(rest[0])] + Caps(rest[1..]);
      if s[0] == '_' {
        assert Split(lowered, '_') == [[]] + rest;
        assert Caps([[]] + rest) == [[]] + Caps(rest);
        JoinEmptyHead(Caps(rest), ' ');
      } else {
        var d := LowerChar(s[0]);
        assert Split(lowered, '_') == [[d] + rest[0]] + rest[1..];
        assert Caps([[d] + rest[0]] + rest[1..]) == [[UpperChar(d)] + rest[0]] + Caps(rest[1..]);
        JoinCons(UpperChar(d), rest[0], Caps(rest[1..]), ' ');
        JoinCons(d, rest[0], Caps(rest[1..]), ' ');
      }
    }
  }

  /** `toTitleCase` and `formatOrderStatus` compute the same string on every input. */
  lemma TitleCaseIsFormat(value: string)
    ensures ToTitleCase(value) == FormatOrderStatus(value)
  {
    TitleFromIsPipeline(value, true);
  }

  /**
   * Through that equality, the title case has no underscore, one token per
   * underscore plus one, and no upper-case letter after a token's first.
   */
  lemma TitleCaseShape(value: string)
    ensures '_' !in ToTitleCase(value)
    ensures |StatusTokens(value)| == Count(value, '_') + 1
    ensures ToTitleCase(value) == Join(StatusTokens(value), ' ')
    ensures forall k, j :: 0 <= k < |StatusTokens(value)| && 1 <= j < |StatusTokens(value)[k]| ==>
      !IsUpperAscii(StatusTokens(value)[k][j])
  {
    TitleCaseIsFormat(value);
    FormatHasNoUnderscore(value);
    FormatTokenCount(value);
    FormatTokensLowerTail(value);
  }
}

/** Regular expressions as the source writes them, and what they match. */
module Regex {
  import opened Basics

  /** The characters between two bounds, as `a-z` in brackets. */
  datatype Range = Range(first: char, last: char)

  datatype Regex =
    | OneOf(ranges: seq<Range>)
    | Then(head: Regex, tail: Regex)
    | Times(repeated: Regex, least: nat, most: Option<nat>)

  predicate In(c: char, ranges: seq<Range>)
  {
    exists i :: 0 <= i < |ranges| && ranges[i].first <= c <= ranges[i].last
  }

  /** The whole text matches. */
  ghost predicate Matches(r: Regex, s: string)
    decreases r, 0, 0
  {
    match r
    case OneOf(ranges) => |s| == 1 && In(s[0], ranges)
    case Then(head, tail) => exists i :: 0 <= i <= |s| && Matches(head, s[..i]) && Matches(tail, s[i..])
    case Times(repeated, least, most) =>
      exists n: nat :: n >= least && (most.Some? ==> n <= most.value) && MatchesTimes(repeated, n, s)
  }

  /** The text is made of `n` matching pieces. */
  ghost predicate MatchesTimes(r: Regex, n: nat, s: string)
    decreases r, 1, n
  {
    if n == 0 then s == "" else exists i :: 0 <= i <= |s| && Matches(r, s[..i]) && MatchesTimes(r, n - 1, s[i..])
  }

  predicate AllIn(s: string, ranges: seq<Range>)
  {
    forall i :: 0 <= i < |s| ==> In(s[i], ranges)
  }

  predicate Allowed(n: nat, least: nat, most: Option<nat>)
  {
    n >= least && (most.Some? ==> n <= most.value)
  }

  lemma {:induction false} ClassTimes(ranges: seq<Range>, n: nat, s: string)
    ensures MatchesTimes(OneOf(ranges), n, s) <==> |s| == n && AllIn(s, ranges)
    decreases n
  {
    if n > 0 {
      if MatchesTimes(OneOf(ranges), n, s) {
        var i :| 0 <= i <= |s| && Matches(OneOf(ranges), s[..i]) && MatchesTimes(OneOf(ranges), n - 1, s[i..]);
        ClassTimes(ranges, n - 1, s[i..]);
        AllInParts(s, i, ranges);
      }
      if |s| == n && AllIn(s, ranges) {
        AllInParts(s, 1, ranges);
        ClassTimes(ranges, n - 1, s[1..]);
        assert Matches(OneOf(ranges), s[..1]);
      }
    }
  }

  lemma AllInParts(s: string, i: nat, ranges: seq<Range>)
    requires i <= |s|
    ensures AllIn(s, ranges) <==> AllIn(s[..i], ranges) && AllIn(s[i..], ranges)
  {
    assert s == s[..i] + s[i..];
  }

  /** Repeated characters. */
  lemma ClassRepeated(ranges: seq<Range>, least: nat, most: Option<nat>, s: string)
    ensures Matches(Times(OneOf(ranges), least, most), s) <==> Allowed(|s|, least, most) && AllIn(s, ranges)
  {
    forall n: nat { ClassTimes(ranges, n, s); }
    if Allowed(|s|, least, most) && AllIn(s, ranges) { assert MatchesTimes(OneOf(ranges), |s|, s); }
  }

  lemma ClassThen(ranges: seq<Range>, tail: Regex, s: string)
    ensures Matches(Then(OneOf(ranges), tail), s) <==> s != "" && In(s[0], ranges) && Matches(tail, s[1..])
  {
    if s != "" && In(s[0], ranges) && Matches(tail, s[1..]) { assert Matches(OneOf(ranges), s[..1]); }
    if Matches(Then(OneOf(ranges), tail), s) {
      var i :| 0 <= i <= |s| && Matches(OneOf(ranges), s[..i]) && Matches(tail, s[i..]);
      assert i == 1;
    }
  }

  /** A first character and then repeated ones: the shape of most of the patterns. */
  lemma HeadAndRest(head: seq<Range>, rest: seq<Range>, least: nat, most: Option<nat>, s: string)
    ensures Matches(Then(OneOf(head), Times(OneOf(rest), least, most)), s) <==>
              && s != "" && In(s[0], head) && Allowed(|s| - 1, least, most)
              && forall i :: 1 <= i < |s| ==> In(s[i], rest)
  {
    ClassThen(head, Times(OneOf(rest), least, most), s);
    if s != "" {
      ClassRepeated(rest, least, most, s[1..]);
      assert (forall i :: 1 <= i < |s| ==> In(s[i], rest)) <==> AllIn(s[1..], rest) by {
        assert forall i :: 1 <= i < |s| ==> s[i] == s[1..][i - 1];
      }
    }
  }

  /** A fixed text. */
  function Word(text: string): Regex
    requires text != ""
  {
    var first := OneOf([Range(text[0], text[0])]);
    if |text| == 1 then first else Then(first, Word(text[1..]))
  }

  lemma OnlyOne(c: char, d: char)
    ensures In(c, [Range(d, d)]) <==> c == d
  {
    assert [Range(d, d)][0] == Range(d, d);
  }

  lemma {:induction false} WordMatches(text: string, s: string)
    requires text != ""
    ensures Matches(Word(text), s) <==> s == text
    decreases |text|
  {
    if s != "" { OnlyOne(s[0], text[0]); }
    if |text| > 1 {
      ClassThen([Range(text[0], text[0])], Word(text[1..]), s);
      if s != "" {
        WordMatches(text[1..], s[1..]);
        assert s == [s[0]] + s[1..] && text == [text[0]] + text[1..];
      }
    } else {
      assert |s| == 1 ==> s == [s[0]];
      assert text == [text[0]];
    }
  }

  /** One after the other. */
  lemma InTwoParts(head: Regex, tail: Regex, a: string, b: string)
    requires Matches(head, a) && Matches(tail, b)
    ensures Matches(Then(head, tail), a + b)
  {
    assert (a + b)[..|a|] == a && (a + b)[|a|..] == b;
  }

  lemma PartsOf(head: Regex, tail: Regex, s: string) returns (a: string, b: string)
    requires Matches(Then(head, tail), s)
    ensures s == a + b && Matches(head, a) && Matches(tail, b)
  {
    var i :| 0 <= i <= |s| && Matches(head, s[..i]) && Matches(tail, s[i..]);
    a, b := s[..i], s[i..];
  }

  // ---------------------------------------------------------------- pieces after a separator

  /** Each word after a separator. */
  function Separated(c: char, ws: seq<string>): string
  {
    if ws == [] then "" else [c] + ws[0] + Separated(c, ws[1..])
  }

  function Piece(c: char, ranges: seq<Range>): Regex
  {
    Then(OneOf([Range(c, c)]), Times(OneOf(ranges), 1, None))
  }

  predicate GoodWord(w: string, ranges: seq<Range>)
  {
    w != "" && AllIn(w, ranges)
  }

  predicate GoodWords(ws: seq<string>, ranges: seq<Range>)
  {
    forall i :: 0 <= i < |ws| ==> GoodWord(ws[i], ranges)
  }

  lemma PieceMatches(c: char, ranges: seq<Range>, s: string)
    ensures Matches(Piece(c, ranges), s) <==> s != "" && s[0] == c && GoodWord(s[1..], ranges)
  {
    ClassThen([Range(c, c)], Times(OneOf(ranges), 1, None), s);
    if s != "" {
      OnlyOne(s[0], c);
      ClassRepeated(ranges, 1, None, s[1..]);
    }
  }

  lemma {:induction false} PiecesMatch(c: char, ranges: seq<Range>, ws: seq<string>)
    requires GoodWords(ws, ranges)
    ensures MatchesTimes(Piece(c, ranges), |ws|, Separated(c, ws))
  {
    if ws != [] {
      var first, s := [c] + ws[0], Separated(c, ws);
      PiecesMatch(c, ranges, ws[1..]);
      assert first[1..] == ws[0];
      PieceMatches(c, ranges, first);
      assert s[..|first|] == first && s[|first|..] == Separated(c, ws[1..]);
    }
  }

  lemma {:induction false} WordsOfPieces(c: char, ranges: seq<Range>, n: nat, s: string) returns (ws: seq<string>)
    requires MatchesTimes(Piece(c, ranges), n, s)
    ensures |ws| == n && GoodWords(ws, ranges) && s == Separated(c, ws)
    decreases n
  {
    ws := [];
    if n > 0 {
      var i :| 0 <= i <= |s| && Matches(Piece(c, ranges), s[..i]) && MatchesTimes(Piece(c, ranges), n - 1, s[i..]);
      PieceMatches(c, ranges, s[..i]);
      var more := WordsOfPieces(c, ranges, n - 1, s[i..]);
      ws := [s[..i][1..]] + more;
      assert ws[1..] == more && s == s[..i] + s[i..] && s[..i] == [c] + ws[0];
    }
  }
}

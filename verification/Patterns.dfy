/** The checks of texts against the patterns of the source, which are written here as the source writes them. */
module Patterns {
  import opened Basics
  import opened Regex
  import Calendar
  import CostExplorer
  import QueryGrammar
  import Inventory
  import ResourceExplorer

  const LOWER := Range('a', 'z')
  const UPPER := Range('A', 'Z')
  const DIGIT := Range('0', '9')
  const DASH := Range('-', '-')
  const UNDERSCORE := Range('_', '_')
  const COLON := Range(':', ':')
  const DOT := Range('.', '.')
  const SLASH := Range('/', '/')

  const ALPHANUMERIC: seq<Range> := [UPPER, LOWER, DIGIT]
  const SLUG: seq<Range> := [LOWER, DIGIT, DASH]

  lemma InThree(c: char, a: Range, b: Range, d: Range)
    ensures In(c, [a, b, d]) <==>
              a.first <= c <= a.last || b.first <= c <= b.last || d.first <= c <= d.last
  {
    var rs := [a, b, d];
    assert rs[0] == a && rs[1] == b && rs[2] == d;
  }

  lemma InTwo(c: char, a: Range, b: Range)
    ensures In(c, [a, b]) <==> a.first <= c <= a.last || b.first <= c <= b.last
  {
    var rs := [a, b];
    assert rs[0] == a && rs[1] == b;
  }

  lemma InOne(c: char, a: Range)
    ensures In(c, [a]) <==> a.first <= c <= a.last
  {
    assert [a][0] == a;
  }

  lemma InMore(c: char, rs: seq<Range>, more: seq<Range>)
    ensures In(c, rs + more) <==> In(c, rs) || In(c, more)
  {
    var all := rs + more;
    if In(c, rs) {
      var i :| 0 <= i < |rs| && rs[i].first <= c <= rs[i].last;
      assert all[i] == rs[i];
    }
    if In(c, more) {
      var i :| 0 <= i < |more| && more[i].first <= c <= more[i].last;
      assert all[|rs| + i] == more[i];
    }
  }

  lemma IsAlphanumeric(c: char)
    ensures In(c, ALPHANUMERIC) <==> Alphanumeric(c)
  {
    InThree(c, UPPER, LOWER, DIGIT);
  }

  lemma IsSlugChar(c: char)
    ensures In(c, SLUG) <==> QueryGrammar.SlugChar(c)
    ensures In(c, [LOWER, DIGIT]) <==> LowerOrDigit(c)
  {
    InThree(c, LOWER, DIGIT, DASH);
    InTwo(c, LOWER, DIGIT);
  }

  // ---------------------------------------------------------------- CloudFormation resources

  /** `[A-Za-z0-9][A-Za-z0-9_-]{0,127}`. */
  function LogicalId(): Regex
  {
    Then(OneOf(ALPHANUMERIC), Times(OneOf(ALPHANUMERIC + [UNDERSCORE, DASH]), 0, Some(127)))
  }

  lemma LogicalIdPattern(s: string)
    ensures Inventory.IsLogicalId(s) <==> Matches(LogicalId(), s)
  {
    HeadAndRest(ALPHANUMERIC, ALPHANUMERIC + [UNDERSCORE, DASH], 0, Some(127), s);
    if s != "" { IsAlphanumeric(s[0]); }
    forall i | 0 <= i < |s|
      ensures In(s[i], ALPHANUMERIC + [UNDERSCORE, DASH]) <==> Alphanumeric(s[i]) || s[i] == '_' || s[i] == '-'
    {
      IsAlphanumeric(s[i]);
      InMore(s[i], ALPHANUMERIC, [UNDERSCORE, DASH]);
      InTwo(s[i], UNDERSCORE, DASH);
    }
  }

  /** `AWS::[A-Za-z0-9][A-Za-z0-9:.-]{1,127}`. */
  function ResourceType(): Regex
  {
    Then(Word("AWS::"), TypeRest())
  }

  function TypeRest(): Regex
  {
    Then(OneOf(ALPHANUMERIC), Times(OneOf(ALPHANUMERIC + [COLON, DOT, DASH]), 1, Some(127)))
  }

  predicate IsTypeRest(t: string)
  {
    && 2 <= |t| <= 128 && Alphanumeric(t[0])
    && forall i :: 1 <= i < |t| ==> Alphanumeric(t[i]) || t[i] == ':' || t[i] == '.' || t[i] == '-'
  }

  lemma TypeRestPattern(t: string)
    ensures IsTypeRest(t) <==> Matches(TypeRest(), t)
  {
    HeadAndRest(ALPHANUMERIC, ALPHANUMERIC + [COLON, DOT, DASH], 1, Some(127), t);
    if t != "" { IsAlphanumeric(t[0]); }
    forall i | 0 <= i < |t|
      ensures In(t[i], ALPHANUMERIC + [COLON, DOT, DASH]) <==>
                Alphanumeric(t[i]) || t[i] == ':' || t[i] == '.' || t[i] == '-'
    {
      IsAlphanumeric(t[i]);
      InMore(t[i], ALPHANUMERIC, [COLON, DOT, DASH]);
      InThree(t[i], COLON, DOT, DASH);
    }
  }

  lemma TypeParts(t: string)
    ensures Inventory.IsResourceType("AWS::" + t) <==> IsTypeRest(t)
  {
    var s := "AWS::" + t;
    assert forall i :: 0 <= i < |t| ==> s[i + 5] == t[i];
    assert forall i :: 5 <= i < |s| ==> s[i] == t[i - 5];
  }

  lemma TypeBegins(s: string)
    requires Inventory.IsResourceType(s)
    ensures s == "AWS::" + s[5..]
  {
    assert s[..5] == "AWS::" && s == s[..5] + s[5..];
  }

  lemma ResourceTypePattern(s: string)
    ensures Inventory.IsResourceType(s) <==> Matches(ResourceType(), s)
  {
    if Inventory.IsResourceType(s) {
      TypeBegins(s);
      TypeParts(s[5..]);
      TypeRestPattern(s[5..]);
      WordMatches("AWS::", "AWS::");
      InTwoParts(Word("AWS::"), TypeRest(), "AWS::", s[5..]);
    }
    if Matches(ResourceType(), s) {
      var a, b := PartsOf(Word("AWS::"), TypeRest(), s);
      WordMatches("AWS::", a);
      TypeRestPattern(b);
      TypeParts(b);
    }
  }

  /** `[A-Z][A-Z0-9_]{1,63}`. */
  function StatusText(): Regex
  {
    Then(OneOf([UPPER]), Times(OneOf([UPPER, DIGIT, UNDERSCORE]), 1, Some(63)))
  }

  lemma StatusPattern(s: string)
    ensures Inventory.IsStatus(s) <==> Matches(StatusText(), s)
  {
    HeadAndRest([UPPER], [UPPER, DIGIT, UNDERSCORE], 1, Some(63), s);
    if s != "" { InOne(s[0], UPPER); }
    forall i | 0 <= i < |s| { InThree(s[i], UPPER, DIGIT, UNDERSCORE); }
  }

  // ---------------------------------------------------------------- Resource Explorer

  /** `[A-Za-z0-9][A-Za-z0-9._/-]*`. */
  function Keyword(): Regex
  {
    Then(OneOf(ALPHANUMERIC), Times(OneOf(ALPHANUMERIC + [DOT, UNDERSCORE, SLASH] + [DASH]), 0, None))
  }

  lemma KeywordPattern(s: string)
    ensures QueryGrammar.IsKeyword(s) <==> Matches(Keyword(), s)
  {
    HeadAndRest(ALPHANUMERIC, ALPHANUMERIC + [DOT, UNDERSCORE, SLASH] + [DASH], 0, None, s);
    if s != "" { IsAlphanumeric(s[0]); }
    forall i | 0 <= i < |s|
      ensures In(s[i], ALPHANUMERIC + [DOT, UNDERSCORE, SLASH] + [DASH]) <==>
                Alphanumeric(s[i]) || s[i] == '.' || s[i] == '_' || s[i] == '/' || s[i] == '-'
    {
      IsAlphanumeric(s[i]);
      InMore(s[i], ALPHANUMERIC + [DOT, UNDERSCORE, SLASH], [DASH]);
      InMore(s[i], ALPHANUMERIC, [DOT, UNDERSCORE, SLASH]);
      InThree(s[i], DOT, UNDERSCORE, SLASH);
      InOne(s[i], DASH);
    }
  }

  /** `[a-z0-9-]{1,64}`. */
  function ServiceName(): Regex
  {
    Times(OneOf(SLUG), 1, Some(64))
  }

  lemma ServicePattern(s: string)
    ensures ResourceExplorer.IsService(s) <==> Matches(ServiceName(), s)
  {
    ClassRepeated(SLUG, 1, Some(64), s);
    forall i | 0 <= i < |s| { IsSlugChar(s[i]); }
  }

  function Slug(): Regex
  {
    Times(OneOf(SLUG), 1, None)
  }

  function TypeName(): Regex
  {
    Then(OneOf([LOWER, DIGIT]), Times(OneOf(SLUG), 0, None))
  }

  /** The two groups of `([a-z0-9-]+):([a-z0-9][a-z0-9-]*)`. */
  lemma TypePatterns(service: string, kind: string)
    ensures QueryGrammar.IsSlug(service) <==> Matches(Slug(), service)
    ensures QueryGrammar.IsTypeName(kind) <==> Matches(TypeName(), kind)
  {
    ClassRepeated(SLUG, 1, None, service);
    forall i | 0 <= i < |service| { IsSlugChar(service[i]); }
    HeadAndRest([LOWER, DIGIT], SLUG, 0, None, kind);
    forall i | 0 <= i < |kind| { IsSlugChar(kind[i]); }
  }

  /** `[a-z]{2}(?:-[a-z0-9]+){1,4}-[0-9]`. */
  function Region(): Regex
  {
    Then(Times(OneOf([LOWER]), 2, Some(2)), Then(Middle(), Last()))
  }

  /** A region of these parts. */
  predicate RegionOf(s: string, head: string, words: seq<string>, digit: char)
  {
    && s == head + (Separated('-', words) + ['-', digit])
    && |head| == 2 && Lower(head[0]) && Lower(head[1]) && 1 <= |words| <= 4 && GoodWords(words, [LOWER, DIGIT])
    && IsDigit(digit)
  }

  function Middle(): Regex
  {
    Times(Piece('-', [LOWER, DIGIT]), 1, Some(4))
  }

  function Last(): Regex
  {
    Then(OneOf([DASH]), OneOf([DIGIT]))
  }

  lemma HeadMatches(head: string)
    ensures Matches(Times(OneOf([LOWER]), 2, Some(2)), head) <==> |head| == 2 && Lower(head[0]) && Lower(head[1])
  {
    ClassRepeated([LOWER], 2, Some(2), head);
    forall i | 0 <= i < |head| { InOne(head[i], LOWER); }
  }

  lemma LastMatches(last: string)
    ensures Matches(Last(), last) <==> |last| == 2 && last[0] == '-' && IsDigit(last[1])
  {
    ClassThen([DASH], OneOf([DIGIT]), last);
    if last != "" { InOne(last[0], DASH); }
    if |last| == 2 { InOne(last[1], DIGIT); }
  }

  lemma MiddleWords(middle: string) returns (words: seq<string>)
    requires Matches(Middle(), middle)
    ensures 1 <= |words| <= 4 && GoodWords(words, [LOWER, DIGIT]) && middle == Separated('-', words)
  {
    var n: nat :| n >= 1 && n <= 4 && MatchesTimes(Piece('-', [LOWER, DIGIT]), n, middle);
    words := WordsOfPieces('-', [LOWER, DIGIT], n, middle);
  }

  lemma TailParts(rest: string) returns (words: seq<string>, digit: char)
    requires Matches(Then(Middle(), Last()), rest)
    ensures 1 <= |words| <= 4 && GoodWords(words, [LOWER, DIGIT]) && IsDigit(digit)
    ensures rest == Separated('-', words) + ['-', digit]
  {
    var middle, last := PartsOf(Middle(), Last(), rest);
    LastMatches(last);
    words := MiddleWords(middle);
    digit := last[1];
    assert last == ['-', digit];
  }

  lemma RegionParts(s: string) returns (head: string, words: seq<string>, digit: char)
    requires Matches(Region(), s)
    ensures RegionOf(s, head, words, digit)
  {
    var rest;
    head, rest := PartsOf(Times(OneOf([LOWER]), 2, Some(2)), Then(Middle(), Last()), s);
    HeadMatches(head);
    words, digit := TailParts(rest);
  }

  lemma PartsAreRegion(s: string, head: string, words: seq<string>, digit: char)
    requires RegionOf(s, head, words, digit)
    ensures Matches(Region(), s)
  {
    var middle, last := Separated('-', words), ['-', digit];
    HeadMatches(head);
    LastMatches(last);
    PiecesMatch('-', [LOWER, DIGIT], words);
    assert Matches(Middle(), middle);
    InTwoParts(Middle(), Last(), middle, last);
    InTwoParts(Times(OneOf([LOWER]), 2, Some(2)), Then(Middle(), Last()), head, middle + last);
  }

  lemma {:induction false} GlueOfWords(head: string, words: seq<string>, last: string)
    ensures QueryGrammar.Glue([head] + words + [last], '-') == head + (Separated('-', words) + (['-'] + last))
    decreases |words|
  {
    var parts := [head] + words + [last];
    if words == [] {
      assert parts == [head] + [last] && [last][0] == last;
      QueryGrammar.MoreGlue(head, [last], '-');
    } else {
      var rest := [words[0]] + words[1..] + [last];
      GlueOfWords(words[0], words[1..], last);
      assert words == [words[0]] + words[1..] && parts == [head] + rest;
      QueryGrammar.MoreGlue(head, rest, '-');
    }
  }

  lemma WordIsFree(w: string)
    requires AllIn(w, [LOWER, DIGIT])
    ensures '-' !in w
  {
    forall i | 0 <= i < |w| ensures w[i] != '-' { IsSlugChar(w[i]); }
  }

  lemma PartsSplit(s: string, head: string, words: seq<string>, digit: char)
    requires RegionOf(s, head, words, digit)
    ensures QueryGrammar.SplitAt(s, '-') == [head] + words + [[digit]]
  {
    var parts := [head] + words + [[digit]];
    GlueOfWords(head, words, [digit]);
    assert head == [head[0], head[1]] && ['-'] + [digit] == ['-', digit];
    forall i | 0 <= i < |parts| ensures '-' !in parts[i] {
      if 0 < i < |parts| - 1 {
        assert parts[i] == words[i - 1];
        WordIsFree(words[i - 1]);
      }
    }
    QueryGrammar.SplitOfGlue(parts, '-');
  }

  lemma RegionIsMadeOf(s: string) returns (head: string, words: seq<string>, digit: char)
    requires QueryGrammar.IsRegion(s)
    ensures RegionOf(s, head, words, digit)
  {
    var parts := QueryGrammar.SplitAt(s, '-');
    var n := |parts|;
    head, words, digit := parts[0], parts[1..n - 1], parts[n - 1][0];
    QueryGrammar.GlueOfSplit(s, '-');
    assert parts[n - 1] == [digit] && parts == [head] + words + [[digit]];
    GlueOfWords(head, words, [digit]);
    assert ['-'] + [digit] == ['-', digit];
    forall i | 0 <= i < |words| ensures GoodWord(words[i], [LOWER, DIGIT]) {
      assert words[i] == parts[i + 1];
      forall k | 0 <= k < |words[i]| ensures In(words[i][k], [LOWER, DIGIT]) { IsSlugChar(words[i][k]); }
    }
  }

  lemma MadeOfIsRegion(s: string, head: string, words: seq<string>, digit: char)
    requires RegionOf(s, head, words, digit)
    ensures QueryGrammar.IsRegion(s)
  {
    PartsSplit(s, head, words, digit);
    var parts := QueryGrammar.SplitAt(s, '-');
    forall i | 0 < i < |parts| - 1
      ensures parts[i] != "" && forall k :: 0 <= k < |parts[i]| ==> LowerOrDigit(parts[i][k])
    {
      assert parts[i] == words[i - 1] && GoodWord(words[i - 1], [LOWER, DIGIT]);
      forall k | 0 <= k < |parts[i]| ensures LowerOrDigit(parts[i][k]) { IsSlugChar(parts[i][k]); }
    }
  }

  lemma RegionPattern(s: string)
    ensures QueryGrammar.IsRegion(s) <==> Matches(Region(), s)
  {
    if QueryGrammar.IsRegion(s) {
      var head, words, digit := RegionIsMadeOf(s);
      PartsAreRegion(s, head, words, digit);
    }
    if Matches(Region(), s) {
      var head, words, digit := RegionParts(s);
      MadeOfIsRegion(s, head, words, digit);
    }
  }

  // ---------------------------------------------------------------- the tokens of a query

  predicate ServiceToken(t: string, v: string, services: set<string>)
  {
    v in services && v != "" && t == "service" + ":" + v
  }

  ghost predicate RegionToken(t: string, v: string)
  {
    (v == "global" || Matches(Region(), v)) && t == "region" + ":" + v
  }

  ghost predicate TypeToken(t: string, service: string, kind: string, services: set<string>)
  {
    && service in services && Matches(Slug(), service) && Matches(TypeName(), kind)
    && t == "resourcetype" + ":" + (service + ":" + kind)
  }

  lemma ServiceTokens(t: string, services: set<string>)
    ensures QueryGrammar.IsFilter(t, "service", services) <==> exists v :: ServiceToken(t, v, services)
  {
    if QueryGrammar.IsFilter(t, "service", services) {
      var v :| v != "" && t == "service" + ":" + v && QueryGrammar.FilterAllows("service", v, services);
      assert ServiceToken(t, v, services);
    }
  }

  lemma RegionTokens(t: string, services: set<string>)
    ensures QueryGrammar.IsFilter(t, "region", services) <==> exists v :: RegionToken(t, v)
  {
    if QueryGrammar.IsFilter(t, "region", services) {
      var v :| v != "" && t == "region" + ":" + v && QueryGrammar.FilterAllows("region", v, services);
      RegionPattern(v);
      assert RegionToken(t, v);
    }
    if v :| RegionToken(t, v) { RegionPattern(v); }
  }

  lemma TypeTokens(t: string, services: set<string>)
    ensures QueryGrammar.IsFilter(t, "resourcetype", services)
            <==> exists service, kind :: TypeToken(t, service, kind, services)
  {
    if QueryGrammar.IsFilter(t, "resourcetype", services) {
      var v :| v != "" && t == "resourcetype" + ":" + v && QueryGrammar.FilterAllows("resourcetype", v, services);
      var service, kind :| v == service + ":" + kind && service in services
                           && QueryGrammar.IsSlug(service) && QueryGrammar.IsTypeName(kind);
      TypePatterns(service, kind);
      assert TypeToken(t, service, kind, services);
    }
    if service, kind :| TypeToken(t, service, kind, services) {
      TypePatterns(service, kind);
      assert QueryGrammar.FilterAllows("resourcetype", service + ":" + kind, services);
    }
  }

  lemma ThreeFilters(t: string, services: set<string>)
    ensures (exists name :: ':' !in name && QueryGrammar.IsFilter(t, name, services)) <==>
              || QueryGrammar.IsFilter(t, "service", services) || QueryGrammar.IsFilter(t, "region", services)
              || QueryGrammar.IsFilter(t, "resourcetype", services)
  {
    assert ':' !in "service" && ':' !in "region" && ':' !in "resourcetype";
  }

  /** The tokens the search accepts, written out: no operator, but a keyword, a listed service, a region or a type of a
      listed service. */
  lemma TokenForms(t: string, services: set<string>)
    ensures QueryGrammar.GoodToken(t, services) <==>
              && !QueryGrammar.IsOperator(t)
              && (|| Matches(Keyword(), t) || (exists v :: ServiceToken(t, v, services))
                  || (exists v :: RegionToken(t, v))
                  || (exists service, kind :: TypeToken(t, service, kind, services)))
  {
    KeywordPattern(t);
    ServiceTokens(t, services);
    RegionTokens(t, services);
    TypeTokens(t, services);
    ThreeFilters(t, services);
  }

  // ---------------------------------------------------------------- characters that are kept

  /** `[A-Za-z0-9._:/+=-]`. */
  const ID_CHARS: seq<Range> :=
    ALPHANUMERIC + ([DOT, UNDERSCORE, COLON] + [SLASH, Range('+', '+'), Range('=', '=')]) + [DASH]

  /** `[A-Za-z0-9 .:/_-]`. */
  const DIMENSION_CHARS: seq<Range> := ALPHANUMERIC + ([Range(' ', ' '), DOT, COLON] + [SLASH, UNDERSCORE]) + [DASH]

  lemma KeptCharacters(c: char)
    ensures ResourceExplorer.ResourceIdChar(c) <==> In(c, ID_CHARS)
    ensures CostExplorer.SafeKeyChar(c) <==> In(c, DIMENSION_CHARS)
  {
    IsAlphanumeric(c);
    InOne(c, DASH);
    var ids := [DOT, UNDERSCORE, COLON] + [SLASH, Range('+', '+'), Range('=', '=')];
    InThree(c, DOT, UNDERSCORE, COLON);
    InThree(c, SLASH, Range('+', '+'), Range('=', '='));
    InMore(c, [DOT, UNDERSCORE, COLON], [SLASH, Range('+', '+'), Range('=', '=')]);
    InMore(c, ALPHANUMERIC, ids);
    InMore(c, ALPHANUMERIC + ids, [DASH]);
    var dims := [Range(' ', ' '), DOT, COLON] + [SLASH, UNDERSCORE];
    InThree(c, Range(' ', ' '), DOT, COLON);
    InTwo(c, SLASH, UNDERSCORE);
    InMore(c, [Range(' ', ' '), DOT, COLON], [SLASH, UNDERSCORE]);
    InMore(c, ALPHANUMERIC, dims);
    InMore(c, ALPHANUMERIC + dims, [DASH]);
  }

  // ---------------------------------------------------------------- dates and account numbers

  /** `[0-9]{12}`. */
  lemma AccountPattern(s: string)
    ensures |s| == 12 && Calendar.AllDigits(s) <==> Matches(Digits(12), s)
  {
    DigitsMatch(12, s);
  }

  /** `\d{4}-\d{2}-\d{2}`, with the ASCII digits. */
  function IsoDate(): Regex
  {
    Then(Digits(4), Then(OneOf([DASH]), Then(Digits(2), Then(OneOf([DASH]), Digits(2)))))
  }

  function Digits(n: nat): Regex
  {
    Times(OneOf([DIGIT]), n, Some(n))
  }

  lemma DigitsMatch(n: nat, s: string)
    ensures Matches(Digits(n), s) <==> |s| == n && Calendar.AllDigits(s)
  {
    ClassRepeated([DIGIT], n, Some(n), s);
    forall i | 0 <= i < |s| { InOne(s[i], DIGIT); }
  }

  /** A number of fixed length before the rest. */
  lemma DigitsThen(n: nat, tail: Regex, s: string)
    ensures Matches(Then(Digits(n), tail), s) <==>
              |s| >= n && Calendar.AllDigits(s[..n]) && Matches(tail, s[n..])
  {
    if |s| >= n && Calendar.AllDigits(s[..n]) && Matches(tail, s[n..]) { DigitsMatch(n, s[..n]); }
    if Matches(Then(Digits(n), tail), s) {
      var i :| 0 <= i <= |s| && Matches(Digits(n), s[..i]) && Matches(tail, s[i..]);
      DigitsMatch(n, s[..i]);
    }
  }

  lemma DashThen(tail: Regex, s: string)
    ensures Matches(Then(OneOf([DASH]), tail), s) <==> s != "" && s[0] == '-' && Matches(tail, s[1..])
  {
    ClassThen([DASH], tail, s);
    if s != "" { InOne(s[0], DASH); }
  }

  lemma IsoPattern(s: string)
    ensures Calendar.IsoShape(s) <==> Matches(IsoDate(), s)
  {
    var day := Digits(2);
    var month := Then(Digits(2), Then(OneOf([DASH]), day));
    DigitsThen(4, Then(OneOf([DASH]), month), s);
    if |s| >= 4 { DashThen(month, s[4..]); }
    if |s| >= 5 {
      assert s[4..][1..] == s[5..];
      DigitsThen(2, Then(OneOf([DASH]), day), s[5..]);
    }
    if |s| >= 7 {
      assert s[5..][..2] == s[5..7] && s[5..][2..] == s[7..];
      DashThen(day, s[7..]);
    }
    if |s| >= 8 {
      assert s[7..][1..] == s[8..];
      DigitsMatch(2, s[8..]);
    }
  }
}

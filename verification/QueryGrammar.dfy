/** The Resource Explorer query: normalisation and the token grammar it accepts. */
module QueryGrammar {
  import opened Basics

  const MAX_RESOURCE_EXPLORER_QUERY_CHARS := 256

  const RESOURCE_EXPLORER_SERVICES: set<string> := {
    "apigateway", "apigatewayv2", "cloudformation", "dynamodb", "ec2", "ecs", "eks", "elasticloadbalancing",
    "iam", "kms", "lambda", "logs", "rds", "route53", "s3", "secretsmanager", "sns", "sqs", "ssm"
  }

  // ---------------------------------------------------------------- words

  /** What `str.split()` splits at. */
  predicate IsSpace(c: char)
  {
    var n := c as int;
    9 <= n <= 13 || 28 <= n <= 32 || n == 0x85 || n == 0xA0 || n == 0x1680 || 0x2000 <= n <= 0x200A
    || n == 0x2028 || n == 0x2029 || n == 0x202F || n == 0x205F || n == 0x3000
  }

  function WordLength(s: string): (k: nat)
    ensures k <= |s| && (forall i :: 0 <= i < k ==> !IsSpace(s[i])) && (k < |s| ==> IsSpace(s[k]))
  {
    if s == "" || IsSpace(s[0]) then 0 else 1 + WordLength(s[1..])
  }

  /** `str.split()`. */
  function Words(s: string): seq<string>
    decreases |s|
  {
    if s == "" then []
    else if IsSpace(s[0]) then Words(s[1..])
    else var k := WordLength(s); [s[..k]] + Words(s[k..])
  }

  /** `" ".join(...)`. */
  function Join(ws: seq<string>): string
  {
    if ws == [] then "" else if |ws| == 1 then ws[0] else ws[0] + " " + Join(ws[1..])
  }

  /** `" ".join(query.split())`. */
  function Normalized(query: string): string
  {
    Join(Words(query))
  }

  function Find(s: string, c: char): (i: nat)
    ensures i <= |s| && (forall k :: 0 <= k < i ==> s[k] != c) && (i < |s| ==> s[i] == c)
  {
    if s == "" || s[0] == c then 0 else 1 + Find(s[1..], c)
  }

  /** `str.split(c)` for one character. */
  function SplitAt(s: string, c: char): (parts: seq<string>)
    ensures parts != []
    decreases |s|
  {
    var i := Find(s, c);
    if i == |s| then [s] else [s[..i]] + SplitAt(s[i + 1..], c)
  }

  /** The parts with `c` between them. */
  function Glue(parts: seq<string>, c: char): string
  {
    if parts == [] then "" else if |parts| == 1 then parts[0] else parts[0] + [c] + Glue(parts[1..], c)
  }

  predicate FreeOf(c: char, parts: seq<string>)
  {
    forall i :: 0 <= i < |parts| ==> c !in parts[i]
  }

  lemma MoreGlue(part: string, parts: seq<string>, c: char)
    requires parts != []
    ensures Glue([part] + parts, c) == part + [c] + Glue(parts, c)
  {
    assert ([part] + parts)[1..] == parts;
  }

  lemma CutAt(s: string, c: char)
    ensures var i := Find(s, c); c !in s[..i] && (i < |s| ==> s == s[..i] + [c] + s[i + 1..])
  {
    var i := Find(s, c);
    assert forall k :: 0 <= k < i ==> s[..i][k] == s[k];
  }

  lemma FreeMore(c: char, part: string, parts: seq<string>)
    requires c !in part && FreeOf(c, parts)
    ensures FreeOf(c, [part] + parts)
  {
  }

  /** Splitting is undone by gluing, and leaves no separator in the parts. */
  lemma {:induction false} GlueOfSplit(s: string, c: char)
    ensures Glue(SplitAt(s, c), c) == s && FreeOf(c, SplitAt(s, c))
    decreases |s|
  {
    var i := Find(s, c);
    CutAt(s, c);
    if i < |s| {
      GlueOfSplit(s[i + 1..], c);
      MoreGlue(s[..i], SplitAt(s[i + 1..], c), c);
      FreeMore(c, s[..i], SplitAt(s[i + 1..], c));
    } else {
      assert s[..i] == s;
    }
  }

  lemma FindGlued(part: string, c: char, rest: string)
    requires c !in part
    ensures var s := part + [c] + rest; Find(s, c) == |part| && s[..|part|] == part && s[|part| + 1..] == rest
  {
    var s := part + [c] + rest;
    assert forall k :: 0 <= k < |part| ==> s[k] == part[k];
    assert s[|part|] == c;
  }

  /** And gluing parts without the separator is undone by splitting. */
  lemma {:induction false} SplitOfGlue(parts: seq<string>, c: char)
    requires parts != [] && FreeOf(c, parts)
    ensures SplitAt(Glue(parts, c), c) == parts
  {
    if |parts| == 1 {
      assert c !in parts[0] && parts == [parts[0]];
    } else {
      assert forall i :: 0 <= i < |parts[1..]| ==> parts[1..][i] == parts[i + 1];
      SplitOfGlue(parts[1..], c);
      FindGlued(parts[0], c, Glue(parts[1..], c));
      assert parts == [parts[0]] + parts[1..];
    }
  }

  predicate IsWord(w: string)
  {
    w != "" && forall i :: 0 <= i < |w| ==> !IsSpace(w[i])
  }

  predicate AreWords(ws: seq<string>)
  {
    forall i :: 0 <= i < |ws| ==> IsWord(ws[i])
  }

  lemma {:induction false} WordsAreWords(s: string)
    ensures AreWords(Words(s))
    decreases |s|
  {
    if s != "" {
      if IsSpace(s[0]) {
        WordsAreWords(s[1..]);
      } else {
        WordsAreWords(s[WordLength(s)..]);
      }
    }
  }

  lemma {:induction false} JoinIsShort(s: string)
    ensures |Join(Words(s))| <= |s|
    decreases |s|
  {
    if s != "" {
      if IsSpace(s[0]) {
        JoinIsShort(s[1..]);
      } else {
        var k := WordLength(s);
        var rest := s[k..];
        if rest != "" {
          JoinIsShort(rest[1..]);
          assert Words(rest) == Words(rest[1..]);
        }
        assert Words(s)[1..] == Words(rest);
      }
    }
  }

  /** Splitting at white space, by the text before a space and the text after it. With the empty text and single words,
      this says what the words of any text are. */
  lemma {:induction false} WordsAtSpace(a: string, c: char, b: string)
    requires IsSpace(c)
    ensures Words(a + [c] + b) == Words(a) + Words(b)
    decreases |a|
  {
    var s := a + [c] + b;
    if a == "" {
      assert s[1..] == b;
    } else if IsSpace(a[0]) {
      assert s[1..] == a[1..] + [c] + b;
      WordsAtSpace(a[1..], c, b);
    } else {
      var k := WordLength(a);
      assert forall i :: 0 <= i < |a| ==> s[i] == a[i];
      assert s[|a|] == c;
      assert WordLength(s) == k && s[..k] == a[..k] && s[k..] == a[k..] + [c] + b;
      WordsAtSpace(a[k..], c, b);
    }
  }

  /** The code points of white space. */
  lemma Spaces(c: char)
    ensures IsSpace(c) <==>
              c as int in {9, 10, 11, 12, 13, 28, 29, 30, 31, 32, 133, 160, 5760, 8192, 8193, 8194, 8195, 8196, 8197,
                           8198, 8199, 8200, 8201, 8202, 8232, 8233, 8239, 8287, 12288}
  {
  }

  lemma WordThenRest(w: string, rest: string)
    requires IsWord(w) && (rest == "" || IsSpace(rest[0]))
    ensures Words(w + rest) == [w] + Words(rest)
  {
    var s := w + rest;
    var k := WordLength(s);
    assert s[0] == w[0];
    assert forall j :: 0 <= j < |w| ==> s[j] == w[j];
    assert rest != "" ==> s[|w|] == rest[0];
    assert s[..k] == w && s[k..] == rest;
  }

  lemma {:induction false} WordsOfJoin(ws: seq<string>)
    requires AreWords(ws)
    ensures Words(Join(ws)) == ws
  {
    if |ws| == 1 {
      WordThenRest(ws[0], "");
      assert ws[0] + "" == ws[0] && ws == [ws[0]];
    } else if |ws| > 1 {
      WordsOfJoin(ws[1..]);
      var rest := " " + Join(ws[1..]);
      WordThenRest(ws[0], rest);
      assert rest[1..] == Join(ws[1..]);
      assert ws[0] + rest == Join(ws);
      assert ws == [ws[0]] + ws[1..];
    }
  }

  lemma PartThenRest(w: string, rest: string)
    requires IsWord(w) && (rest == "" || rest[0] == ' ')
    ensures SplitAt(w + rest, ' ') == if rest == "" then [w] else [w] + SplitAt(rest[1..], ' ')
  {
    var s := w + rest;
    var i := Find(s, ' ');
    assert forall j :: 0 <= j < |w| ==> s[j] == w[j];
    assert rest != "" ==> s[|w|] == rest[0];
    assert i == |w| && s[..i] == w && (rest != "" ==> s[i + 1..] == rest[1..]);
    assert rest == "" ==> s == w;
  }

  lemma {:induction false} SplitOfJoin(ws: seq<string>)
    requires AreWords(ws) && ws != []
    ensures SplitAt(Join(ws), ' ') == ws
  {
    if |ws| == 1 {
      PartThenRest(ws[0], "");
      assert ws[0] + "" == ws[0] && ws == [ws[0]];
    } else {
      SplitOfJoin(ws[1..]);
      var rest := " " + Join(ws[1..]);
      PartThenRest(ws[0], rest);
      assert rest[1..] == Join(ws[1..]);
      assert ws[0] + rest == Join(ws);
      assert ws == [ws[0]] + ws[1..];
    }
  }

  // ---------------------------------------------------------------- the grammar

  predicate KeywordChar(c: char) { Alphanumeric(c) || c == '.' || c == '_' || c == '/' || c == '-' }
  predicate SlugChar(c: char) { LowerOrDigit(c) || c == '-' }

  function LowerCase(s: string): string
  {
    seq(|s|, i requires 0 <= i < |s| => if Upper(s[i]) then s[i] + 32 as char else s[i])
  }

  predicate IsOperator(t: string)
  {
    LowerCase(t) == "not" || LowerCase(t) == "or"
  }

  /** The operators in any mixture of cases. */
  lemma Operators(t: string)
    ensures IsOperator(t) <==>
              || (|t| == 3 && t[0] in "nN" && t[1] in "oO" && t[2] in "tT")
              || (|t| == 2 && t[0] in "oO" && t[1] in "rR")
  {
    var low := LowerCase(t);
    assert |low| == |t| && forall i :: 0 <= i < |t| ==> low[i] == if Upper(t[i]) then t[i] + 32 as char else t[i];
    if |t| == 3 { assert low == [low[0], low[1], low[2]]; }
    if |t| == 2 { assert low == [low[0], low[1]]; }
  }

  /** `[A-Za-z0-9][A-Za-z0-9._/-]*`. */
  predicate IsKeyword(t: string)
  {
    t != "" && Alphanumeric(t[0]) && forall i :: 0 <= i < |t| ==> KeywordChar(t[i])
  }

  /** `[a-z]{2}(-[a-z0-9]+){1,4}-[0-9]`. */
  predicate IsRegion(v: string)
  {
    var parts := SplitAt(v, '-');
    && 3 <= |parts| <= 6
    && |parts[0]| == 2 && Lower(parts[0][0]) && Lower(parts[0][1])
    && (forall i, k :: 0 < i < |parts| - 1 && 0 <= k < |parts[i]| ==> LowerOrDigit(parts[i][k]))
    && (forall i :: 0 < i < |parts| - 1 ==> parts[i] != "")
    && |parts[|parts| - 1]| == 1 && IsDigit(parts[|parts| - 1][0])
  }

  /** `[a-z0-9-]+` and `[a-z0-9][a-z0-9-]*`. */
  predicate IsSlug(s: string)
  {
    s != "" && forall i :: 0 <= i < |s| ==> SlugChar(s[i])
  }

  predicate IsTypeName(s: string)
  {
    IsSlug(s) && LowerOrDigit(s[0])
  }

  ghost predicate FilterAllows(name: string, value: string, services: set<string>)
  {
    || (name == "service" && value in services)
    || (name == "region" && (value == "global" || IsRegion(value)))
    || (name == "resourcetype" && exists service, kind ::
          value == service + ":" + kind && service in services && IsSlug(service) && IsTypeName(kind))
  }

  /** A token is a keyword, or a filter name, a colon and an allowed non-empty value. */
  ghost predicate IsFilter(t: string, name: string, services: set<string>)
  {
    exists value :: value != "" && t == name + ":" + value && FilterAllows(name, value, services)
  }

  ghost predicate GoodToken(t: string, services: set<string>)
  {
    !IsOperator(t) && (IsKeyword(t) || exists name :: ':' !in name && IsFilter(t, name, services))
  }

  /** Tokens are good and no filter is used twice. */
  ghost predicate GoodTokens(ts: seq<string>, services: set<string>)
  {
    && (forall i :: 0 <= i < |ts| ==> GoodToken(ts[i], services))
    && (forall i, k, name :: 0 <= i < k < |ts| && ':' !in name && IsFilter(ts[i], name, services) ==>
          !IsFilter(ts[k], name, services))
  }

  ghost predicate Accepts(query: string, services: set<string>)
  {
    && 0 < |query| <= 256
    && (Words(query) == ["*"] || (Words(query) != [] && GoodTokens(Words(query), services)))
  }

  /** Normalising never lengthens a query, and a normalised query is accepted as it is. */
  lemma NormalizedIsStable(query: string, services: set<string>)
    requires Accepts(query, services)
    ensures |Normalized(query)| <= |query|
    ensures Accepts(Normalized(query), services) && Normalized(Normalized(query)) == Normalized(query)
  {
    JoinIsShort(query);
    WordsAreWords(query);
    WordsOfJoin(Words(query));
  }

  // ---------------------------------------------------------------- the check

  lemma SplitOnce(name: string, value: string)
    requires ':' !in name
    ensures Find(name + ":" + value, ':') == |name|
    ensures (name + ":" + value)[..|name|] == name && (name + ":" + value)[|name| + 1..] == value
  {
    var s := name + ":" + value;
    var i := Find(s, ':');
    assert forall j :: 0 <= j < |name| ==> s[j] == name[j];
    assert s[|name|] == ':';
  }

  /** `valid_filter` of the source, with the first colon of the value splitting a resource type. */
  predicate ValidFilter(name: string, value: string, services: set<string>)
  {
    if name == "service" then value in services
    else if name == "region" then value == "global" || IsRegion(value)
    else if name == "resourcetype" then
      var c := Find(value, ':');
      c < |value| && IsSlug(value[..c]) && IsTypeName(value[c + 1..]) && value[..c] in services
    else false
  }

  lemma SlugHasNoColon(s: string)
    requires IsSlug(s)
    ensures ':' !in s
  {
  }

  lemma ValidFilterCorrect(name: string, value: string, services: set<string>)
    ensures ValidFilter(name, value, services) <==> FilterAllows(name, value, services)
  {
    if name == "resourcetype" {
      var c := Find(value, ':');
      if c < |value| {
        assert value == value[..c] + ":" + value[c + 1..];
      }
      forall service, kind | value == service + ":" + kind && IsSlug(service)
        ensures service == value[..c] && kind == value[c + 1..] && c < |value|
      {
        SlugHasNoColon(service);
        SplitOnce(service, kind);
      }
    }
  }

  /** What the loop decides about one token: not a filter, or its filter name; `None` rejects. */
  datatype Token = Keyword | Filter(name: string)

  function Classify(t: string, services: set<string>): Option<Token>
  {
    var c := Find(t, ':');
    if IsOperator(t) then None
    else if c == |t| then (if IsKeyword(t) then Some(Keyword) else None)
    else if c + 1 < |t| && ValidFilter(t[..c], t[c + 1..], services) then Some(Filter(t[..c]))
    else None
  }

  lemma ClassifyFilter(t: string, name: string, services: set<string>)
    requires ':' !in name
    ensures !IsOperator(t) ==> (IsFilter(t, name, services) <==> Classify(t, services) == Some(Filter(name)))
  {
    var c := Find(t, ':');
    if IsFilter(t, name, services) {
      var value :| value != "" && t == name + ":" + value && FilterAllows(name, value, services);
      SplitOnce(name, value);
      ValidFilterCorrect(name, value, services);
    }
    if c < |t| && t[..c] == name {
      assert t == name + ":" + t[c + 1..];
      ValidFilterCorrect(name, t[c + 1..], services);
    }
  }

  lemma ClassifyCorrect(t: string, services: set<string>)
    ensures GoodToken(t, services) <==> Classify(t, services).Some?
  {
    var c := Find(t, ':');
    if !IsOperator(t) {
      if c < |t| {
        assert !IsKeyword(t) by { assert !KeywordChar(t[c]); }
        assert ':' !in t[..c];
        ClassifyFilter(t, t[..c], services);
      }
      forall name | ':' !in name && IsFilter(t, name, services) ensures Classify(t, services).Some? {
        ClassifyFilter(t, name, services);
      }
    }
  }

  /** The first `i` tokens are fine, and `seen` are the filters among them. */
  ghost predicate Passed(tokens: seq<string>, i: nat, seen: set<string>, services: set<string>)
  {
    && i <= |tokens| && GoodTokens(tokens[..i], services)
    && forall name :: name in seen <==> exists k :: 0 <= k < i && Classify(tokens[k], services) == Some(Filter(name))
  }

  lemma TokenFails(tokens: seq<string>, i: nat, services: set<string>)
    requires i < |tokens| && Classify(tokens[i], services).None?
    ensures !GoodTokens(tokens, services)
  {
    ClassifyCorrect(tokens[i], services);
  }

  lemma TokenRepeats(tokens: seq<string>, i: nat, seen: set<string>, name: string, services: set<string>)
    requires i < |tokens| && Passed(tokens, i, seen, services) && name in seen
    requires Classify(tokens[i], services) == Some(Filter(name))
    ensures !GoodTokens(tokens, services)
  {
    var k :| 0 <= k < i && Classify(tokens[k], services) == Some(Filter(name));
    RepeatedFilter(tokens, k, i, name, services);
  }

  function Noted(seen: set<string>, token: Token): set<string>
  {
    if token.Filter? then seen + {token.name} else seen
  }

  lemma SeenGrows(tokens: seq<string>, i: nat, seen: set<string>, services: set<string>)
    requires i < |tokens| && Passed(tokens, i, seen, services) && Classify(tokens[i], services).Some?
    ensures var more := Noted(seen, Classify(tokens[i], services).value);
            forall name :: name in more <==>
              exists k :: 0 <= k < i + 1 && Classify(tokens[k], services) == Some(Filter(name))
  {
    var token := Classify(tokens[i], services).value;
    forall name ensures name in Noted(seen, token) <==>
                          exists k :: 0 <= k < i + 1 && Classify(tokens[k], services) == Some(Filter(name))
    {
      if name in seen {
        var k :| 0 <= k < i && Classify(tokens[k], services) == Some(Filter(name));
      } else if name in Noted(seen, token) {
        assert Classify(tokens[i], services) == Some(Filter(name));
      }
    }
  }

  lemma TokenPasses(tokens: seq<string>, i: nat, seen: set<string>, services: set<string>)
    requires i < |tokens| && Passed(tokens, i, seen, services) && Classify(tokens[i], services).Some?
    requires var token := Classify(tokens[i], services).value; token.Filter? ==> token.name !in seen
    ensures Passed(tokens, i + 1, Noted(seen, Classify(tokens[i], services).value), services)
  {
    ClassifyCorrect(tokens[i], services);
    GoodTokensExtend(tokens, i, services);
    SeenGrows(tokens, i, seen, services);
  }

  /** The loop of `_validate_resource_explorer_query`. */
  method CheckTokens(tokens: seq<string>, services: set<string>) returns (ok: bool)
    ensures ok <==> GoodTokens(tokens, services)
  {
    var seen: set<string> := {};
    var i := 0;
    while i < |tokens|
      invariant 0 <= i <= |tokens| && Passed(tokens, i, seen, services)
    {
      var verdict := Classify(tokens[i], services);
      if verdict.None? {
        TokenFails(tokens, i, services);
        return false;
      }
      if verdict.value.Filter? && verdict.value.name in seen {
        TokenRepeats(tokens, i, seen, verdict.value.name, services);
        return false;
      }
      TokenPasses(tokens, i, seen, services);
      seen := Noted(seen, verdict.value);
      i := i + 1;
    }
    assert tokens[..i] == tokens;
    return true;
  }

  /** `_validate_resource_explorer_query`; `None` is the AdapterError. */
  method ValidateQuery(query: string, services: set<string>) returns (r: Option<string>)
    ensures r == if Accepts(query, services) then Some(Normalized(query)) else None
  {
    if query == "" || |query| > MAX_RESOURCE_EXPLORER_QUERY_CHARS { return None; }
    var normalized := Normalized(query);
    NormalizedCases(query);
    if normalized == "*" { return Some(normalized); }
    if normalized == "" { return None; }
    var tokens := SplitAt(normalized, ' ');
    var ok := CheckTokens(tokens, services);
    return if ok then Some(normalized) else None;
  }

  lemma NormalizedCases(query: string)
    ensures var ws, n := Words(query), Normalized(query);
            (n == "" <==> ws == []) && (n == "*" <==> ws == ["*"]) && (n != "" ==> SplitAt(n, ' ') == ws)
  {
    var ws := Words(query);
    WordsAreWords(query);
    WordsOfJoin(ws);
    WordThenRest("*", "");
    assert "*" + "" == "*";
    if ws != [] {
      assert IsWord(ws[0]);
      SplitOfJoin(ws);
    }
  }

  lemma FilterNameHasNoColon(t: string, services: set<string>)
    requires Classify(t, services).Some? && Classify(t, services).value.Filter?
    ensures ':' !in Classify(t, services).value.name
  {
  }

  lemma RepeatedFilter(ts: seq<string>, k: nat, i: nat, name: string, services: set<string>)
    requires k < i < |ts|
    requires Classify(ts[k], services) == Some(Filter(name)) && Classify(ts[i], services) == Some(Filter(name))
    ensures !GoodTokens(ts, services)
  {
    FilterNameHasNoColon(ts[i], services);
    ClassifyFilter(ts[k], name, services);
    ClassifyFilter(ts[i], name, services);
  }

  lemma GoodTokensExtend(ts: seq<string>, i: nat, services: set<string>)
    requires i < |ts| && GoodTokens(ts[..i], services) && GoodToken(ts[i], services)
    requires Classify(ts[i], services).Some?
    requires Classify(ts[i], services).value.Filter? ==>
               forall k :: 0 <= k < i ==> Classify(ts[k], services) != Classify(ts[i], services)
    ensures GoodTokens(ts[..i + 1], services)
  {
    var more := ts[..i + 1];
    assert forall k :: 0 <= k < i ==> more[k] == ts[..i][k];
    forall j, k, name | 0 <= j < k < |more| && ':' !in name && IsFilter(more[j], name, services)
      ensures !IsFilter(more[k], name, services)
    {
      if k == i {
        assert GoodToken(ts[..i][j], services);
        ClassifyFilter(more[j], name, services);
        ClassifyFilter(more[k], name, services);
      } else {
        assert ts[..i][j] == more[j] && ts[..i][k] == more[k];
      }
    }
  }

  method ValidateResourceExplorerQuery(query: string) returns (r: Option<string>)
    ensures r == if Accepts(query, RESOURCE_EXPLORER_SERVICES) then Some(Normalized(query)) else None
  {
    r := ValidateQuery(query, RESOURCE_EXPLORER_SERVICES);
  }
}

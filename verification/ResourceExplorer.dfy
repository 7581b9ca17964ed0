/** The Resource Explorer search and the two-service inventory. */
module ResourceExplorer {
  import opened Basics
  import opened Calendar
  import opened Adapter
  import opened Filtering
  import opened QueryGrammar

  const MAX_NAME_CHARS := 128
  const MAX_RESOURCE_EXPLORER_RESULTS := 50
  const DEFAULT_RESULT_LIMIT := 25

  // ---------------------------------------------------------------- replies

  /** Fields are None if missing or not strings. */
  datatype RawItem =
    | ItemNotMapping
    | RawItem(arn: Option<string>, service: Option<string>, resourceType: Option<string>, region: Option<string>)

  datatype Reply = Raised | ReplyNotMapping | NoResourceList | Found(items: seq<RawItem>, nextPage: bool)

  datatype Resource = Resource(service: string, resourceType: string, region: string, resourceId: string)

  // ---------------------------------------------------------------- sanitising

  /** `str.split(c, n)` for one character. */
  function SplitMost(s: string, c: char, n: nat): (parts: seq<string>)
    ensures 1 <= |parts| <= n + 1
  {
    var i := Find(s, c);
    if n == 0 || i == |s| then [s] else [s[..i]] + SplitMost(s[i + 1..], c, n - 1)
  }

  /** No part but the last holds the separator. */
  predicate FreeButLast(c: char, parts: seq<string>)
  {
    forall i :: 0 <= i < |parts| - 1 ==> c !in parts[i]
  }

  lemma FreeButLastMore(c: char, part: string, parts: seq<string>)
    requires parts != []
    ensures FreeButLast(c, [part] + parts) <==> c !in part && FreeButLast(c, parts)
  {
    var more := [part] + parts;
    assert more[0] == part && forall i :: 0 <= i < |parts| ==> more[i + 1] == parts[i];
    if FreeButLast(c, more) {
      forall i | 0 <= i < |parts| - 1 ensures c !in parts[i] { assert c !in more[i + 1]; }
    }
  }

  lemma GlueFirst(part: string, parts: seq<string>, c: char)
    requires parts != [] && c !in part && FreeButLast(c, parts)
    ensures var more := [part] + parts;
            Glue(more, c) == part + [c] + Glue(parts, c) && FreeButLast(c, more)
  {
    MoreGlue(part, parts, c);
    FreeButLastMore(c, part, parts);
  }

  /** Only the last of `n + 1` parts may hold the separator. */
  lemma {:induction false} LastIsFree(s: string, c: char, n: nat)
    requires |SplitMost(s, c, n)| <= n
    ensures c !in SplitMost(s, c, n)[|SplitMost(s, c, n)| - 1]
  {
    var i := Find(s, c);
    if i < |s| {
      var more := SplitMost(s[i + 1..], c, n - 1);
      LastIsFree(s[i + 1..], c, n - 1);
      assert ([s[..i]] + more)[|more|] == more[|more| - 1];
    }
  }

  /** The parts glued together are the text. */
  lemma {:induction false} GlueOfMost(s: string, c: char, n: nat)
    ensures Glue(SplitMost(s, c, n), c) == s && FreeButLast(c, SplitMost(s, c, n))
  {
    var i := Find(s, c);
    CutAt(s, c);
    if n == 0 || i == |s| {
      assert s[..|s|] == s && SplitMost(s, c, n) == [s];
    } else {
      var part, more := s[..i], SplitMost(s[i + 1..], c, n - 1);
      GlueOfMost(s[i + 1..], c, n - 1);
      GlueFirst(part, more, c);
      assert SplitMost(s, c, n) == [part] + more;
    }
  }

  /** And parts of which only the last holds the separator come back. */
  lemma {:induction false} MostOfGlue(parts: seq<string>, c: char)
    requires parts != [] && FreeButLast(c, parts)
    ensures SplitMost(Glue(parts, c), c, |parts| - 1) == parts
  {
    if |parts| == 1 {
      assert parts == [parts[0]];
    } else {
      assert parts == [parts[0]] + parts[1..];
      FreeButLastMore(c, parts[0], parts[1..]);
      MostOfGlue(parts[1..], c);
      FindGlued(parts[0], c, Glue(parts[1..], c));
    }
  }

  /** `[a-z0-9-]{1,64}`. */
  predicate IsService(s: string)
  {
    |s| <= 64 && IsSlug(s)
  }

  /** An ARN of the `aws` partition whose region and account are empty or well-formed; the last part may hold colons. */
  predicate IsArn(arn: string)
  {
    var parts := SplitMost(arn, ':', 5);
    && |parts| == 6 && parts[0] == "arn" && parts[1] == "aws" && IsService(parts[2])
    && (parts[3] == "" || IsRegion(parts[3]))
    && (parts[4] == "" || (|parts[4]| == 12 && AllDigits(parts[4])))
    && parts[5] != ""
  }

  predicate ResourceIdChar(c: char)
  {
    Alphanumeric(c) || c == '.' || c == '_' || c == ':' || c == '/' || c == '+' || c == '=' || c == '-'
  }

  function ResourceId(part: string): (id: string)
    ensures |id| == if |part| > MAX_NAME_CHARS then MAX_NAME_CHARS else |part|
    ensures forall i :: 0 <= i < |id| ==> id[i] == if ResourceIdChar(part[i]) then part[i] else '_'
  {
    var replaced := seq(|part|, i requires 0 <= i < |part| => if ResourceIdChar(part[i]) then part[i] else '_');
    if |replaced| > MAX_NAME_CHARS then replaced[..MAX_NAME_CHARS] else replaced
  }

  /** `service:kind`, for the given service. */
  predicate IsTypeOf(resourceType: string, service: string)
  {
    var c := Find(resourceType, ':');
    |resourceType| <= MAX_NAME_CHARS && c < |resourceType|
    && resourceType[..c] == service && IsSlug(service) && IsTypeName(resourceType[c + 1..])
  }

  function Sanitize(item: RawItem): Option<Resource>
  {
    if item.ItemNotMapping? || item.arn.None? || !ControlFree(item.arn.value) || !IsArn(item.arn.value) then None
    else if item.service.None? || !IsService(item.service.value)
         || item.resourceType.None? || !IsTypeOf(item.resourceType.value, item.service.value)
         || item.region.None? || |item.region.value| > 32
         || !(item.region.value == "global" || IsRegion(item.region.value))
    then None
    else
      var id := ResourceId(SplitMost(item.arn.value, ':', 5)[5]);
      Some(Resource(item.service.value, item.resourceType.value, item.region.value, id))
  }

  /** A type is a service, a colon and a name of the kind. */
  lemma TypeExactly(resourceType: string, service: string)
    ensures IsTypeOf(resourceType, service) <==>
              |resourceType| <= 128 && IsSlug(service)
              && exists kind :: resourceType == service + ":" + kind && IsTypeName(kind)
  {
    if IsTypeOf(resourceType, service) {
      var c := Find(resourceType, ':');
      assert resourceType == service + ":" + resourceType[c + 1..];
    }
    if IsSlug(service) {
      SlugHasNoColon(service);
      forall kind | resourceType == service + ":" + kind ensures Find(resourceType, ':') == |service| {
        SplitOnce(service, kind);
      }
    }
  }

  /** An ARN is made of these parts: service, region, account and the rest, in which colons are allowed. */
  predicate ArnOf(arn: string, service: string, region: string, account: string, rest: string)
  {
    && arn == "arn" + ":" + ("aws" + ":" + (service + ":" + (region + ":" + (account + ":" + rest))))
    && IsService(service) && (region == "" || IsRegion(region))
    && (account == "" || (|account| == 12 && AllDigits(account))) && rest != ""
  }

  lemma RegionHasNoColon(region: string)
    requires IsRegion(region)
    ensures ':' !in region
  {
    var parts := SplitAt(region, '-');
    GlueOfSplit(region, '-');
    var n := |parts|;
    forall i | 0 <= i < n ensures ':' !in parts[i] {
      if i == 0 {
        assert parts[0] == [parts[0][0], parts[0][1]];
      } else if i == n - 1 {
        assert parts[i] == [parts[i][0]];
      }
    }
    GlueFree(parts, '-', ':');
  }

  lemma {:induction false} GlueFree(parts: seq<string>, c: char, d: char)
    requires FreeOf(d, parts) && c != d
    ensures d !in Glue(parts, c)
  {
    if |parts| > 1 {
      assert forall i :: 0 <= i < |parts[1..]| ==> parts[1..][i] == parts[i + 1];
      GlueFree(parts[1..], c, d);
    }
  }

  lemma GlueOfSix(p: seq<string>)
    requires |p| == 6
    ensures Glue(p, ':') == p[0] + ":" + (p[1] + ":" + (p[2] + ":" + (p[3] + ":" + (p[4] + ":" + p[5]))))
  {
    assert p[1..][1..] == p[2..] && p[2..][1..] == p[3..] && p[3..][1..] == p[4..] && p[4..][1..] == p[5..];
    assert Glue(p[5..], ':') == p[5];
    assert Glue(p[4..], ':') == p[4] + ":" + p[5];
    assert Glue(p[3..], ':') == p[3] + ":" + (p[4] + ":" + p[5]);
    assert Glue(p[2..], ':') == p[2] + ":" + (p[3] + ":" + (p[4] + ":" + p[5]));
  }

  lemma ArnParts(arn: string, service: string, region: string, account: string, rest: string)
    requires ArnOf(arn, service, region, account, rest)
    ensures SplitMost(arn, ':', 5) == ["arn", "aws", service, region, account, rest] && IsArn(arn)
  {
    var parts := ["arn", "aws", service, region, account, rest];
    SlugHasNoColon(service);
    if region != "" { RegionHasNoColon(region); }
    assert FreeButLast(':', parts);
    GlueOfSix(parts);
    MostOfGlue(parts, ':');
  }

  /** A text is an ARN exactly if it has these parts. */
  lemma ArnExactly(arn: string)
    ensures IsArn(arn) <==> exists service, region, account, rest :: ArnOf(arn, service, region, account, rest)
    ensures IsArn(arn) ==> var p := SplitMost(arn, ':', 5); |p| == 6 && ArnOf(arn, p[2], p[3], p[4], p[5])
  {
    if IsArn(arn) {
      var p := SplitMost(arn, ':', 5);
      GlueOfMost(arn, ':', 5);
      GlueOfSix(p);
      assert ArnOf(arn, p[2], p[3], p[4], p[5]);
    }
    forall service, region, account, rest | ArnOf(arn, service, region, account, rest) ensures IsArn(arn) {
      ArnParts(arn, service, region, account, rest);
    }
  }

  /** Which items sanitise: an ARN without control characters, and texts of the known forms. */
  lemma SanitizedExactly(item: RawItem)
    ensures Sanitize(item).Some? <==>
              && item.RawItem? && item.arn.Some? && ControlFree(item.arn.value) && IsArn(item.arn.value)
              && item.service.Some? && IsService(item.service.value)
              && item.resourceType.Some? && IsTypeOf(item.resourceType.value, item.service.value)
              && item.region.Some? && |item.region.value| <= 32
              && (item.region.value == "global" || IsRegion(item.region.value))
  {
  }

  /** A sanitised resource has a type of its own service, a known region form and an identifier of safe characters. Of
      the ARN only the last part is used: its first 128 characters, each kept or replaced. */
  lemma SanitizedIsSafe(item: RawItem) returns (service: string, region: string, account: string, rest: string)
    requires Sanitize(item).Some?
    ensures var r := Sanitize(item).value;
            && item.RawItem? && item.service == Some(r.service) && item.region == Some(r.region)
            && item.resourceType == Some(r.resourceType)
            && (exists kind :: r.resourceType == r.service + ":" + kind && IsTypeName(kind))
            && IsService(r.service) && |r.resourceType| <= 128
            && (r.region == "global" || IsRegion(r.region)) && |r.region| <= 32
    ensures var r := Sanitize(item).value;
            && item.arn.Some? && ArnOf(item.arn.value, service, region, account, rest)
            && 1 <= |r.resourceId| == (if |rest| > 128 then 128 else |rest|)
            && forall i :: 0 <= i < |r.resourceId| ==>
                 r.resourceId[i] == if ResourceIdChar(rest[i]) then rest[i] else '_'
  {
    TypeExactly(item.resourceType.value, item.service.value);
    ArnExactly(item.arn.value);
    var p := SplitMost(item.arn.value, ':', 5);
    service, region, account, rest := p[2], p[3], p[4], p[5];
  }

  // ---------------------------------------------------------------- the search

  datatype Issue = ViewUnavailable | SearchUnavailable | InvalidResponse | InvalidResources

  datatype SearchData = SearchData(query: string, maxResults: int, resources: seq<Resource>, truncated: bool)

  type SearchResult = AdapterResult<SearchData, Issue>

  function Failure(query: string, limit: int, issue: Issue, sdkRequests: nat): SearchResult
  {
    AdapterResult(SearchData(query, limit, [], false), sdkRequests, 0, Error, [issue])
  }

  datatype Argument = Absent | Text(text: string) | Whole(n: int) | Other

  datatype Search = InvalidArguments | InvalidQuery | InvalidLimit | Searched(result: SearchResult)

  /** The loop over the items. */
  method SanitizeItems(items: seq<RawItem>) returns (resources: seq<Resource>, malformed: nat)
    ensures resources == Images(Sanitize, items) && (malformed == 0 <==> AllHaveImages(Sanitize, items))
  {
    resources, malformed := [], 0;
    for i := 0 to |items|
      invariant resources == Images(Sanitize, items[..i])
      invariant malformed == 0 <==> AllHaveImages(Sanitize, items[..i])
    {
      ImagesSnoc(Sanitize, items, i);
      assert items[..i + 1] == items[..i] + [items[i]];
      var sanitized := Sanitize(items[i]);
      if sanitized.None? { malformed := malformed + 1; } else { resources := resources + [sanitized.value]; }
    }
    assert items[..|items|] == items;
  }

  /** A search that has been sent, for any reply. */
  method ReadReply(query: string, limit: nat, reply: Reply) returns (r: SearchResult)
    ensures Constructible(r) && r.sdkRequests == 1
    ensures r.data.query == query && r.data.maxResults == limit && r.resources == |r.data.resources| <= limit
    ensures (r.status == Partial ==> r.data.resources != []) && (r.status == Error ==> r.data.resources == [])
    ensures r.issues == if reply.Raised? then [SearchUnavailable] else if !reply.Found? then [InvalidResponse]
                        else if r.status == Ok then [] else [InvalidResources]
    ensures if reply.Found?
            then && r.data.resources == Images(Sanitize, Capped(reply.items, limit))
                 && (r.status == Ok <==> AllHaveImages(Sanitize, Capped(reply.items, limit)))
                 && (r.data.truncated <==> reply.nextPage || |reply.items| > limit)
            else r.status == Error && !r.data.truncated
  {
    if reply.Raised? { return Failure(query, limit, SearchUnavailable, 1); }
    if !reply.Found? { return Failure(query, limit, InvalidResponse, 1); }
    var items := Capped(reply.items, limit);
    var resources, malformed := SanitizeItems(items);
    ImagesShort(Sanitize, items);
    var status := if malformed == 0 then Ok else if resources != [] then Partial else Error;
    return AdapterResult(SearchData(query, limit, resources, reply.nextPage || |reply.items| > limit), 1, |resources|,
                         status, if malformed > 0 then [InvalidResources] else []);
  }

  predicate QueryTyped(query: Argument) { query.Absent? || query.Text? }

  function QueryText(query: Argument): string { if query.Text? then query.text else "*" }

  predicate LimitAllowed(limit: Argument)
  {
    limit.Absent? || (limit.Whole? && 1 <= limit.n <= MAX_RESOURCE_EXPLORER_RESULTS)
  }

  /** `_search_resource_explorer`; `viewValid` is whether a well-formed view ARN is configured. */
  method SearchResources(unknownArguments: bool, query: Argument, limit: Argument, viewValid: bool, reply: Reply)
    returns (s: Search)
    ensures s.InvalidArguments? <==> unknownArguments
    ensures s.InvalidLimit? <==>
              !unknownArguments && (query.Absent? || query.Text?)
              && !(limit.Absent? || (limit.Whole? && 1 <= limit.n <= 50))
    ensures s.InvalidQuery? <==>
              && !unknownArguments
              && (query.Whole? || query.Other?
                  || ((limit.Absent? || (limit.Whole? && 1 <= limit.n <= 50))
                      && !Accepts(if query.Text? then query.text else "*", RESOURCE_EXPLORER_SERVICES)))
    ensures s.Searched? ==>
              s.result.issues == if !viewValid then [ViewUnavailable] else if reply.Raised? then [SearchUnavailable]
                                 else if !reply.Found? then [InvalidResponse]
                                 else if s.result.status == Ok then [] else [InvalidResources]
    ensures s.Searched? ==>
              && (s.result.status == Partial ==> s.result.data.resources != [])
              && (s.result.status == Error ==> s.result.data.resources == [])
    ensures s.Searched? ==>
              var n := if limit.Whole? then limit.n else 25;
              && Constructible(s.result) && s.result.sdkRequests == (if viewValid then 1 else 0)
              && s.result.data.query == Normalized(if query.Text? then query.text else "*")
              && s.result.data.maxResults == n
              && s.result.resources == |s.result.data.resources| <= n
              && (s.result.status == Ok <==>
                    viewValid && reply.Found? && AllHaveImages(Sanitize, Capped(reply.items, n)))
              && (s.result.data.truncated <==>
                    viewValid && reply.Found? && (reply.nextPage || |reply.items| > n))
              && (s.result.data.resources ==
                    if viewValid && reply.Found? then Images(Sanitize, Capped(reply.items, n)) else [])
  {
    if unknownArguments { return InvalidArguments; }
    if !QueryTyped(query) { return InvalidQuery; }
    if !LimitAllowed(limit) { return InvalidLimit; }
    var n := if limit.Whole? then limit.n else DEFAULT_RESULT_LIMIT;
    var normalized := ValidateResourceExplorerQuery(QueryText(query));
    if normalized.None? { return InvalidQuery; }
    if !viewValid { return Searched(Failure(normalized.value, n, ViewUnavailable, 0)); }
    var result := ReadReply(normalized.value, n, reply);
    return Searched(result);
  }

  // ---------------------------------------------------------------- the two-service inventory

  datatype Service = Lambda | ApiGateway

  /** The number of resources listed, or None if the listing failed. */
  datatype Services = Services(functions: Option<nat>, apis: Option<nat>)

  /** The default branch of `execute`: two listings that fail independently. */
  method ListServices(functions: Option<nat>, apis: Option<nat>) returns (r: AdapterResult<Services, Service>)
    ensures Constructible(r) && r.sdkRequests == 2 && r.data == Services(functions, apis)
    ensures r.resources == (if functions.Some? then functions.value else 0) + (if apis.Some? then apis.value else 0)
    ensures r.status == Ok <==> functions.Some? && apis.Some?
    ensures r.status == Error <==> functions.None? && apis.None?
    ensures (Lambda in r.issues <==> functions.None?) && (ApiGateway in r.issues <==> apis.None?)
  {
    var issues: seq<Service>, resources: nat, sdkRequests: nat, successes: nat := [], 0, 0, 0;
    sdkRequests := sdkRequests + 1;
    if functions.Some? {
      resources, successes := resources + functions.value, successes + 1;
    } else {
      issues := issues + [Lambda];
    }
    sdkRequests := sdkRequests + 1;
    if apis.Some? {
      resources, successes := resources + apis.value, successes + 1;
    } else {
      issues := issues + [ApiGateway];
    }
    var status := if successes == 2 then Ok else if successes == 1 then Partial else Error;
    return AdapterResult(Services(functions, apis), sdkRequests, resources, status, issues);
  }
}

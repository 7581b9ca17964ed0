/** The bounded inventory of the project's CloudFormation stacks. */
module Inventory {
  import opened Basics
  import opened Adapter
  import opened Filtering

  const MAX_PROJECT_INVENTORY_PAGES: nat := 20
  const MAX_PROJECT_INVENTORY_RESOURCES: nat := 100

  // ---------------------------------------------------------------- replies

  /** Fields are None if missing or not strings. */
  datatype RawItem =
    | ItemNotMapping
    | RawItem(logicalId: Option<string>, resourceType: Option<string>, status: Option<string>,
              physicalId: Option<string>)

  datatype RawToken = NoToken | TokenText(text: string) | TokenNotText

  datatype Reply = Raised | ReplyNotMapping | NoResourceList | Page(items: seq<RawItem>, next: RawToken)

  datatype Call = Call(stack: string, token: Option<string>, reply: Reply)

  /** The service: any replies whatever, with a log of the calls. */
  class CloudFormationClient {
    const script: nat -> Reply
    var calls: seq<Call>

    constructor (script: nat -> Reply)
      ensures calls == []
    {
      this.script := script;
      calls := [];
    }

    method ListStackResources(stack: string, token: Option<string>) returns (reply: Reply)
      modifies this
      ensures calls == old(calls) + [Call(stack, token, reply)]
    {
      reply := script(|calls|);
      calls := calls + [Call(stack, token, reply)];
    }
  }

  // ---------------------------------------------------------------- sanitising

  datatype Resource = Resource(stack: string, logicalId: string, resourceType: string, status: string,
                               physicalId: Option<string>)

  /** `[A-Za-z0-9][A-Za-z0-9_-]{0,127}`. */
  predicate IsLogicalId(s: string)
  {
    1 <= |s| <= 128 && Alphanumeric(s[0])
    && forall i :: 0 <= i < |s| ==> Alphanumeric(s[i]) || s[i] == '_' || s[i] == '-'
  }

  /** `AWS::[A-Za-z0-9][A-Za-z0-9:.-]{1,127}`. */
  predicate IsResourceType(s: string)
  {
    7 <= |s| <= 133 && s[0] == 'A' && s[1] == 'W' && s[2] == 'S' && s[3] == ':' && s[4] == ':' && Alphanumeric(s[5])
    && forall i :: 6 <= i < |s| ==> Alphanumeric(s[i]) || s[i] == ':' || s[i] == '.' || s[i] == '-'
  }

  /** `[A-Z][A-Z0-9_]{1,63}`. */
  predicate IsStatus(s: string)
  {
    2 <= |s| <= 64 && Upper(s[0])
    && forall i :: 0 <= i < |s| ==> Upper(s[i]) || IsDigit(s[i]) || s[i] == '_'
  }

  function Sanitize(item: RawItem, stack: string): Option<Resource>
  {
    if item.ItemNotMapping? || item.logicalId.None? || item.resourceType.None? || item.status.None? then None
    else if !IsLogicalId(item.logicalId.value) || !IsResourceType(item.resourceType.value)
         || !IsStatus(item.status.value)
    then None
    else if item.physicalId.Some? && !ControlFree(item.physicalId.value) then None
    else Some(Resource(stack, item.logicalId.value, item.resourceType.value, item.status.value, item.physicalId))
  }

  /** A sanitised resource names its stack, keeps the item's own texts, and has no control character in any of them. */
  lemma SanitizedIsSafe(item: RawItem, stack: string)
    requires Sanitize(item, stack).Some?
    ensures var r := Sanitize(item, stack).value;
            && r.stack == stack && item.RawItem? && item.logicalId == Some(r.logicalId)
            && item.resourceType == Some(r.resourceType) && item.status == Some(r.status)
            && IsLogicalId(r.logicalId) && IsResourceType(r.resourceType) && IsStatus(r.status)
            && ControlFree(r.logicalId) && ControlFree(r.resourceType) && ControlFree(r.status)
            && (r.physicalId.Some? ==> ControlFree(r.physicalId.value))
  {
    var t := item.resourceType.value;
    forall i | 0 <= i < |t| ensures t[i] as int >= 32 && t[i] as int != 127 {
      assert i < 6 || Alphanumeric(t[i]) || t[i] == ':' || t[i] == '.' || t[i] == '-';
    }
  }

  /** Which items sanitise: a mapping with three well-formed texts and no control character in the physical id. */
  lemma SanitizedExactly(item: RawItem, stack: string)
    ensures Sanitize(item, stack).Some? <==>
              && item.RawItem? && item.logicalId.Some? && item.resourceType.Some? && item.status.Some?
              && IsLogicalId(item.logicalId.value) && IsResourceType(item.resourceType.value)
              && IsStatus(item.status.value)
              && (item.physicalId.Some? ==>
                    var id := item.physicalId.value;
                    forall i :: 0 <= i < |id| ==> id[i] as int >= 32 && id[i] as int != 127)
    ensures Sanitize(item, stack).Some? ==> Sanitize(item, stack).value.physicalId == item.physicalId
  {
  }

  function Sanitizer(stack: string): RawItem -> Option<Resource>
  {
    item => Sanitize(item, stack)
  }

  /** What is received from one stack, in order. */
  function ItemsOf(calls: seq<Call>): seq<RawItem>
  {
    if calls == [] then []
    else
      var last := calls[|calls| - 1].reply;
      ItemsOf(calls[..|calls| - 1]) + if last.Page? then last.items else []
  }

  function Received(stack: string, calls: seq<Call>): seq<Resource>
  {
    Images(Sanitizer(stack), ItemsOf(calls))
  }

  // ---------------------------------------------------------------- what a complete inventory is

  /** No two resources have the same stack and logical id. */
  predicate Distinct(rs: seq<Resource>)
  {
    forall i, k :: 0 <= i < k < |rs| ==> rs[i].stack != rs[k].stack || rs[i].logicalId != rs[k].logicalId
  }

  /** Calls that follow a chain of non-empty tokens that never repeat, starting without a token. */
  predicate Linked(stack: string, calls: seq<Call>)
  {
    && (forall i :: 0 <= i < |calls| ==> calls[i].stack == stack)
    && (calls != [] ==> calls[0].token == None)
    && (forall i :: 0 <= i < |calls| - 1 ==>
          calls[i].reply.Page? && calls[i].reply.next.TokenText? && calls[i].reply.next.text != ""
          && calls[i + 1].token == Some(calls[i].reply.next.text))
    && (forall i, k :: 0 <= i < k < |calls| - 1 ==> calls[i].reply.next != calls[k].reply.next)
  }

  /** The whole chain of a stack, within the page cap. */
  predicate WholeChain(stack: string, calls: seq<Call>, pageCap: nat)
  {
    calls != [] && Linked(stack, calls) && |calls| <= pageCap
    && calls[|calls| - 1].reply.Page? && calls[|calls| - 1].reply.next == NoToken
  }

  /** A chain that cannot go on: at the page cap, or without a page, or without a new token. */
  predicate Stopped(calls: seq<Call>, pageCap: nat)
  {
    |calls| == pageCap ||
    (calls != [] &&
     var last := calls[|calls| - 1].reply;
     !last.Page? || !last.next.TokenText? || last.next.text == ""
     || exists i :: 0 <= i < |calls| - 1 && calls[i].reply.Page? && calls[i].reply.next == last.next)
  }

  ghost predicate Subsequence<T>(a: seq<T>, b: seq<T>)
  {
    a == [] ||
    (b != [] && ((a[|a| - 1] == b[|b| - 1] && Subsequence(a[..|a| - 1], b[..|b| - 1])) || Subsequence(a, b[..|b| - 1])))
  }

  // ---------------------------------------------------------------- bookkeeping of items

  /** All items sanitise, and together with `base` nothing repeats. */
  predicate Good(f: RawItem -> Option<Resource>, base: seq<Resource>, items: seq<RawItem>)
  {
    AllHaveImages(f, items) && Distinct(base + Images(f, items))
  }

  /** `resources` is what has been kept of `base` and then `items`. */
  ghost predicate Kept(f: RawItem -> Option<Resource>, base: seq<Resource>, items: seq<RawItem>,
                       resources: seq<Resource>)
  {
    Distinct(resources) && Subsequence(resources, base + Images(f, items))
  }

  /** Kept, with nothing lost as long as nothing repeats, and `complete` saying whether all was good. */
  ghost predicate Tracks(f: RawItem -> Option<Resource>, base: seq<Resource>, items: seq<RawItem>,
                         resources: seq<Resource>, before: bool, complete: bool)
  {
    && Kept(f, base, items, resources)
    && (complete <==> before && Good(f, base, items))
    && (Distinct(base + Images(f, items)) ==> resources == base + Images(f, items))
  }

  lemma SubsequenceSkip<T>(a: seq<T>, b: seq<T>, x: T)
    requires Subsequence(a, b)
    ensures Subsequence(a, b + [x])
  {
    assert (b + [x])[..|b|] == b;
  }

  lemma SubsequenceTake<T>(a: seq<T>, b: seq<T>, x: T)
    requires Subsequence(a, b)
    ensures Subsequence(a + [x], b + [x])
  {
    assert (b + [x])[..|b|] == b && (a + [x])[..|a|] == a;
  }

  lemma {:induction false} SubsequenceMore<T>(a: seq<T>, b: seq<T>, c: seq<T>)
    requires Subsequence(a, b)
    ensures Subsequence(a, b + c)
  {
    if c == [] {
      assert b + c == b;
    } else {
      SubsequenceMore(a, b, c[..|c| - 1]);
      SubsequenceSkip(a, b + c[..|c| - 1], c[|c| - 1]);
      assert b + c == (b + c[..|c| - 1]) + [c[|c| - 1]];
    }
  }

  lemma ImagesAdd<A, B>(f: A -> Option<B>, xs: seq<A>, x: A)
    ensures Images(f, xs + [x]) == Images(f, xs) + if f(x).Some? then [f(x).value] else []
  {
    assert (xs + [x])[..|xs|] == xs;
  }

  lemma DistinctPrefix(a: seq<Resource>, b: seq<Resource>)
    requires Distinct(a + b)
    ensures Distinct(a)
  {
    assert forall i :: 0 <= i < |a| ==> (a + b)[i] == a[i];
  }

  lemma DistinctAdd(rs: seq<Resource>, r: Resource)
    requires Distinct(rs)
    ensures Distinct(rs + [r]) <==>
              forall i :: 0 <= i < |rs| ==> rs[i].stack != r.stack || rs[i].logicalId != r.logicalId
  {
    var more := rs + [r];
    assert more[|rs|] == r && forall i :: 0 <= i < |rs| ==> more[i] == rs[i];
  }

  /** An item that does not sanitise is dropped. */
  lemma TrackMalformed(f: RawItem -> Option<Resource>, base: seq<Resource>, items: seq<RawItem>,
                       resources: seq<Resource>, before: bool, complete: bool, item: RawItem)
    requires Tracks(f, base, items, resources, before, complete) && f(item).None?
    ensures Tracks(f, base, items + [item], resources, before, false)
  {
    ImagesAdd(f, items, item);
    assert (items + [item])[|items|] == item;
    assert base + Images(f, items + [item]) == base + Images(f, items);
  }

  lemma GoodAdd(f: RawItem -> Option<Resource>, base: seq<Resource>, items: seq<RawItem>, item: RawItem)
    ensures Good(f, base, items + [item]) ==> Good(f, base, items) && f(item).Some?
    ensures f(item).Some? ==> base + Images(f, items + [item]) == (base + Images(f, items)) + [f(item).value]
    ensures f(item).Some? ==>
              (Good(f, base, items + [item]) <==>
                 AllHaveImages(f, items) && Distinct((base + Images(f, items)) + [f(item).value]))
  {
    ImagesAdd(f, items, item);
    var more := items + [item];
    assert more[|items|] == item && forall i :: 0 <= i < |items| ==> more[i] == items[i];
    if f(item).Some? {
      assert base + Images(f, more) == (base + Images(f, items)) + [f(item).value];
      if Good(f, base, more) { DistinctPrefix(base + Images(f, items), [f(item).value]); }
    }
  }

  /** A repeated item is dropped. */
  lemma TrackDuplicate(f: RawItem -> Option<Resource>, base: seq<Resource>, items: seq<RawItem>,
                       resources: seq<Resource>, before: bool, complete: bool, item: RawItem)
    requires Tracks(f, base, items, resources, before, complete) && f(item).Some?
    requires !Distinct(resources + [f(item).value])
    ensures Tracks(f, base, items + [item], resources, before, false)
  {
    GoodAdd(f, base, items, item);
    SubsequenceSkip(resources, base + Images(f, items), f(item).value);
  }

  /** A new item is kept. */
  lemma TrackNew(f: RawItem -> Option<Resource>, base: seq<Resource>, items: seq<RawItem>,
                 resources: seq<Resource>, before: bool, complete: bool, item: RawItem)
    requires Tracks(f, base, items, resources, before, complete) && f(item).Some?
    requires Distinct(resources + [f(item).value])
    ensures Tracks(f, base, items + [item], resources + [f(item).value], before, complete)
  {
    GoodAdd(f, base, items, item);
    SubsequenceTake(resources, base + Images(f, items), f(item).value);
  }

  lemma DistinctBeginning(a: seq<Resource>, b: seq<Resource>)
    requires a <= b && Distinct(b)
    ensures Distinct(a)
  {
    assert forall i :: 0 <= i < |a| ==> a[i] == b[i];
  }

  lemma PrefixAfter<T>(base: seq<T>, part: seq<T>, whole: seq<T>)
    requires part <= whole
    ensures base + part <= base + whole
  {
    assert base + whole == (base + part) + whole[|part|..];
  }

  /** Good items have good beginnings, and never get fewer. */
  lemma GoodPrefix(f: RawItem -> Option<Resource>, base: seq<Resource>, items: seq<RawItem>, n: nat)
    requires n <= |items|
    ensures Images(f, items[..n]) <= Images(f, items)
    ensures Good(f, base, items) ==> Good(f, base, items[..n])
  {
    ImagesPrefix(f, items, n);
    PrefixAfter(base, Images(f, items[..n]), Images(f, items));
    if Good(f, base, items) {
      DistinctBeginning(base + Images(f, items[..n]), base + Images(f, items));
      assert forall i :: 0 <= i < n ==> f(items[i]).Some?;
    }
  }

  /** What has been kept of a beginning has been kept of the whole. */
  lemma KeptOfPrefix(f: RawItem -> Option<Resource>, base: seq<Resource>, items: seq<RawItem>, n: nat,
                     resources: seq<Resource>)
    requires n <= |items| && Kept(f, base, items[..n], resources)
    ensures Kept(f, base, items, resources)
  {
    ImagesPrefix(f, items, n);
    var whole, part := Images(f, items), Images(f, items[..n]);
    assert base + whole == (base + part) + whole[|part|..];
    SubsequenceMore(resources, base + part, whole[|part|..]);
  }

  // ---------------------------------------------------------------- the set of resources seen

  function Key(r: Resource): (string, string) { (r.stack, r.logicalId) }

  /** `seen` holds exactly the keys of `rs`. */
  ghost predicate Seen(seen: set<(string, string)>, rs: seq<Resource>)
  {
    forall k :: k in seen <==> exists i :: 0 <= i < |rs| && Key(rs[i]) == k
  }

  lemma SeenAdd(seen: set<(string, string)>, rs: seq<Resource>, r: Resource)
    requires Seen(seen, rs)
    ensures Seen(seen + {Key(r)}, rs + [r])
  {
    var more := rs + [r];
    assert more[|rs|] == r && forall i :: 0 <= i < |rs| ==> more[i] == rs[i];
    forall k ensures k in seen + {Key(r)} <==> exists i :: 0 <= i < |more| && Key(more[i]) == k {
      if k in seen {
        var i :| 0 <= i < |rs| && Key(rs[i]) == k;
        assert Key(more[i]) == k;
      } else if k == Key(r) {
        assert Key(more[|rs|]) == k;
      }
    }
  }

  /** The lookup finds a resource exactly when keeping it would repeat a key. */
  lemma SeenIsRepeated(seen: set<(string, string)>, rs: seq<Resource>, r: Resource)
    requires Seen(seen, rs) && Distinct(rs)
    ensures Key(r) in seen <==> !Distinct(rs + [r])
  {
    DistinctAdd(rs, r);
  }

  // ---------------------------------------------------------------- issues

  datatype Issue =
    | ClientUnavailable | PageLimit | StackUnavailable | InvalidResponse | InvalidResource
    | DuplicateResource | ResourceLimit | InvalidToken | RepeatedToken

  /** Each code is reported once. */
  predicate OnceEach(issues: seq<Issue>)
  {
    forall i, k :: 0 <= i < k < |issues| ==> issues[i] != issues[k]
  }

  function AddIssue(issues: seq<Issue>, issue: Issue): (more: seq<Issue>)
    requires OnceEach(issues)
    ensures more != [] && OnceEach(more) && issues <= more
    ensures forall x :: x in more <==> x in issues || x == issue
  {
    if issue in issues then issues else issues + [issue]
  }

  /** What the loops carry: the lists so far and the flag. */
  datatype Progress = Progress(
    resources: seq<Resource>, seen: set<(string, string)>, issues: seq<Issue>, complete: bool)
  {
    /** The flag is up exactly while there is no issue. */
    ghost predicate Consistent()
    {
      Seen(seen, resources) && OnceEach(issues) && (complete <==> issues == [])
    }

    function Fail(issue: Issue): (p: Progress)
      requires OnceEach(issues)
    {
      this.(issues := AddIssue(issues, issue), complete := false)
    }
  }

  // ---------------------------------------------------------------- what the issues say about items

  /** An item, and the stack whose reply it came in. */
  datatype Offer = Offer(stack: string, item: RawItem)

  function Offers(stack: string, items: seq<RawItem>): (offers: seq<Offer>)
    ensures |offers| == |items|
  {
    seq(|items|, i requires 0 <= i < |items| => Offer(stack, items[i]))
  }

  predicate Malformed(o: Offer)
  {
    Sanitize(o.item, o.stack).None?
  }

  function OfferKey(o: Offer): (string, string)
    requires !Malformed(o)
  {
    Key(Sanitize(o.item, o.stack).value)
  }

  predicate Repeats(a: Offer, b: Offer)
  {
    !Malformed(a) && !Malformed(b) && OfferKey(a) == OfferKey(b)
  }

  /** A well-formed item whose key has not been taken. */
  predicate Untaken(o: Offer, seen: set<(string, string)>)
  {
    !Malformed(o) && OfferKey(o) !in seen
  }

  ghost predicate SomeMalformed(offers: seq<Offer>)
  {
    exists j :: 0 <= j < |offers| && Malformed(offers[j])
  }

  ghost predicate SomeRepeat(offers: seq<Offer>)
  {
    exists i, j :: 0 <= i < j < |offers| && Repeats(offers[i], offers[j])
  }

  ghost predicate RepeatedBy(offers: seq<Offer>, o: Offer)
  {
    exists i :: 0 <= i < |offers| && Repeats(offers[i], o)
  }

  /** `seen` are the keys of the well-formed offers. */
  ghost predicate KeysOf(offers: seq<Offer>, seen: set<(string, string)>)
  {
    && (forall j :: 0 <= j < |offers| ==> !Untaken(offers[j], seen))
    && (forall k :: k in seen ==> exists j :: 0 <= j < |offers| && !Malformed(offers[j]) && OfferKey(offers[j]) == k)
  }

  /** All of `offers` has been looked at: `seen` are their keys, and the two codes about items are exact. */
  ghost predicate Noted(offers: seq<Offer>, issues: seq<Issue>, seen: set<(string, string)>)
  {
    && (InvalidResource in issues <==> SomeMalformed(offers))
    && (DuplicateResource in issues <==> SomeRepeat(offers))
    && KeysOf(offers, seen)
  }

  /** Offer `j` has been looked at: nothing before it was left over. */
  ghost predicate Reached(offers: seq<Offer>, seen: set<(string, string)>, j: int)
  {
    0 <= j < |offers| && forall i :: 0 <= i < j ==> !Untaken(offers[i], seen)
  }

  /** The same where some of the last offers may not have been looked at, because the list was full. */
  ghost predicate NotedReached(offers: seq<Offer>, issues: seq<Issue>, seen: set<(string, string)>)
  {
    && (InvalidResource in issues <==> exists j :: Reached(offers, seen, j) && Malformed(offers[j]))
    && (DuplicateResource in issues <==> exists j :: Reached(offers, seen, j) && RepeatedBy(offers[..j], offers[j]))
  }

  lemma SomeMalformedAdd(offers: seq<Offer>, o: Offer)
    ensures SomeMalformed(offers + [o]) <==> SomeMalformed(offers) || Malformed(o)
  {
    var more := offers + [o];
    assert more[|offers|] == o;
    if SomeMalformed(offers) {
      var j :| 0 <= j < |offers| && Malformed(offers[j]);
      assert Malformed(more[j]);
    }
  }

  lemma SomeRepeatAdd(offers: seq<Offer>, o: Offer)
    ensures SomeRepeat(offers + [o]) <==> SomeRepeat(offers) || RepeatedBy(offers, o)
  {
    var more := offers + [o];
    assert more[|offers|] == o && forall i :: 0 <= i < |offers| ==> more[i] == offers[i];
    if SomeRepeat(offers) {
      var i, j :| 0 <= i < j < |offers| && Repeats(offers[i], offers[j]);
      assert Repeats(more[i], more[j]);
    }
    if RepeatedBy(offers, o) {
      var i :| 0 <= i < |offers| && Repeats(offers[i], o);
      assert Repeats(more[i], more[|offers|]);
    }
  }

  lemma KeysOfAdd(offers: seq<Offer>, seen: set<(string, string)>, o: Offer)
    requires KeysOf(offers, seen)
    ensures KeysOf(offers + [o], if Malformed(o) then seen else seen + {OfferKey(o)})
    ensures RepeatedBy(offers, o) <==> !Malformed(o) && OfferKey(o) in seen
  {
    var more, keys := offers + [o], if Malformed(o) then seen else seen + {OfferKey(o)};
    assert more[|offers|] == o && forall i :: 0 <= i < |offers| ==> more[i] == offers[i];
    forall k | k in keys ensures exists j :: 0 <= j < |more| && !Malformed(more[j]) && OfferKey(more[j]) == k {
      if k in seen {
        var j :| 0 <= j < |offers| && !Malformed(offers[j]) && OfferKey(offers[j]) == k;
        assert OfferKey(more[j]) == k;
      } else {
        assert OfferKey(more[|offers|]) == k;
      }
    }
    if !Malformed(o) && OfferKey(o) in seen {
      var j :| 0 <= j < |offers| && !Malformed(offers[j]) && OfferKey(offers[j]) == OfferKey(o);
      assert Repeats(offers[j], o);
    }
  }

  /** One more offer has been looked at, and the code that fits it was added. */
  lemma NoteOffer(offers: seq<Offer>, issues: seq<Issue>, seen: set<(string, string)>, o: Offer, more: seq<Issue>)
    requires Noted(offers, issues, seen)
    requires InvalidResource in more <==> InvalidResource in issues || Malformed(o)
    requires DuplicateResource in more <==> DuplicateResource in issues || (!Malformed(o) && OfferKey(o) in seen)
    ensures Noted(offers + [o], more, if Malformed(o) then seen else seen + {OfferKey(o)})
  {
    SomeMalformedAdd(offers, o);
    SomeRepeatAdd(offers, o);
    KeysOfAdd(offers, seen, o);
  }

  lemma AllReached(offers: seq<Offer>, issues: seq<Issue>, seen: set<(string, string)>)
    requires Noted(offers, issues, seen)
    ensures NotedReached(offers, issues, seen)
  {
    forall j | 0 <= j < |offers| ensures Reached(offers, seen, j) {}
    if SomeMalformed(offers) {
      var j :| 0 <= j < |offers| && Malformed(offers[j]);
      assert Reached(offers, seen, j) && Malformed(offers[j]);
    }
    if SomeRepeat(offers) {
      var i, j :| 0 <= i < j < |offers| && Repeats(offers[i], offers[j]);
      assert Reached(offers, seen, j) && offers[..j][i] == offers[i] && RepeatedBy(offers[..j], offers[j]);
    }
    forall j | Reached(offers, seen, j) && RepeatedBy(offers[..j], offers[j]) ensures SomeRepeat(offers) {
      var i :| 0 <= i < j && Repeats(offers[..j][i], offers[j]);
      assert Repeats(offers[i], offers[j]);
    }
  }

  /** What is reached of some offers that do not end in one that is left over does not depend on the rest. */
  lemma ReachedOfPart(offers: seq<Offer>, rest: seq<Offer>, seen: set<(string, string)>, j: nat)
    requires j < |offers|
    ensures var all := offers + rest;
            && (Reached(all, seen, j) <==> Reached(offers, seen, j)) && all[j] == offers[j] && all[..j] == offers[..j]
  {
    var all := offers + rest;
    assert forall i :: 0 <= i < |offers| ==> all[i] == offers[i];
  }

  lemma UnreadNotNoted(offers: seq<Offer>, rest: seq<Offer>, seen: set<(string, string)>, j: int)
    requires KeysOf(offers, seen) && rest != [] && Untaken(rest[0], seen)
    requires Reached(offers + rest, seen, j) && j >= |offers|
    ensures var all := offers + rest; !Malformed(all[j]) && !RepeatedBy(all[..j], all[j])
  {
    var all := offers + rest;
    assert all[|offers|] == rest[0] && all[..|offers|] == offers;
    assert j == |offers|;
    KeysOfAdd(offers, seen, rest[0]);
  }

  /** The rest of the offers was not looked at: there is none, or it begins with one that is left over. */
  lemma RestUnread(offers: seq<Offer>, rest: seq<Offer>, issues: seq<Issue>, more: seq<Issue>,
                   seen: set<(string, string)>)
    requires Noted(offers, issues, seen) && (rest == [] || Untaken(rest[0], seen))
    requires forall x :: x != ResourceLimit ==> (x in more <==> x in issues)
    ensures NotedReached(offers + rest, more, seen)
  {
    var all := offers + rest;
    AllReached(offers, issues, seen);
    forall j: nat | j < |offers| { ReachedOfPart(offers, rest, seen, j); }
    forall j | Reached(all, seen, j) && j >= |offers| ensures !Malformed(all[j]) && !RepeatedBy(all[..j], all[j]) {
      UnreadNotNoted(offers, rest, seen, j);
    }
    if InvalidResource in issues {
      var j :| Reached(offers, seen, j) && Malformed(offers[j]);
      assert Reached(all, seen, j);
    }
    if DuplicateResource in issues {
      var j :| Reached(offers, seen, j) && RepeatedBy(offers[..j], offers[j]);
      assert Reached(all, seen, j);
    }
  }

  lemma OffersAdd(earlier: seq<Offer>, stack: string, items: seq<RawItem>, more: seq<RawItem>)
    ensures earlier + Offers(stack, items + more) == (earlier + Offers(stack, items)) + Offers(stack, more)
    ensures |more| == 1 ==> Offers(stack, more) == [Offer(stack, more[0])]
  {
  }

  /** The codes that are not about items are the same, except for `except`. */
  predicate OtherCodes(before: seq<Issue>, after: seq<Issue>, except: set<Issue>)
  {
    forall x :: x !in except && x != InvalidResource && x != DuplicateResource ==> (x in after <==> x in before)
  }

  // ---------------------------------------------------------------- one page

  ghost predicate Sanitizes(f: RawItem -> Option<Resource>, stack: string, item: RawItem)
  {
    f(item) == Sanitize(item, stack)
  }

  /** One item: malformed, repeated, beyond the cap, or kept. */
  method TakeItem(ghost f: RawItem -> Option<Resource>, stack: string, item: RawItem, p: Progress, cap: nat,
                  ghost base: seq<Resource>, ghost items: seq<RawItem>, ghost before: bool, ghost earlier: seq<Offer>)
    returns (q: Progress, full: bool)
    requires Sanitizes(f, stack, item)
    requires p.Consistent() && |p.resources| <= cap && Tracks(f, base, items, p.resources, before, p.complete)
    requires Noted(earlier + Offers(stack, items), p.issues, p.seen)
    ensures full ==> |p.resources| == cap && q == p.(complete := false) && Untaken(Offer(stack, item), p.seen)
    ensures !full ==> q.Consistent() && |q.resources| <= cap
    ensures !full ==> Tracks(f, base, items + [item], q.resources, before, q.complete)
    ensures !full ==> Noted(earlier + Offers(stack, items + [item]), q.issues, q.seen)
    ensures OtherCodes(p.issues, q.issues, {})
  {
    var sanitized := Sanitize(item, stack);
    full := false;
    ghost var offers, o := earlier + Offers(stack, items), Offer(stack, item);
    OffersAdd(earlier, stack, items, [item]);
    if sanitized.None? {
      TrackMalformed(f, base, items, p.resources, before, p.complete, item);
      q := p.Fail(InvalidResource);
      NoteOffer(offers, p.issues, p.seen, o, q.issues);
      return;
    }
    var r := sanitized.value;
    SeenIsRepeated(p.seen, p.resources, r);
    if (stack, r.logicalId) in p.seen {
      TrackDuplicate(f, base, items, p.resources, before, p.complete, item);
      q := p.Fail(DuplicateResource);
      NoteOffer(offers, p.issues, p.seen, o, q.issues);
      assert p.seen + {OfferKey(o)} == p.seen;
      return;
    }
    if |p.resources| >= cap {
      return p.(complete := false), true;
    }
    TrackNew(f, base, items, p.resources, before, p.complete, item);
    NoteOffer(offers, p.issues, p.seen, o, p.issues);
    SeenAdd(p.seen, p.resources, r);
    q := p.(seen := p.seen + {Key(r)}, resources := p.resources + [r]);
  }

  /** All items of the page were good, and there is still room. */
  predicate Roomy(f: RawItem -> Option<Resource>, base: seq<Resource>, items: seq<RawItem>, cap: nat)
  {
    Good(f, base, items) && |base + Images(f, items)| < cap
  }

  /** The state after reading `items` of a stack, full or not. */
  ghost predicate Read(f: RawItem -> Option<Resource>, base: seq<Resource>, items: seq<RawItem>, p: Progress,
                       before: bool, cap: nat)
  {
    && p.Consistent() && |p.resources| <= cap
    && if |p.resources| < cap then Tracks(f, base, items, p.resources, before, p.complete)
       else !p.complete && !Roomy(f, base, items, cap) && Kept(f, base, items, p.resources)
  }

  /** The list is full after `n` of the items: it was not roomy, and the flag goes down. */
  method FillUp(ghost f: RawItem -> Option<Resource>, ghost base: seq<Resource>, ghost items: seq<RawItem>,
                ghost n: nat, p: Progress, ghost before: bool, cap: nat)
    returns (q: Progress)
    requires n <= |items| && |p.resources| == cap && p.Consistent()
    requires Tracks(f, base, items[..n], p.resources, before, p.complete)
    ensures Read(f, base, items, q, before, cap) && |q.resources| == cap
    ensures q.seen == p.seen && forall x :: x in q.issues <==> x in p.issues || x == ResourceLimit
  {
    GoodPrefix(f, base, items, n);
    KeptOfPrefix(f, base, items, n, p.resources);
    q := p.Fail(ResourceLimit);
  }

  /** The codes after a page: those about items are exact for all that was looked at, and only a full list adds its
      own. */
  ghost predicate PageNoted(offers: seq<Offer>, before: seq<Issue>, q: Progress, cap: nat)
  {
    if |q.resources| < cap then Noted(offers, q.issues, q.seen) && OtherCodes(before, q.issues, {})
    else
      && NotedReached(offers, q.issues, q.seen)
      && OtherCodes(before, q.issues, {ResourceLimit}) && ResourceLimit in q.issues
  }

  /** The page loop: `prior` are the items of the stack's earlier pages, `earlier` what other stacks offered. */
  method ReadPage(ghost f: RawItem -> Option<Resource>, stack: string, page: seq<RawItem>, p: Progress, cap: nat,
                  ghost base: seq<Resource>, ghost prior: seq<RawItem>, ghost before: bool, ghost earlier: seq<Offer>)
    returns (q: Progress)
    requires forall item {:trigger Sanitizes(f, stack, item)} :: Sanitizes(f, stack, item)
    requires |p.resources| < cap && Read(f, base, prior, p, before, cap)
    requires Noted(earlier + Offers(stack, prior), p.issues, p.seen)
    ensures Read(f, base, prior + page, q, before, cap)
    ensures PageNoted(earlier + Offers(stack, prior + page), p.issues, q, cap)
  {
    ghost var whole, taken := prior + page, prior;
    q := p;
    var i := 0;
    assert whole[..|prior|] == prior;
    while i < |page|
      invariant 0 <= i <= |page| && taken == whole[..|prior| + i]
      invariant q.Consistent() && |q.resources| <= cap && Tracks(f, base, taken, q.resources, before, q.complete)
      invariant Noted(earlier + Offers(stack, taken), q.issues, q.seen) && OtherCodes(p.issues, q.issues, {})
    {
      assert Sanitizes(f, stack, page[i]);
      var next, full := TakeItem(f, stack, page[i], q, cap, base, taken, before, earlier);
      if full {
        ghost var last := q;
        q := FillUp(f, base, whole, |prior| + i, q, before, cap);
        PageCut(earlier, stack, prior, page, i, p.issues, last, q, cap);
        return;
      }
      TakeOne(prior, page, i);
      taken := taken + [page[i]];
      q := next;
      i := i + 1;
    }
    assert taken == whole;
    if |q.resources| >= cap {
      ghost var last := q;
      q := FillUp(f, base, whole, |prior| + i, q, before, cap);
      PageCut(earlier, stack, prior, page, i, p.issues, last, q, cap);
    }
  }

  /** The list was full after `i` items of the page, and the next one, if any, was left over. */
  lemma PageCut(earlier: seq<Offer>, stack: string, prior: seq<RawItem>, page: seq<RawItem>, i: nat,
                before: seq<Issue>, p: Progress, q: Progress, cap: nat)
    requires i <= |page| && Noted(earlier + Offers(stack, (prior + page)[..|prior| + i]), p.issues, p.seen)
    requires i < |page| ==> Untaken(Offer(stack, page[i]), p.seen)
    requires OtherCodes(before, p.issues, {}) && |q.resources| >= cap && q.seen == p.seen
    requires forall x :: x in q.issues <==> x in p.issues || x == ResourceLimit
    ensures PageNoted(earlier + Offers(stack, prior + page), before, q, cap)
  {
    var read, rest := (prior + page)[..|prior| + i], page[i..];
    assert prior + page == read + rest;
    OffersAdd(earlier, stack, read, rest);
    RestUnread(earlier + Offers(stack, read), Offers(stack, rest), p.issues, q.issues, p.seen);
  }

  lemma TakeOne<T>(prior: seq<T>, page: seq<T>, i: nat)
    requires i < |page|
    ensures (prior + page)[..|prior| + i] + [page[i]] == (prior + page)[..|prior| + (i + 1)]
  {
  }

  // ---------------------------------------------------------------- one stack

  /** The token to send next, and the tokens received, after the calls of a chain that goes on. */
  ghost predicate Chain(calls: seq<Call>, nextToken: Option<string>, tokens: set<string>)
  {
    && (forall i :: 0 <= i < |calls| ==> calls[i].reply.Page? && calls[i].reply.next.TokenText?)
    && (forall t :: t in tokens <==> exists i :: 0 <= i < |calls| && calls[i].reply.next == TokenText(t))
    && (forall i, k :: 0 <= i < k < |calls| ==> calls[i].reply.next != calls[k].reply.next)
    && (if calls == [] then nextToken == None
        else nextToken.Some? && nextToken.value != "" && calls[|calls| - 1].reply.next == TokenText(nextToken.value))
  }

  /** A page requested with the current token extends the chain. */
  lemma LinkedGrows(stack: string, calls: seq<Call>, nextToken: Option<string>, tokens: set<string>, call: Call)
    requires Linked(stack, calls) && Chain(calls, nextToken, tokens)
    requires call.stack == stack && call.token == nextToken
    ensures Linked(stack, calls + [call])
  {
    var more := calls + [call];
    assert forall i :: 0 <= i < |more| ==> more[i] == if i < |calls| then calls[i] else call;
  }

  /** A new non-empty token keeps the chain going. */
  lemma ChainGrows(calls: seq<Call>, nextToken: Option<string>, tokens: set<string>, call: Call)
    requires Chain(calls, nextToken, tokens) && call.reply.Page? && call.reply.next.TokenText?
    requires call.reply.next.text != "" && call.reply.next.text !in tokens
    ensures Chain(calls + [call], Some(call.reply.next.text), tokens + {call.reply.next.text})
  {
    var more, text := calls + [call], call.reply.next.text;
    assert more[|calls|] == call && forall i :: 0 <= i < |calls| ==> more[i] == calls[i];
    forall t ensures t in tokens + {text} <==> exists i :: 0 <= i < |more| && more[i].reply.next == TokenText(t) {
      if t in tokens {
        var i :| 0 <= i < |calls| && calls[i].reply.next == TokenText(t);
        assert more[i].reply.next == TokenText(t);
      } else if t == text {
        assert more[|calls|].reply.next == TokenText(t);
      }
    }
  }

  lemma ItemsGrow(calls: seq<Call>, call: Call)
    ensures ItemsOf(calls + [call]) == if call.reply.Page? then ItemsOf(calls) + call.reply.items else ItemsOf(calls)
  {
    assert (calls + [call])[..|calls|] == calls;
  }

  /** What is known after a stack: nothing lost unnoticed, and the flag exact. */
  ghost predicate StackRead(f: RawItem -> Option<Resource>, base: seq<Resource>, stack: string, calls: seq<Call>,
                            p: Progress, before: bool, pageCap: nat, cap: nat)
  {
    && |calls| <= pageCap && Linked(stack, calls) && (|p.resources| < cap ==> Stopped(calls, pageCap))
    && Read(f, base, ItemsOf(calls), p, before && WholeChain(stack, calls, pageCap), cap)
    && (p.complete <==> before && WholeChain(stack, calls, pageCap) && Roomy(f, base, ItemsOf(calls), cap))
  }

  /** The chain stops short: the flag goes down with an issue. */
  lemma ChainBreaks(f: RawItem -> Option<Resource>, base: seq<Resource>, stack: string, calls: seq<Call>,
                    p: Progress, before: bool, pageCap: nat, cap: nat, issue: Issue)
    requires |calls| <= pageCap && |p.resources| < cap && Read(f, base, ItemsOf(calls), p, before, cap)
    requires Linked(stack, calls) && Stopped(calls, pageCap) && !WholeChain(stack, calls, pageCap)
    ensures StackRead(f, base, stack, calls, p.Fail(issue), before, pageCap, cap)
  {
  }

  /** The list is full: it is left at that. */
  lemma ListFull(f: RawItem -> Option<Resource>, base: seq<Resource>, stack: string, calls: seq<Call>,
                 p: Progress, before: bool, pageCap: nat, cap: nat)
    requires |calls| <= pageCap && |p.resources| >= cap && Read(f, base, ItemsOf(calls), p, before, cap)
    requires Linked(stack, calls)
    ensures StackRead(f, base, stack, calls, p, before, pageCap, cap)
  {
  }

  /** The chain ended and there was room. */
  lemma ChainEnds(f: RawItem -> Option<Resource>, base: seq<Resource>, stack: string, calls: seq<Call>,
                  p: Progress, before: bool, pageCap: nat, cap: nat)
    requires WholeChain(stack, calls, pageCap)
    requires |p.resources| < cap && Read(f, base, ItemsOf(calls), p, before, cap) && Stopped(calls, pageCap)
    ensures StackRead(f, base, stack, calls, p, before, pageCap, cap)
  {
  }

  datatype Following = Ended | Onward(token: string) | Broken(issue: Issue)

  function Follow(next: RawToken, tokens: set<string>): Following
  {
    match next
    case NoToken => Ended
    case TokenNotText => Broken(InvalidToken)
    case TokenText(text) =>
      if text == "" then Broken(InvalidToken) else if text in tokens then Broken(RepeatedToken) else Onward(text)
  }

  /** A chain is stopped, and not whole, if its last call brings no page or a useless token. */
  lemma NotWhole(stack: string, calls: seq<Call>, nextToken: Option<string>, tokens: set<string>, call: Call,
                 pageCap: nat)
    requires Chain(calls, nextToken, tokens)
    requires call.reply.Page? ==> Follow(call.reply.next, tokens).Broken?
    ensures !WholeChain(stack, calls + [call], pageCap) && Stopped(calls + [call], pageCap)
  {
    var more := calls + [call];
    assert more[|calls|] == call;
    if call.reply.Page? && call.reply.next.TokenText? && call.reply.next.text != "" {
      var i :| 0 <= i < |calls| && calls[i].reply.next == call.reply.next;
      assert more[i] == calls[i];
    }
  }

  /** A chain that goes on is not whole. */
  lemma ChainNotWhole(stack: string, calls: seq<Call>, nextToken: Option<string>, tokens: set<string>, pageCap: nat)
    requires Chain(calls, nextToken, tokens)
    ensures !WholeChain(stack, calls, pageCap)
  {
  }

  lemma NowWhole(stack: string, calls: seq<Call>, call: Call, pageCap: nat)
    requires Linked(stack, calls + [call]) && |calls| < pageCap
    requires call.reply.Page? && call.reply.next == NoToken
    ensures WholeChain(stack, calls + [call], pageCap) && Stopped(calls + [call], pageCap)
  {
    assert (calls + [call])[|calls|] == call;
  }

  /** The state between two pages of a stack. */
  ghost predicate Going(f: RawItem -> Option<Resource>, base: seq<Resource>, stack: string, calls: seq<Call>,
                        nextToken: Option<string>, tokens: set<string>, p: Progress, before: bool, cap: nat)
  {
    && Linked(stack, calls) && Chain(calls, nextToken, tokens)
    && |p.resources| < cap && Read(f, base, ItemsOf(calls), p, before, cap)
  }

  /** A request that brings no page ends the chain. */
  lemma NoPage(f: RawItem -> Option<Resource>, base: seq<Resource>, stack: string, calls: seq<Call>,
               nextToken: Option<string>, tokens: set<string>, p: Progress, before: bool, pageCap: nat, cap: nat,
               call: Call, issue: Issue)
    requires Going(f, base, stack, calls, nextToken, tokens, p, before, cap) && |calls| < pageCap
    requires call.stack == stack && call.token == nextToken && !call.reply.Page?
    ensures StackRead(f, base, stack, calls + [call], p.Fail(issue), before, pageCap, cap)
  {
    ItemsGrow(calls, call);
    LinkedGrows(stack, calls, nextToken, tokens, call);
    NotWhole(stack, calls, nextToken, tokens, call, pageCap);
    ChainBreaks(f, base, stack, calls + [call], p, before, pageCap, cap, issue);
  }

  /** A page that fills the list. */
  lemma PageFills(f: RawItem -> Option<Resource>, base: seq<Resource>, stack: string, calls: seq<Call>,
                  nextToken: Option<string>, tokens: set<string>, before: bool, pageCap: nat, cap: nat,
                  call: Call, q: Progress)
    requires Linked(stack, calls) && Chain(calls, nextToken, tokens) && |calls| < pageCap
    requires call.stack == stack && call.token == nextToken
    requires |q.resources| >= cap && Read(f, base, ItemsOf(calls + [call]), q, before, cap)
    ensures StackRead(f, base, stack, calls + [call], q, before, pageCap, cap)
  {
    LinkedGrows(stack, calls, nextToken, tokens, call);
    ListFull(f, base, stack, calls + [call], q, before, pageCap, cap);
  }

  /** A page read with room left, and no further token: the chain is whole. */
  lemma PageEnds(f: RawItem -> Option<Resource>, base: seq<Resource>, stack: string, calls: seq<Call>,
                 nextToken: Option<string>, tokens: set<string>, before: bool, pageCap: nat, cap: nat,
                 call: Call, q: Progress)
    requires Linked(stack, calls) && Chain(calls, nextToken, tokens) && |calls| < pageCap
    requires call.stack == stack && call.token == nextToken && call.reply.Page? && call.reply.next == NoToken
    requires |q.resources| < cap && Read(f, base, ItemsOf(calls + [call]), q, before, cap)
    ensures StackRead(f, base, stack, calls + [call], q, before, pageCap, cap)
  {
    LinkedGrows(stack, calls, nextToken, tokens, call);
    NowWhole(stack, calls, call, pageCap);
    ChainEnds(f, base, stack, calls + [call], q, before, pageCap, cap);
  }

  /** A page read with room left, and a token that is no use. */
  lemma PageBreaks(f: RawItem -> Option<Resource>, base: seq<Resource>, stack: string, calls: seq<Call>,
                   nextToken: Option<string>, tokens: set<string>, before: bool, pageCap: nat, cap: nat,
                   call: Call, q: Progress, issue: Issue)
    requires Linked(stack, calls) && Chain(calls, nextToken, tokens) && |calls| < pageCap
    requires call.stack == stack && call.token == nextToken
    requires call.reply.Page? && Follow(call.reply.next, tokens).Broken?
    requires |q.resources| < cap && Read(f, base, ItemsOf(calls + [call]), q, before, cap)
    ensures StackRead(f, base, stack, calls + [call], q.Fail(issue), before, pageCap, cap)
  {
    LinkedGrows(stack, calls, nextToken, tokens, call);
    NotWhole(stack, calls, nextToken, tokens, call, pageCap);
    ChainBreaks(f, base, stack, calls + [call], q, before, pageCap, cap, issue);
  }

  /** A page read with room left, and a new token. */
  lemma PageGoesOn(f: RawItem -> Option<Resource>, base: seq<Resource>, stack: string, calls: seq<Call>,
                   nextToken: Option<string>, tokens: set<string>, before: bool, cap: nat, call: Call, q: Progress)
    requires Linked(stack, calls) && Chain(calls, nextToken, tokens)
    requires call.stack == stack && call.token == nextToken && call.reply.Page? && call.reply.next.TokenText?
    requires call.reply.next.text != "" && call.reply.next.text !in tokens
    requires |q.resources| < cap && Read(f, base, ItemsOf(calls + [call]), q, before, cap)
    ensures Going(f, base, stack, calls + [call], Some(call.reply.next.text), tokens + {call.reply.next.text},
                  q, before, cap)
  {
    LinkedGrows(stack, calls, nextToken, tokens, call);
    ChainGrows(calls, nextToken, tokens, call);
  }

  // ---------------------------------------------------------------- what the issues say about chains

  predicate ChainCode(x: Issue)
  {
    x.StackUnavailable? || x.InvalidResponse? || x.InvalidToken? || x.RepeatedToken? || x.PageLimit?
  }

  /** A page with a token that is no text or empty. */
  predicate BadToken(c: Call)
  {
    c.reply.Page? && (c.reply.next.TokenNotText? || c.reply.next == TokenText(""))
  }

  /** A page with a text for the next one. */
  predicate GoodToken(c: Call)
  {
    c.reply.Page? && c.reply.next.TokenText? && c.reply.next.text != ""
  }

  /** The same text was received again. */
  ghost predicate TokenRepeats(calls: seq<Call>, n: int)
    requires n <= |calls|
  {
    exists i, k :: 0 <= i < k < n && GoodToken(calls[k]) && GoodToken(calls[i])
                   && calls[i].reply.next == calls[k].reply.next
  }

  /** The calls of a stack give rise to the code. If the list is full, the last token is not looked at. */
  ghost predicate Breaks(x: Issue, calls: seq<Call>, pageCap: nat, full: bool)
  {
    var n := if full then |calls| - 1 else |calls|;
    match x
    case StackUnavailable => exists i :: 0 <= i < |calls| && calls[i].reply.Raised?
    case InvalidResponse =>
      exists i :: 0 <= i < |calls| && (calls[i].reply.ReplyNotMapping? || calls[i].reply.NoResourceList?)
    case InvalidToken => exists i :: 0 <= i < n && BadToken(calls[i])
    case RepeatedToken => TokenRepeats(calls, n)
    case PageLimit =>
      !full && |calls| == pageCap && (forall i :: 0 <= i < |calls| ==> GoodToken(calls[i])) && !TokenRepeats(calls, n)
    case _ => false
  }

  /** Codes about chains are those told before; the list is not full. */
  ghost predicate CodesTold(issues: seq<Issue>, told: set<Issue>)
  {
    && ClientUnavailable !in issues && ResourceLimit !in issues
    && forall x :: ChainCode(x) ==> (x in issues <==> x in told)
  }

  ghost predicate GoingNoted(earlier: seq<Offer>, stack: string, calls: seq<Call>, p: Progress, told: set<Issue>)
  {
    Noted(earlier + Offers(stack, ItemsOf(calls)), p.issues, p.seen) && CodesTold(p.issues, told)
  }

  /** The codes after a stack, given those about chains that were told before. */
  ghost predicate StackNoted(earlier: seq<Offer>, stack: string, calls: seq<Call>, q: Progress, told: set<Issue>,
                             pageCap: nat, cap: nat)
  {
    var full, offers := |q.resources| >= cap, earlier + Offers(stack, ItemsOf(calls));
    && (if full then NotedReached(offers, q.issues, q.seen) else Noted(offers, q.issues, q.seen))
    && ClientUnavailable !in q.issues && (ResourceLimit in q.issues <==> full)
    && forall x :: ChainCode(x) ==> (x in q.issues <==> x in told || Breaks(x, calls, pageCap, full))
  }

  /** A chain that goes on has only good tokens, all different. */
  lemma ChainIsGood(stack: string, calls: seq<Call>, nextToken: Option<string>, tokens: set<string>)
    requires Linked(stack, calls) && Chain(calls, nextToken, tokens)
    ensures (forall i :: 0 <= i < |calls| ==> GoodToken(calls[i])) && !TokenRepeats(calls, |calls|)
  {
    forall i | 0 <= i < |calls| ensures GoodToken(calls[i]) {
      if i == |calls| - 1 { assert calls[i].reply.next == TokenText(nextToken.value); }
    }
  }

  /** The page cap is the only trouble of a chain that goes on. */
  lemma GoodChainBreaks(calls: seq<Call>, pageCap: nat, x: Issue)
    requires (forall i :: 0 <= i < |calls| ==> GoodToken(calls[i])) && !TokenRepeats(calls, |calls|)
    ensures Breaks(x, calls, pageCap, false) <==> x == PageLimit && |calls| == pageCap
  {
  }

  lemma FullBreaks(calls: seq<Call>, call: Call, pageCap: nat, x: Issue)
    requires (forall i :: 0 <= i < |calls| ==> GoodToken(calls[i])) && !TokenRepeats(calls, |calls|) && call.reply.Page?
    ensures !Breaks(x, calls + [call], pageCap, true)
  {
    var more := calls + [call];
    assert more[|calls|] == call && forall i :: 0 <= i < |calls| ==> more[i] == calls[i];
  }

  lemma NoPageBreaks(calls: seq<Call>, call: Call, pageCap: nat, x: Issue)
    requires forall i :: 0 <= i < |calls| ==> GoodToken(calls[i])
    requires !TokenRepeats(calls, |calls|) && !call.reply.Page?
    ensures Breaks(x, calls + [call], pageCap, false) <==>
              x == if call.reply.Raised? then StackUnavailable else InvalidResponse
  {
    var more := calls + [call];
    assert more[|calls|] == call && forall i :: 0 <= i < |calls| ==> more[i] == calls[i];
  }

  lemma RepeatOfLast(calls: seq<Call>, call: Call)
    requires !TokenRepeats(calls, |calls|)
    ensures TokenRepeats(calls + [call], |calls| + 1) <==>
              GoodToken(call)
              && exists i :: 0 <= i < |calls| && GoodToken(calls[i]) && calls[i].reply.next == call.reply.next
  {
    var more := calls + [call];
    assert more[|calls|] == call && forall i :: 0 <= i < |calls| ==> more[i] == calls[i];
    if TokenRepeats(more, |more|) {
      var i, k :| 0 <= i < k < |more| && GoodToken(more[k]) && GoodToken(more[i])
                  && more[i].reply.next == more[k].reply.next;
    }
    if GoodToken(call) {
      forall i | 0 <= i < |calls| && GoodToken(calls[i]) && calls[i].reply.next == call.reply.next
        ensures TokenRepeats(more, |more|)
      {
        assert GoodToken(more[i]) && GoodToken(more[|calls|]);
      }
    }
  }

  /** A good last token was received before exactly if it is among the tokens. */
  lemma LastTokenRepeats(stack: string, calls: seq<Call>, nextToken: Option<string>, tokens: set<string>, call: Call)
    requires Linked(stack, calls) && Chain(calls, nextToken, tokens)
    ensures TokenRepeats(calls + [call], |calls| + 1) <==> GoodToken(call) && call.reply.next.text in tokens
  {
    ChainIsGood(stack, calls, nextToken, tokens);
    RepeatOfLast(calls, call);
    if GoodToken(call) && call.reply.next.text in tokens {
      var i :| 0 <= i < |calls| && calls[i].reply.next == TokenText(call.reply.next.text);
      assert GoodToken(calls[i]);
    }
  }

  lemma LastBadToken(calls: seq<Call>, call: Call)
    requires forall i :: 0 <= i < |calls| ==> GoodToken(calls[i])
    ensures var more := calls + [call];
            && ((exists i :: 0 <= i < |more| && BadToken(more[i])) <==> BadToken(call))
            && ((forall i :: 0 <= i < |more| ==> GoodToken(more[i])) <==> GoodToken(call))
  {
    var more := calls + [call];
    assert more[|calls|] == call && forall i :: 0 <= i < |calls| ==> more[i] == calls[i];
  }

  lemma LastPage(calls: seq<Call>, call: Call)
    requires (forall i :: 0 <= i < |calls| ==> GoodToken(calls[i])) && call.reply.Page?
    ensures forall i :: 0 <= i < |calls + [call]| ==> (calls + [call])[i].reply.Page?
  {
  }

  /** The trouble with a last page, if its token leads no further. */
  lemma PageTokenBreaks(stack: string, calls: seq<Call>, nextToken: Option<string>, tokens: set<string>, call: Call,
                        pageCap: nat, x: Issue)
    requires Linked(stack, calls) && Chain(calls, nextToken, tokens) && call.reply.Page?
    requires GoodToken(call) ==> call.reply.next.text in tokens
    ensures Breaks(x, calls + [call], pageCap, false) <==>
              (x == InvalidToken && BadToken(call)) || (x == RepeatedToken && GoodToken(call))
  {
    ChainIsGood(stack, calls, nextToken, tokens);
    LastTokenRepeats(stack, calls, nextToken, tokens, call);
    LastBadToken(calls, call);
    LastPage(calls, call);
  }

  /** Codes that are not about items leave those about items right. */
  lemma NotedMore(offers: seq<Offer>, issues: seq<Issue>, seen: set<(string, string)>, x: Issue)
    requires Noted(offers, issues, seen) && OnceEach(issues) && x != InvalidResource && x != DuplicateResource
    ensures Noted(offers, AddIssue(issues, x), seen)
  {
  }

  /** The chain stops for a reason, which is told. */
  lemma ChainFails(earlier: seq<Offer>, stack: string, calls: seq<Call>, p: Progress, issue: Issue, told: set<Issue>,
                   pageCap: nat, cap: nat)
    requires Noted(earlier + Offers(stack, ItemsOf(calls)), p.issues, p.seen) && CodesTold(p.issues, told)
    requires |p.resources| < cap && OnceEach(p.issues) && ChainCode(issue)
    requires forall x :: ChainCode(x) ==> (Breaks(x, calls, pageCap, false) <==> x == issue)
    ensures StackNoted(earlier, stack, calls, p.Fail(issue), told, pageCap, cap)
  {
    NotedMore(earlier + Offers(stack, ItemsOf(calls)), p.issues, p.seen, issue);
  }

  /** A request without a page. */
  lemma NoPageNoted(earlier: seq<Offer>, stack: string, calls: seq<Call>, nextToken: Option<string>,
                    tokens: set<string>, call: Call, p: Progress, told: set<Issue>, pageCap: nat, cap: nat)
    requires Linked(stack, calls) && Chain(calls, nextToken, tokens) && !call.reply.Page?
    requires GoingNoted(earlier, stack, calls, p, told) && OnceEach(p.issues) && |p.resources| < cap
    ensures StackNoted(earlier, stack, calls + [call],
                       p.Fail(if call.reply.Raised? then StackUnavailable else InvalidResponse), told, pageCap, cap)
  {
    ChainIsGood(stack, calls, nextToken, tokens);
    ItemsGrow(calls, call);
    forall x { NoPageBreaks(calls, call, pageCap, x); }
    ChainFails(earlier, stack, calls + [call], p, if call.reply.Raised? then StackUnavailable else InvalidResponse,
               told, pageCap, cap);
  }

  /** A page that fills the list. */
  lemma FullNoted(earlier: seq<Offer>, stack: string, calls: seq<Call>, nextToken: Option<string>,
                  tokens: set<string>, call: Call, before: seq<Issue>, q: Progress, told: set<Issue>, pageCap: nat,
                  cap: nat)
    requires Linked(stack, calls) && Chain(calls, nextToken, tokens) && call.reply.Page? && CodesTold(before, told)
    requires |q.resources| >= cap && PageNoted(earlier + Offers(stack, ItemsOf(calls + [call])), before, q, cap)
    ensures StackNoted(earlier, stack, calls + [call], q, told, pageCap, cap)
  {
    ChainIsGood(stack, calls, nextToken, tokens);
    forall x { FullBreaks(calls, call, pageCap, x); }
  }

  /** A page that does not, with a token that leads no further. */
  lemma LastPageNoted(earlier: seq<Offer>, stack: string, calls: seq<Call>, nextToken: Option<string>,
                      tokens: set<string>, call: Call, before: seq<Issue>, q: Progress, told: set<Issue>, pageCap: nat,
                      cap: nat)
    requires Linked(stack, calls) && Chain(calls, nextToken, tokens) && call.reply.Page? && CodesTold(before, told)
    requires |q.resources| < cap && PageNoted(earlier + Offers(stack, ItemsOf(calls + [call])), before, q, cap)
    requires OnceEach(q.issues) && (GoodToken(call) ==> call.reply.next.text in tokens)
    ensures StackNoted(earlier, stack, calls + [call],
                       if BadToken(call) then q.Fail(InvalidToken)
                       else if GoodToken(call) then q.Fail(RepeatedToken) else q, told, pageCap, cap)
  {
    forall x { PageTokenBreaks(stack, calls, nextToken, tokens, call, pageCap, x); }
    if BadToken(call) {
      ChainFails(earlier, stack, calls + [call], q, InvalidToken, told, pageCap, cap);
    } else if GoodToken(call) {
      ChainFails(earlier, stack, calls + [call], q, RepeatedToken, told, pageCap, cap);
    }
  }

  /** The page cap is reached. */
  lemma LimitNoted(earlier: seq<Offer>, stack: string, calls: seq<Call>, nextToken: Option<string>,
                   tokens: set<string>, p: Progress, told: set<Issue>, pageCap: nat, cap: nat)
    requires Linked(stack, calls) && Chain(calls, nextToken, tokens) && |calls| == pageCap && |p.resources| < cap
    requires GoingNoted(earlier, stack, calls, p, told) && OnceEach(p.issues)
    ensures StackNoted(earlier, stack, calls, p.Fail(PageLimit), told, pageCap, cap)
  {
    ChainIsGood(stack, calls, nextToken, tokens);
    forall x { GoodChainBreaks(calls, pageCap, x); }
    ChainFails(earlier, stack, calls, p, PageLimit, told, pageCap, cap);
  }

  /** The token of a page that did not fill the list. */
  method TakeToken(ghost f: RawItem -> Option<Resource>, stack: string, call: Call, p: Progress,
                   ghost nextToken: Option<string>, tokens: set<string>, ghost pageCap: nat, cap: nat,
                   ghost base: seq<Resource>, ghost before: bool, ghost prior: seq<Call>, ghost earlier: seq<Offer>,
                   ghost told: set<Issue>, ghost issues: seq<Issue>)
    returns (q: Progress, following: Following)
    requires Linked(stack, prior) && Chain(prior, nextToken, tokens) && |prior| < pageCap && |p.resources| < cap
    requires call.stack == stack && call.token == nextToken && call.reply.Page? && CodesTold(issues, told)
    requires Read(f, base, ItemsOf(prior + [call]), p, before, cap)
    requires PageNoted(earlier + Offers(stack, ItemsOf(prior + [call])), issues, p, cap)
    ensures if following.Onward?
            then Going(f, base, stack, prior + [call], Some(following.token), tokens + {following.token}, q, before,
                       cap)
            else StackRead(f, base, stack, prior + [call], q, before, pageCap, cap)
    ensures if following.Onward? then GoingNoted(earlier, stack, prior + [call], q, told)
            else StackNoted(earlier, stack, prior + [call], q, told, pageCap, cap)
  {
    q, following := p, Follow(call.reply.next, tokens);
    match following {
      case Ended =>
        PageEnds(f, base, stack, prior, nextToken, tokens, before, pageCap, cap, call, p);
        LastPageNoted(earlier, stack, prior, nextToken, tokens, call, issues, p, told, pageCap, cap);
      case Broken(issue) =>
        PageBreaks(f, base, stack, prior, nextToken, tokens, before, pageCap, cap, call, p, issue);
        LastPageNoted(earlier, stack, prior, nextToken, tokens, call, issues, p, told, pageCap, cap);
        q := p.Fail(issue);
      case Onward(_) =>
        PageGoesOn(f, base, stack, prior, nextToken, tokens, before, cap, call, p);
    }
  }

  /** A page: its items, and then its token. */
  method TakePage(ghost f: RawItem -> Option<Resource>, stack: string, call: Call, p: Progress,
                  nextToken: Option<string>, tokens: set<string>, ghost pageCap: nat, cap: nat,
                  ghost base: seq<Resource>, ghost before: bool, ghost prior: seq<Call>, ghost earlier: seq<Offer>,
                  ghost told: set<Issue>)
    returns (q: Progress, following: Following)
    requires forall item {:trigger Sanitizes(f, stack, item)} :: Sanitizes(f, stack, item)
    requires |prior| < pageCap && Going(f, base, stack, prior, nextToken, tokens, p, before, cap)
    requires GoingNoted(earlier, stack, prior, p, told)
    requires call.stack == stack && call.token == nextToken && call.reply.Page?
    ensures if following.Onward?
            then Going(f, base, stack, prior + [call], Some(following.token), tokens + {following.token}, q, before,
                       cap)
            else StackRead(f, base, stack, prior + [call], q, before, pageCap, cap)
    ensures if following.Onward? then GoingNoted(earlier, stack, prior + [call], q, told)
            else StackNoted(earlier, stack, prior + [call], q, told, pageCap, cap)
  {
    q := ReadPage(f, stack, call.reply.items, p, cap, base, ItemsOf(prior), before, earlier);
    ItemsGrow(prior, call);
    if |q.resources| >= cap {
      following := Broken(ResourceLimit);
      PageFills(f, base, stack, prior, nextToken, tokens, before, pageCap, cap, call, q);
      FullNoted(earlier, stack, prior, nextToken, tokens, call, p.issues, q, told, pageCap, cap);
      return;
    }
    q, following := TakeToken(f, stack, call, q, nextToken, tokens, pageCap, cap, base, before, prior, earlier, told,
                              p.issues);
  }

  lemma CallAdds(start: seq<Call>, calls: seq<Call>, call: Call)
    ensures (start + calls) + [call] == start + (calls + [call])
  {
  }

  /** One request and its page; `start` are the calls made before this stack. */
  method ReadNext(ghost f: RawItem -> Option<Resource>, client: CloudFormationClient, stack: string, p: Progress,
                  nextToken: Option<string>, tokens: set<string>, ghost pageCap: nat, cap: nat,
                  ghost base: seq<Resource>, ghost before: bool, ghost start: seq<Call>, ghost prior: seq<Call>,
                  ghost earlier: seq<Offer>, ghost told: set<Issue>)
    returns (q: Progress, following: Following, call: Call)
    requires forall item {:trigger Sanitizes(f, stack, item)} :: Sanitizes(f, stack, item)
    requires |prior| < pageCap && Going(f, base, stack, prior, nextToken, tokens, p, before, cap)
    requires GoingNoted(earlier, stack, prior, p, told)
    requires client.calls == start + prior
    modifies client
    ensures client.calls == start + (prior + [call])
    ensures if following.Onward?
            then Going(f, base, stack, prior + [call], Some(following.token), tokens + {following.token}, q, before,
                       cap)
            else StackRead(f, base, stack, prior + [call], q, before, pageCap, cap)
    ensures if following.Onward? then GoingNoted(earlier, stack, prior + [call], q, told)
            else StackNoted(earlier, stack, prior + [call], q, told, pageCap, cap)
  {
    var reply := client.ListStackResources(stack, nextToken);
    call := Call(stack, nextToken, reply);
    CallAdds(start, prior, call);
    if !reply.Page? {
      following := Broken(if reply.Raised? then StackUnavailable else InvalidResponse);
      NoPage(f, base, stack, prior, nextToken, tokens, p, before, pageCap, cap, call, following.issue);
      NoPageNoted(earlier, stack, prior, nextToken, tokens, call, p, told, pageCap, cap);
      q := p.Fail(following.issue);
      return;
    }
    q, following := TakePage(f, stack, call, p, nextToken, tokens, pageCap, cap, base, before, prior, earlier, told);
  }

  /** A stack that needs more pages than allowed. */
  lemma TooManyPages(f: RawItem -> Option<Resource>, base: seq<Resource>, stack: string, calls: seq<Call>,
                     nextToken: Option<string>, tokens: set<string>, p: Progress, before: bool, pageCap: nat, cap: nat)
    requires Going(f, base, stack, calls, nextToken, tokens, p, before, cap) && |calls| == pageCap
    ensures StackRead(f, base, stack, calls, p.Fail(PageLimit), before, pageCap, cap)
  {
    ChainNotWhole(stack, calls, nextToken, tokens, pageCap);
    ChainBreaks(f, base, stack, calls, p, before, pageCap, cap, PageLimit);
  }

  /** The loop over the pages of one stack. */
  method ReadStack(ghost f: RawItem -> Option<Resource>, client: CloudFormationClient, stack: string, p: Progress,
                   pageCap: nat, cap: nat, ghost base: seq<Resource>, ghost before: bool, ghost earlier: seq<Offer>,
                   ghost told: set<Issue>)
    returns (q: Progress, sdkRequests: nat, ghost calls: seq<Call>)
    requires forall item {:trigger Sanitizes(f, stack, item)} :: Sanitizes(f, stack, item)
    requires Going(f, base, stack, [], None, {}, p, before, cap) && GoingNoted(earlier, stack, [], p, told)
    modifies client
    ensures client.calls == old(client.calls) + calls && sdkRequests == |calls|
    ensures StackRead(f, base, stack, calls, q, before, pageCap, cap)
    ensures StackNoted(earlier, stack, calls, q, told, pageCap, cap)
  {
    var nextToken: Option<string> := None;
    var tokens: set<string> := {};
    var pages := 0;
    q, sdkRequests, calls := p, 0, [];
    ghost var start := client.calls;
    assert start + calls == start;
    while true
      invariant pages == sdkRequests == |calls| <= pageCap
      invariant client.calls == start + calls
      invariant Going(f, base, stack, calls, nextToken, tokens, q, before, cap)
      invariant GoingNoted(earlier, stack, calls, q, told)
      decreases pageCap - pages
    {
      if pages >= pageCap {
        TooManyPages(f, base, stack, calls, nextToken, tokens, q, before, pageCap, cap);
        LimitNoted(earlier, stack, calls, nextToken, tokens, q, told, pageCap, cap);
        q := q.Fail(PageLimit);
        return;
      }
      var following: Following;
      var call: Call;
      sdkRequests := sdkRequests + 1;
      q, following, call := ReadNext(f, client, stack, q, nextToken, tokens, pageCap, cap, base, before, start, calls,
                                     earlier, told);
      pages := pages + 1;
      calls := calls + [call];
      if !following.Onward? { return; }
      nextToken, tokens := Some(following.token), tokens + {following.token};
    }
  }

  // ---------------------------------------------------------------- all stacks

  /** The sanitised items of the first stacks, in order. */
  function ReceivedAll(stacks: seq<string>, logs: seq<seq<Call>>): seq<Resource>
    requires |logs| <= |stacks|
  {
    if logs == [] then []
    else
      var last := |logs| - 1;
      ReceivedAll(stacks, logs[..last]) + Received(stacks[last], logs[last])
  }

  function Flatten(logs: seq<seq<Call>>): seq<Call>
  {
    if logs == [] then [] else Flatten(logs[..|logs| - 1]) + logs[|logs| - 1]
  }

  predicate Pairwise<A, B>(p: (A, B) -> bool, xs: seq<A>, ys: seq<B>)
    requires |ys| <= |xs|
  {
    forall i :: 0 <= i < |ys| ==> p(xs[i], ys[i])
  }

  lemma PairwiseAdd<A, B>(p: (A, B) -> bool, xs: seq<A>, ys: seq<B>, y: B)
    requires |ys| < |xs|
    ensures Pairwise(p, xs, ys + [y]) <==> Pairwise(p, xs, ys) && p(xs[|ys|], y)
  {
    var more := ys + [y];
    assert more[|ys|] == y && forall i :: 0 <= i < |ys| ==> more[i] == ys[i];
  }

  /** A whole chain whose items all sanitise. */
  function ReadWhole(pageCap: nat): (string, seq<Call>) -> bool
  {
    (stack: string, calls: seq<Call>) =>
      WholeChain(stack, calls, pageCap) && AllHaveImages(Sanitizer(stack), ItemsOf(calls))
  }

  /** Calls that follow the chain until it stops. */
  function ReadOut(pageCap: nat): (string, seq<Call>) -> bool
  {
    (stack: string, calls: seq<Call>) => Linked(stack, calls) && Stopped(calls, pageCap)
  }

  /** Calls that follow the chain, to its end or not. */
  function Follows(): (string, seq<Call>) -> bool
  {
    (stack: string, calls: seq<Call>) => Linked(stack, calls)
  }

  /** No stack is given up while its chain could go on. */
  predicate NoneCutShort(stacks: seq<string>, logs: seq<seq<Call>>, pageCap: nat)
  {
    |logs| == |stacks| && Pairwise(ReadOut(pageCap), stacks, logs)
  }

  /** Each of the first stacks has been read to its end, with nothing malformed. */
  predicate AllRead(stacks: seq<string>, logs: seq<seq<Call>>, pageCap: nat)
    requires |logs| <= |stacks|
  {
    Pairwise(ReadWhole(pageCap), stacks, logs)
  }

  /** The promise behind `complete`. */
  predicate WholeInventory(stacks: seq<string>, logs: seq<seq<Call>>, pageCap: nat, cap: nat)
    requires |logs| <= |stacks|
  {
    |logs| == |stacks| && AllRead(stacks, logs, pageCap)
    && Distinct(ReceivedAll(stacks, logs)) && |ReceivedAll(stacks, logs)| < cap
  }

  /** The state between two stacks, with room left. */
  ghost predicate Gathered(received: seq<Resource>, p: Progress, before: bool, cap: nat)
  {
    && p.Consistent() && |p.resources| < cap
    && Distinct(p.resources) && Subsequence(p.resources, received)
    && (Distinct(received) ==> p.resources == received)
    && (p.complete <==> before && Distinct(received))
  }

  lemma SanitizerSanitizes(stack: string)
    ensures forall item {:trigger Sanitizes(Sanitizer(stack), stack, item)} :: Sanitizes(Sanitizer(stack), stack, item)
  {
  }

  lemma NothingRead(f: RawItem -> Option<Resource>, received: seq<Resource>, p: Progress, before: bool, cap: nat)
    requires Gathered(received, p, before, cap)
    ensures Read(f, received, ItemsOf([]), p, before, cap)
  {
    assert received + Images(f, []) == received;
  }

  lemma StackBegins(f: RawItem -> Option<Resource>, received: seq<Resource>, stack: string, p: Progress, before: bool,
                    cap: nat)
    requires Gathered(received, p, before, cap)
    ensures Going(f, received, stack, [], None, {}, p, before, cap)
  {
    assert Linked(stack, []) && Chain([], None, {});
    NothingRead(f, received, p, before, cap);
  }

  lemma StackDone(f: RawItem -> Option<Resource>, received: seq<Resource>, stack: string, calls: seq<Call>, p: Progress,
                  before: bool, pageCap: nat, cap: nat)
    requires StackRead(f, received, stack, calls, p, before, pageCap, cap) && |p.resources| < cap
    ensures Gathered(received + Images(f, ItemsOf(calls)), p,
                     before && WholeChain(stack, calls, pageCap) && AllHaveImages(f, ItemsOf(calls)), cap)
  {
  }

  lemma LogsGrow(stacks: seq<string>, logs: seq<seq<Call>>, calls: seq<Call>, pageCap: nat)
    requires |logs| < |stacks|
    ensures ReceivedAll(stacks, logs + [calls]) == ReceivedAll(stacks, logs) + Received(stacks[|logs|], calls)
    ensures Flatten(logs + [calls]) == Flatten(logs) + calls
    ensures AllRead(stacks, logs + [calls], pageCap) <==>
              AllRead(stacks, logs, pageCap) && ReadWhole(pageCap)(stacks[|logs|], calls)
  {
    assert (logs + [calls])[..|logs|] == logs;
    PairwiseAdd(ReadWhole(pageCap), stacks, logs, calls);
  }

  // ---------------------------------------------------------------- what the issues say about all stacks

  /** What all stacks offered, in order. */
  function OfferedAll(stacks: seq<string>, logs: seq<seq<Call>>): seq<Offer>
    requires |logs| <= |stacks|
  {
    if logs == [] then []
    else
      var last := |logs| - 1;
      OfferedAll(stacks, logs[..last]) + Offers(stacks[last], ItemsOf(logs[last]))
  }

  /** The calls of one of the stacks give rise to the code; if the list is full, the last stack filled it. */
  ghost predicate SomeBreaks(x: Issue, logs: seq<seq<Call>>, pageCap: nat, full: bool)
  {
    exists s :: 0 <= s < |logs| && Breaks(x, logs[s], pageCap, full && s == |logs| - 1)
  }

  /** The codes told by the chains of some stacks that did not fill the list. */
  ghost function ToldBy(logs: seq<seq<Call>>, pageCap: nat): (told: set<Issue>)
    ensures forall x :: ChainCode(x) ==> (x in told <==> SomeBreaks(x, logs, pageCap, false))
  {
    set x | x in {StackUnavailable, InvalidResponse, InvalidToken, RepeatedToken, PageLimit}
            && SomeBreaks(x, logs, pageCap, false)
  }

  lemma SomeBreaksAdd(x: Issue, logs: seq<seq<Call>>, calls: seq<Call>, pageCap: nat, full: bool)
    ensures SomeBreaks(x, logs + [calls], pageCap, full) <==>
              SomeBreaks(x, logs, pageCap, false) || Breaks(x, calls, pageCap, full)
  {
    var more := logs + [calls];
    assert more[|logs|] == calls && forall s :: 0 <= s < |logs| ==> more[s] == logs[s];
    if SomeBreaks(x, logs, pageCap, false) {
      var s :| 0 <= s < |logs| && Breaks(x, logs[s], pageCap, false);
      assert Breaks(x, more[s], pageCap, full && s == |more| - 1);
    }
    if Breaks(x, calls, pageCap, full) { assert Breaks(x, more[|logs|], pageCap, full && |logs| == |more| - 1); }
    if SomeBreaks(x, more, pageCap, full) {
      var s :| 0 <= s < |more| && Breaks(x, more[s], pageCap, full && s == |more| - 1);
      if s < |logs| { assert Breaks(x, logs[s], pageCap, false); }
    }
  }

  lemma OfferedAdd(stacks: seq<string>, logs: seq<seq<Call>>, calls: seq<Call>)
    requires |logs| < |stacks|
    ensures OfferedAll(stacks, logs + [calls]) == OfferedAll(stacks, logs) + Offers(stacks[|logs|], ItemsOf(calls))
  {
    assert (logs + [calls])[..|logs|] == logs;
  }

  /** The codes between two stacks. */
  ghost predicate UnderwayNoted(stacks: seq<string>, logs: seq<seq<Call>>, p: Progress, pageCap: nat)
    requires |logs| <= |stacks|
  {
    Noted(OfferedAll(stacks, logs), p.issues, p.seen) && CodesTold(p.issues, ToldBy(logs, pageCap))
  }

  /** Every code but that of the client, from the calls made and the keys of what is kept. */
  ghost predicate IssuesExplained(stacks: seq<string>, logs: seq<seq<Call>>, issues: seq<Issue>,
                                  kept: set<(string, string)>, full: bool, pageCap: nat)
    requires |logs| <= |stacks|
  {
    && OnceEach(issues) && ClientUnavailable !in issues
    && NotedReached(OfferedAll(stacks, logs), issues, kept)
    && (ResourceLimit in issues <==> full)
    && forall x :: ChainCode(x) ==> (x in issues <==> SomeBreaks(x, logs, pageCap, full))
  }

  lemma AllNoted(stacks: seq<string>, logs: seq<seq<Call>>, p: Progress, pageCap: nat, cap: nat)
    requires |logs| <= |stacks| && UnderwayNoted(stacks, logs, p, pageCap) && p.Consistent() && |p.resources| < cap
    ensures IssuesExplained(stacks, logs, p.issues, p.seen, false, pageCap)
  {
    var offers := OfferedAll(stacks, logs);
    assert offers + [] == offers;
    RestUnread(offers, [], p.issues, p.issues, p.seen);
  }

  lemma StackBeginsNoted(stacks: seq<string>, logs: seq<seq<Call>>, stack: string, p: Progress, pageCap: nat)
    requires |logs| <= |stacks| && UnderwayNoted(stacks, logs, p, pageCap)
    ensures GoingNoted(OfferedAll(stacks, logs), stack, [], p, ToldBy(logs, pageCap))
  {
    var offers := OfferedAll(stacks, logs);
    assert offers + Offers(stack, ItemsOf([])) == offers;
  }

  /** The codes after one more stack. */
  lemma StackAddsNoted(stacks: seq<string>, logs: seq<seq<Call>>, calls: seq<Call>, q: Progress, pageCap: nat, cap: nat)
    requires |logs| < |stacks| && q.Consistent()
    requires StackNoted(OfferedAll(stacks, logs), stacks[|logs|], calls, q, ToldBy(logs, pageCap), pageCap, cap)
    ensures |q.resources| < cap ==> UnderwayNoted(stacks, logs + [calls], q, pageCap)
    ensures |q.resources| >= cap ==> IssuesExplained(stacks, logs + [calls], q.issues, q.seen, true, pageCap)
  {
    OfferedAdd(stacks, logs, calls);
    forall x { SomeBreaksAdd(x, logs, calls, pageCap, |q.resources| >= cap); }
  }

  // ---------------------------------------------------------------- the end of the inventory

  /** What holds of the lists and the flag at the end. */
  ghost predicate Done(stacks: seq<string>, logs: seq<seq<Call>>, p: Progress, pageCap: nat, cap: nat)
    requires |logs| <= |stacks|
  {
    && p.Consistent() && |p.resources| <= cap
    && Distinct(p.resources) && Subsequence(p.resources, ReceivedAll(stacks, logs))
    && (p.complete <==> WholeInventory(stacks, logs, pageCap, cap))
    && (p.complete ==> p.resources == ReceivedAll(stacks, logs))
  }

  /** The list is full: whatever was received is not a whole inventory. */
  lemma DoneEarly(f: RawItem -> Option<Resource>, stacks: seq<string>, logs: seq<seq<Call>>, calls: seq<Call>,
                  p: Progress, before: bool, pageCap: nat, cap: nat)
    requires |logs| < |stacks| && f == Sanitizer(stacks[|logs|])
    requires StackRead(f, ReceivedAll(stacks, logs), stacks[|logs|], calls, p, before, pageCap, cap)
    requires |p.resources| >= cap
    ensures Done(stacks, logs + [calls], p, pageCap, cap)
  {
    LogsGrow(stacks, logs, calls, pageCap);
    if WholeInventory(stacks, logs + [calls], pageCap, cap) {
      assert Roomy(f, ReceivedAll(stacks, logs), ItemsOf(calls), cap);
    }
  }

  lemma FlattenAdd(logs: seq<seq<Call>>, calls: seq<Call>)
    ensures Flatten(logs + [calls]) == Flatten(logs) + calls
  {
    assert (logs + [calls])[..|logs|] == logs;
  }

  lemma CallsAdd(start: seq<Call>, logs: seq<seq<Call>>, calls: seq<Call>)
    ensures (start + Flatten(logs)) + calls == start + Flatten(logs + [calls])
  {
    FlattenAdd(logs, calls);
  }

  lemma BoundGrows(pageCap: nat, i: nat, n: nat)
    requires i < n
    ensures pageCap * i + pageCap == pageCap * (i + 1) <= pageCap * n
    decreases n - i
  {
    if i + 1 < n { BoundGrows(pageCap, i + 1, n); }
  }

  /** The requests counted so far, and none of the chains cut short. */
  ghost predicate Counted(stacks: seq<string>, logs: seq<seq<Call>>, sdkRequests: nat, pageCap: nat)
    requires |logs| <= |stacks|
  {
    Pairwise(ReadOut(pageCap), stacks, logs) && sdkRequests == |Flatten(logs)| <= pageCap * |logs|
  }

  /** The requests counted at the end, with the chains cut short only if the list is full. */
  ghost predicate CountedAll(stacks: seq<string>, logs: seq<seq<Call>>, sdkRequests: nat, full: bool, pageCap: nat)
  {
    && |logs| <= |stacks| && sdkRequests == |Flatten(logs)| <= pageCap * |stacks| && Pairwise(Follows(), stacks, logs)
    && (!full ==> NoneCutShort(stacks, logs, pageCap))
  }

  lemma CountStack(stacks: seq<string>, logs: seq<seq<Call>>, calls: seq<Call>, sdkRequests: nat, full: bool,
                   pageCap: nat)
    requires |logs| < |stacks| && Counted(stacks, logs, sdkRequests, pageCap) && |calls| <= pageCap
    requires Linked(stacks[|logs|], calls) && (!full ==> ReadOut(pageCap)(stacks[|logs|], calls))
    ensures !full ==> Counted(stacks, logs + [calls], sdkRequests + |calls|, pageCap)
    ensures full ==> CountedAll(stacks, logs + [calls], sdkRequests + |calls|, true, pageCap)
  {
    FlattenAdd(logs, calls);
    BoundGrows(pageCap, |logs|, |stacks|);
    PairwiseAdd(ReadOut(pageCap), stacks, logs, calls);
    OutFollows(stacks, logs, pageCap);
    PairwiseAdd(Follows(), stacks, logs, calls);
  }

  lemma OutFollows(stacks: seq<string>, logs: seq<seq<Call>>, pageCap: nat)
    requires |logs| <= |stacks| && Pairwise(ReadOut(pageCap), stacks, logs)
    ensures Pairwise(Follows(), stacks, logs)
  {
    forall i | 0 <= i < |logs| ensures Follows()(stacks[i], logs[i]) {
      assert ReadOut(pageCap)(stacks[i], logs[i]);
    }
  }

  /** The state between two stacks. */
  ghost predicate Underway(stacks: seq<string>, logs: seq<seq<Call>>, p: Progress, sdkRequests: nat,
                           pageCap: nat, cap: nat)
  {
    && |logs| <= |stacks| && Counted(stacks, logs, sdkRequests, pageCap)
    && Gathered(ReceivedAll(stacks, logs), p, AllRead(stacks, logs, pageCap), cap)
  }

  /** The state at the end. */
  ghost predicate Finished(stacks: seq<string>, logs: seq<seq<Call>>, p: Progress, sdkRequests: nat,
                           pageCap: nat, cap: nat)
  {
    && CountedAll(stacks, logs, sdkRequests, |p.resources| >= cap, pageCap)
    && Done(stacks, logs, p, pageCap, cap)
  }

  lemma Setout(stacks: seq<string>, pageCap: nat, cap: nat)
    requires cap > 0
    ensures Underway(stacks, [], Progress([], {}, [], true), 0, pageCap, cap)
  {
  }

  /** After the last stack, with room left. */
  lemma AllDone(stacks: seq<string>, logs: seq<seq<Call>>, p: Progress, sdkRequests: nat, pageCap: nat, cap: nat)
    requires |logs| == |stacks| && Underway(stacks, logs, p, sdkRequests, pageCap, cap)
    ensures Finished(stacks, logs, p, sdkRequests, pageCap, cap)
  {
    OutFollows(stacks, logs, pageCap);
  }

  /** A stack read to its end, or until the list was full. */
  lemma StackAdds(stacks: seq<string>, logs: seq<seq<Call>>, calls: seq<Call>, p: Progress, sofar: nat, q: Progress,
                  pageCap: nat, cap: nat)
    requires |logs| < |stacks| && Underway(stacks, logs, p, sofar, pageCap, cap)
    requires StackRead(Sanitizer(stacks[|logs|]), ReceivedAll(stacks, logs), stacks[|logs|], calls, q,
                       AllRead(stacks, logs, pageCap), pageCap, cap)
    ensures |q.resources| < cap ==> Underway(stacks, logs + [calls], q, sofar + |calls|, pageCap, cap)
    ensures |q.resources| >= cap ==> Finished(stacks, logs + [calls], q, sofar + |calls|, pageCap, cap)
  {
    var stack, received, before := stacks[|logs|], ReceivedAll(stacks, logs), AllRead(stacks, logs, pageCap);
    CountStack(stacks, logs, calls, sofar, |q.resources| >= cap, pageCap);
    if |q.resources| < cap {
      LogsGrow(stacks, logs, calls, pageCap);
      StackDone(Sanitizer(stack), received, stack, calls, q, before, pageCap, cap);
    } else {
      DoneEarly(Sanitizer(stack), stacks, logs, calls, q, before, pageCap, cap);
    }
  }

  /** One stack; `start` are the calls made before the inventory. */
  method NextStack(client: CloudFormationClient, stacks: seq<string>, stack: string, p: Progress, sofar: nat,
                   pageCap: nat, cap: nat, ghost logs: seq<seq<Call>>, ghost start: seq<Call>)
    returns (q: Progress, sdkRequests: nat, ghost calls: seq<Call>)
    requires |logs| < |stacks| && stack == stacks[|logs|] && Underway(stacks, logs, p, sofar, pageCap, cap)
    requires client.calls == start + Flatten(logs) && UnderwayNoted(stacks, logs, p, pageCap)
    modifies client
    ensures client.calls == start + Flatten(logs + [calls])
    ensures |q.resources| < cap ==> UnderwayNoted(stacks, logs + [calls], q, pageCap)
    ensures |q.resources| >= cap ==> IssuesExplained(stacks, logs + [calls], q.issues, q.seen, true, pageCap)
    ensures |q.resources| < cap ==> Underway(stacks, logs + [calls], q, sdkRequests, pageCap, cap)
    ensures |q.resources| >= cap ==> Finished(stacks, logs + [calls], q, sdkRequests, pageCap, cap)
  {
    SanitizerSanitizes(stack);
    StackBegins(Sanitizer(stack), ReceivedAll(stacks, logs), stack, p, AllRead(stacks, logs, pageCap), cap);
    StackBeginsNoted(stacks, logs, stack, p, pageCap);
    q, sdkRequests, calls := ReadStack(Sanitizer(stack), client, stack, p, pageCap, cap, ReceivedAll(stacks, logs),
                                       AllRead(stacks, logs, pageCap), OfferedAll(stacks, logs),
                                       ToldBy(logs, pageCap));
    StackAddsNoted(stacks, logs, calls, q, pageCap, cap);
    sdkRequests := sofar + sdkRequests;
    CallsAdd(start, logs, calls);
    StackAdds(stacks, logs, calls, p, sofar, q, pageCap, cap);
  }

  /** The loop over the stacks. */
  method ReadStacks(client: CloudFormationClient, stacks: seq<string>, pageCap: nat, cap: nat)
    returns (p: Progress, sdkRequests: nat, ghost logs: seq<seq<Call>>)
    requires cap > 0
    modifies client
    ensures client.calls == old(client.calls) + Flatten(logs)
    ensures Finished(stacks, logs, p, sdkRequests, pageCap, cap)
    ensures IssuesExplained(stacks, logs, p.issues, p.seen, |p.resources| >= cap, pageCap)
  {
    p, sdkRequests, logs := Progress([], {}, [], true), 0, [];
    ghost var start := client.calls;
    Setout(stacks, pageCap, cap);
    assert start + Flatten(logs) == start;
    var i := 0;
    while i < |stacks|
      invariant i == |logs| <= |stacks|
      invariant client.calls == start + Flatten(logs)
      invariant Underway(stacks, logs, p, sdkRequests, pageCap, cap) && UnderwayNoted(stacks, logs, p, pageCap)
    {
      ghost var calls;
      p, sdkRequests, calls := NextStack(client, stacks, stacks[i], p, sdkRequests, pageCap, cap, logs, start);
      logs := logs + [calls];
      i := i + 1;
      if |p.resources| >= cap { return; }
    }
    AllDone(stacks, logs, p, sdkRequests, pageCap, cap);
    AllNoted(stacks, logs, p, pageCap, cap);
  }

  // ---------------------------------------------------------------- the operation

  const PROJECT_STACKS: seq<string> :=
    ["aws-remote-mcp-dev", "aws-remote-mcp-prod", "aws-remote-mcp-auth-dev", "aws-remote-mcp-auth-prod"]

  datatype ProjectInventory = ProjectInventory(resources: seq<Resource>, complete: bool)

  function ProjectInventoryResult(resources: seq<Resource>, sdkRequests: nat, complete: bool, issues: seq<Issue>)
    : (r: AdapterResult<ProjectInventory, Issue>)
    ensures (complete <==> issues == []) ==> Constructible(r) && (r.status == Ok <==> complete)
    ensures !complete ==> (r.status == Partial <==> resources != []) && (r.status == Error <==> resources == [])
  {
    AdapterResult(ProjectInventory(resources, complete), sdkRequests, |resources|,
                  if complete && issues == [] then Status.Ok else if resources != [] then Partial else Error, issues)
  }

  datatype Listing = InvalidArguments | Listed(result: AdapterResult<ProjectInventory, Issue>)

  function Keys(rs: seq<Resource>): set<(string, string)>
  {
    set r | r in rs :: Key(r)
  }

  lemma SeenIsKeys(seen: set<(string, string)>, rs: seq<Resource>)
    requires Seen(seen, rs)
    ensures seen == Keys(rs)
  {
    forall k ensures k in seen <==> k in Keys(rs) {
      if k in seen {
        var i :| 0 <= i < |rs| && Key(rs[i]) == k;
        assert rs[i] in rs;
      }
    }
  }

  lemma {:induction false} LoggedCall(logs: seq<seq<Call>>, c: Call)
    ensures c in Flatten(logs) <==> exists s :: 0 <= s < |logs| && c in logs[s]
  {
    if logs != [] {
      LoggedCall(logs[..|logs| - 1], c);
      if s: int :| 0 <= s < |logs| && c in logs[s] { assert s < |logs| - 1 ==> logs[..|logs| - 1][s] == logs[s]; }
    }
  }

  /** The codes for a stack that cannot be read and for a reply of no use, from the log of all calls. */
  lemma UnreadableStacks(logs: seq<seq<Call>>, pageCap: nat, full: bool)
    ensures SomeBreaks(StackUnavailable, logs, pageCap, full) <==>
              exists c :: c in Flatten(logs) && c.reply.Raised?
    ensures SomeBreaks(InvalidResponse, logs, pageCap, full) <==>
              exists c :: c in Flatten(logs) && (c.reply.ReplyNotMapping? || c.reply.NoResourceList?)
  {
    forall c { LoggedCall(logs, c); }
    forall s, i | 0 <= s < |logs| && 0 <= i < |logs[s]| ensures logs[s][i] in Flatten(logs) {
      assert logs[s][i] in logs[s];
    }
    forall c | c in Flatten(logs) ensures exists s, i :: 0 <= s < |logs| && 0 <= i < |logs[s]| && logs[s][i] == c {
      var s :| 0 <= s < |logs| && c in logs[s];
      var i :| 0 <= i < |logs[s]| && logs[s][i] == c;
    }
    if c :| c in Flatten(logs) && c.reply.Raised? {
      var s, i :| 0 <= s < |logs| && 0 <= i < |logs[s]| && logs[s][i] == c;
      assert Breaks(StackUnavailable, logs[s], pageCap, full && s == |logs| - 1);
    }
    if c :| c in Flatten(logs) && (c.reply.ReplyNotMapping? || c.reply.NoResourceList?) {
      var s, i :| 0 <= s < |logs| && 0 <= i < |logs[s]| && logs[s][i] == c;
      assert Breaks(InvalidResponse, logs[s], pageCap, full && s == |logs| - 1);
    }
  }

  /** Every issue is borne out by the calls made, and everything wrong with them is reported. */
  ghost predicate ExactIssues(stacks: seq<string>, logs: seq<seq<Call>>, r: AdapterResult<ProjectInventory, Issue>,
                              pageCap: nat, cap: nat)
  {
    && |logs| <= |stacks|
    && IssuesExplained(stacks, logs, r.issues, Keys(r.data.resources), |r.data.resources| >= cap, pageCap)
    && (StackUnavailable in r.issues <==> exists c :: c in Flatten(logs) && c.reply.Raised?)
    && (InvalidResponse in r.issues <==>
          exists c :: c in Flatten(logs) && (c.reply.ReplyNotMapping? || c.reply.NoResourceList?))
  }

  /** The arguments are given by their names; the client factory may fail. */
  method ListProjectResources(client: CloudFormationClient, clientAvailable: bool, arguments: set<string>,
                              stacks: seq<string>, pageCap: nat, cap: nat)
    returns (listing: Listing, ghost logs: seq<seq<Call>>)
    requires cap > 0
    modifies client
    ensures listing.InvalidArguments? <==> arguments != {}
    ensures |logs| <= |stacks| && client.calls == old(client.calls) + Flatten(logs)
    ensures Pairwise(Follows(), stacks, logs)
    ensures listing.Listed? ==>
              var r := listing.result;
              && Constructible(r) && (r.status == Ok <==> r.data.complete)
              && (r.status == Partial <==> !r.data.complete && r.data.resources != [])
              && r.sdkRequests == |Flatten(logs)| <= pageCap * |stacks|
              && r.resources == |r.data.resources| <= cap
              && (r.data.complete <==> clientAvailable && WholeInventory(stacks, logs, pageCap, cap))
              && (r.data.complete ==> r.data.resources == ReceivedAll(stacks, logs))
              && Distinct(r.data.resources) && Subsequence(r.data.resources, ReceivedAll(stacks, logs))
              && (clientAvailable && |r.data.resources| < cap ==> NoneCutShort(stacks, logs, pageCap))
    ensures listing.Listed? ==>
              var r := listing.result;
              if clientAvailable then ExactIssues(stacks, logs, r, pageCap, cap)
              else r.issues == [ClientUnavailable] && r.data.resources == []
    ensures listing.InvalidArguments? || !clientAvailable ==> logs == []
  {
    logs := [];
    if arguments != {} { return InvalidArguments, []; }
    if !clientAvailable {
      var result := ProjectInventoryResult([], 0, false, AddIssue([], ClientUnavailable));
      return Listed(result), [];
    }
    var p: Progress, sdkRequests: nat;
    p, sdkRequests, logs := ReadStacks(client, stacks, pageCap, cap);
    SeenIsKeys(p.seen, p.resources);
    UnreadableStacks(logs, pageCap, |p.resources| >= cap);
    listing := Listed(ProjectInventoryResult(p.resources, sdkRequests, p.complete, p.issues));
  }

  lemma CallsOfStacks(stacks: seq<string>, logs: seq<seq<Call>>, c: Call)
    requires |logs| <= |stacks| && Pairwise(Follows(), stacks, logs) && c in Flatten(logs)
    ensures c.stack in stacks
  {
    LoggedCall(logs, c);
    var s :| 0 <= s < |logs| && c in logs[s];
    assert Follows()(stacks[s], logs[s]);
  }

  predicate IsProjectStack(stack: string)
  {
    || stack == "aws-remote-mcp-dev" || stack == "aws-remote-mcp-prod"
    || stack == "aws-remote-mcp-auth-dev" || stack == "aws-remote-mcp-auth-prod"
  }

  predicate OnlyProjectStacks(calls: seq<Call>)
  {
    forall c :: c in calls ==> IsProjectStack(c.stack)
  }

  lemma ProjectStack(stack: string)
    ensures stack in PROJECT_STACKS <==> IsProjectStack(stack)
  {
    var all := PROJECT_STACKS;
    assert all[0] in all && all[1] in all && all[2] in all && all[3] in all;
  }

  lemma ProjectCalls(logs: seq<seq<Call>>)
    requires |logs| <= |PROJECT_STACKS| && Pairwise(Follows(), PROJECT_STACKS, logs)
    ensures OnlyProjectStacks(Flatten(logs))
  {
    forall c | c in Flatten(logs) ensures IsProjectStack(c.stack) {
      CallsOfStacks(PROJECT_STACKS, logs, c);
      ProjectStack(c.stack);
    }
  }

  /** The operation with its own stacks and limits: at most 80 requests, and at most 100 resources. */
  method ListProjectInventory(client: CloudFormationClient, clientAvailable: bool, arguments: set<string>)
    returns (listing: Listing, ghost logs: seq<seq<Call>>)
    modifies client
    ensures listing.InvalidArguments? <==> arguments != {}
    ensures |logs| <= |PROJECT_STACKS| && client.calls == old(client.calls) + Flatten(logs)
    ensures OnlyProjectStacks(Flatten(logs))
    ensures listing.Listed? ==>
              var r := listing.result;
              && Constructible(r) && r.sdkRequests == |Flatten(logs)| <= 80 && r.resources <= 100
              && (r.status == Ok <==>
                    clientAvailable && WholeInventory(PROJECT_STACKS, logs, 20, 100))
              && (r.status == Ok ==> r.data.resources == ReceivedAll(PROJECT_STACKS, logs))
              && (r.status == Partial ==> r.data.resources != []) && (r.status == Error ==> r.data.resources == [])
    ensures listing.Listed? ==>
              var r := listing.result;
              if clientAvailable
              then ExactIssues(PROJECT_STACKS, logs, r, 20, 100)
              else r.issues == [ClientUnavailable] && r.data.resources == []
  {
    listing, logs := ListProjectResources(client, clientAvailable, arguments, PROJECT_STACKS,
                                          MAX_PROJECT_INVENTORY_PAGES, MAX_PROJECT_INVENTORY_RESOURCES);
    ProjectCalls(logs);
  }

  // ---------------------------------------------------------------- what the resources are

  lemma {:induction false} SubsequenceElement<T>(a: seq<T>, b: seq<T>, i: nat) returns (k: nat)
    requires Subsequence(a, b) && i < |a|
    ensures k < |b| && b[k] == a[i]
  {
    if a[|a| - 1] == b[|b| - 1] && Subsequence(a[..|a| - 1], b[..|b| - 1]) {
      if i == |a| - 1 { k := |b| - 1; } else { k := SubsequenceElement(a[..|a| - 1], b[..|b| - 1], i); }
    } else {
      k := SubsequenceElement(a, b[..|b| - 1], i);
    }
  }

  lemma {:induction false} ImageSource<A, B>(f: A -> Option<B>, xs: seq<A>, i: nat) returns (k: nat)
    requires i < |Images(f, xs)|
    ensures k < |xs| && f(xs[k]) == Some(Images(f, xs)[i])
  {
    var last := |xs| - 1;
    if i < |Images(f, xs[..last])| { k := ImageSource(f, xs[..last], i); } else { k := last; }
  }

  /** Each received resource is the sanitised form of an item of one of the stacks, and carries that stack's name. */
  lemma {:induction false} ReceivedFrom(stacks: seq<string>, logs: seq<seq<Call>>, i: nat) returns (s: nat, k: nat)
    requires |logs| <= |stacks| && i < |ReceivedAll(stacks, logs)|
    ensures s < |logs| && k < |ItemsOf(logs[s])|
    ensures Sanitize(ItemsOf(logs[s])[k], stacks[s]) == Some(ReceivedAll(stacks, logs)[i])
    ensures ReceivedAll(stacks, logs)[i].stack == stacks[s]
  {
    var last := |logs| - 1;
    var earlier := ReceivedAll(stacks, logs[..last]);
    if i < |earlier| {
      s, k := ReceivedFrom(stacks, logs[..last], i);
    } else {
      s := last;
      k := ImageSource(Sanitizer(stacks[last]), ItemsOf(logs[last]), i - |earlier|);
    }
  }

  /** `r` is the sanitised form of item `k` of stack `s`, under that stack's name. */
  predicate ComesFrom(stacks: seq<string>, logs: seq<seq<Call>>, r: Resource, s: nat, k: nat)
  {
    s < |logs| && s < |stacks| && k < |ItemsOf(logs[s])|
    && Sanitize(ItemsOf(logs[s])[k], stacks[s]) == Some(r) && r.stack == stacks[s]
  }

  /** Even an incomplete inventory holds nothing but sanitised items that were received, under the right stack. */
  lemma EveryResourceWasReceived(stacks: seq<string>, logs: seq<seq<Call>>, resources: seq<Resource>, i: nat)
    returns (s: nat, k: nat)
    requires |logs| <= |stacks| && Subsequence(resources, ReceivedAll(stacks, logs)) && i < |resources|
    ensures ComesFrom(stacks, logs, resources[i], s, k)
  {
    var j := SubsequenceElement(resources, ReceivedAll(stacks, logs), i);
    s, k := ReceivedFrom(stacks, logs, j);
  }
}

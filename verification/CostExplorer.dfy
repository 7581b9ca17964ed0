/** The bounded reader of one Cost Explorer reply. */
module CostExplorer {
  import opened Basics
  import opened Calendar
  import opened CostQuery
  import opened Adapter
  import opened Filtering

  const MAX_COST_PERIODS: nat := 31
  const MAX_COST_GROUPS: nat := 100
  const MAX_DIMENSION_VALUE_CHARS := 128
  const MAX_AMOUNT_CHARS := 64

  // ---------------------------------------------------------------- replies

  /** An amount field: its text if it is a string, whether the unit is USD, and the plain decimal
      notation `Decimal` gives for it, if finite. */
  datatype Metric = NoMetric | Metric(amount: Option<string>, usd: bool, plain: Option<string>)

  /** `key` is the one string key, if the key list has that shape. */
  datatype RawGroup = GroupNotMapping | RawGroup(key: Option<string>, metric: Metric)

  datatype RawTotal = TotalNotMapping | TotalEmpty | TotalOf(metric: Metric)

  /** `groups` is the list, empty if missing, or None if it is not a list. */
  datatype RawPeriod =
    | PeriodNotMapping
    | RawPeriod(start: Option<string>, end: Option<string>, total: RawTotal, groups: Option<seq<RawGroup>>)

  datatype Reply = Raised | ReplyNotMapping | NoPeriodList | Reply(periods: seq<RawPeriod>, nextPage: bool)

  // ---------------------------------------------------------------- sanitising

  datatype Group = Group(key: string, amount: string)

  datatype Period = Period(start: string, end: string, total: Option<string>, groups: seq<Group>)

  function SafeDate(s: Option<string>): Option<string>
  {
    if s.Some? && ParseIso(s.value).Some? then s else None
  }

  function SafeAmount(m: Metric): Option<string>
  {
    if m.NoMetric? || m.amount.None? || |m.amount.value| > MAX_AMOUNT_CHARS || !m.usd || m.plain.None? then None
    else if |m.plain.value| <= MAX_AMOUNT_CHARS then m.plain else None
  }

  /** A run of exactly twelve digits, as in an account id. */
  predicate HasAccountId(s: string)
  {
    exists i :: 0 <= i < |s| && AccountIdAt(s, i)
  }

  predicate AccountIdAt(s: string, i: nat)
  {
    i + 12 <= |s| && AllDigits(s[i..i + 12])
    && (i > 0 ==> !IsDigit(s[i - 1])) && (i + 12 < |s| ==> !IsDigit(s[i + 12]))
  }

  /** The number of digits a text begins with. */
  function LeadingDigits(s: string): (n: nat)
    ensures n <= |s| && AllDigits(s[..n]) && (n < |s| ==> !IsDigit(s[n]))
  {
    if s == "" || !IsDigit(s[0]) then 0 else 1 + LeadingDigits(s[1..])
  }

  /** An account id is one whole run of digits, twelve of them. */
  lemma AccountIdIsRun(s: string, i: nat)
    requires i < |s|
    ensures AccountIdAt(s, i) <==> (i == 0 || !IsDigit(s[i - 1])) && LeadingDigits(s[i..]) == 12
  {
    var n := LeadingDigits(s[i..]);
    assert forall k :: 0 <= k < n ==> s[i + k] == s[i..][..n][k];
    assert i + n < |s| ==> s[i..][n] == s[i + n];
    if AccountIdAt(s, i) {
      var run := s[i..i + 12];
      assert forall k :: 0 <= k < 12 ==> run[k] == s[i + k];
    } else if n == 12 {
      assert s[i..i + 12] == s[i..][..n];
    }
  }

  predicate SafeKeyChar(c: char)
  {
    Alphanumeric(c) || c == ' ' || c == '.' || c == ':' || c == '/' || c == '_' || c == '-'
  }

  function SafeKey(s: string): (k: string)
    ensures |k| == if |s| > 128 then 128 else |s|
    ensures forall i :: 0 <= i < |k| ==> k[i] == if SafeKeyChar(s[i]) then s[i] else '_'
  {
    var t := seq(|s|, i requires 0 <= i < |s| => if SafeKeyChar(s[i]) then s[i] else '_');
    if |t| > MAX_DIMENSION_VALUE_CHARS then t[..MAX_DIMENSION_VALUE_CHARS] else t
  }

  function SaneGroup(g: RawGroup): Option<Group>
  {
    if g.GroupNotMapping? || g.key.None? || HasAccountId(g.key.value) || SafeKey(g.key.value) == "" then None
    else match SafeAmount(g.metric) case None => None case Some(amount) => Some(Group(SafeKey(g.key.value), amount))
  }

  /** A sanitised group has a short key of safe characters, each kept from the original or replaced, and the short
      plain notation of an amount in USD; the original key held no account id. */
  lemma SaneGroupIsSafe(g: RawGroup)
    ensures SaneGroup(g).Some? ==>
              var s := SaneGroup(g).value;
              && g.RawGroup? && g.key.Some? && !HasAccountId(g.key.value)
              && 1 <= |s.key| <= 128 && |s.key| <= |g.key.value|
              && g.metric.Metric? && g.metric.usd && g.metric.plain == Some(s.amount) && |s.amount| <= 64
              && (forall i :: 0 <= i < |s.key| ==>
                    SafeKeyChar(s.key[i]) && (s.key[i] == g.key.value[i] || s.key[i] == '_'))
  {
  }

  /** A metric with a short amount in USD whose plain notation is short, too. */
  predicate UsdAmount(m: Metric)
  {
    m.Metric? && m.usd && m.amount.Some? && |m.amount.value| <= 64 && m.plain.Some? && |m.plain.value| <= 64
  }

  /** A mapping with one key, not empty and without an account id, and an amount in USD. */
  predicate GoodGroup(g: RawGroup)
  {
    g.RawGroup? && g.key.Some? && g.key.value != "" && !HasAccountId(g.key.value) && UsdAmount(g.metric)
  }

  /** Which groups sanitise, and what is left of them: the first 128 characters of the key, each kept or replaced, and
      the plain notation of the amount. */
  lemma SaneGroupExactly(g: RawGroup)
    ensures SaneGroup(g).Some? <==> GoodGroup(g)
    ensures SaneGroup(g).Some? ==>
              var s, key := SaneGroup(g).value, g.key.value;
              && |s.key| == (if |key| > 128 then 128 else |key|) && Some(s.amount) == g.metric.plain
              && forall i :: 0 <= i < |s.key| ==> s.key[i] == if SafeKeyChar(key[i]) then key[i] else '_'
  {
  }

  function SaneGroups(gs: seq<RawGroup>): seq<Group>
  {
    Images(SaneGroup, gs)
  }

  function TotalText(t: RawTotal): Option<string>
  {
    if t.TotalOf? then SafeAmount(t.metric) else None
  }

  function GroupList(p: RawPeriod): seq<RawGroup>
  {
    if p.RawPeriod? && p.groups.Some? then p.groups.value else []
  }

  /** The sanitised image of a period with all its groups. */
  function SanePeriod(p: RawPeriod): Option<Period>
  {
    if p.PeriodNotMapping? || SafeDate(p.start).None? || SafeDate(p.end).None? then None
    else Some(Period(p.start.value, p.end.value, TotalText(p.total), SaneGroups(GroupList(p))))
  }

  /** A text that parses as a date. */
  predicate IsDate(s: Option<string>)
  {
    s.Some? && ParseIso(s.value).Some?
  }

  /** A mapping with two dates. */
  predicate Dated(p: RawPeriod)
  {
    p.RawPeriod? && IsDate(p.start) && IsDate(p.end)
  }

  /** The total, if it is an amount in USD. */
  function Total(p: RawPeriod): Option<string>
    requires p.RawPeriod?
  {
    if p.total.TotalOf? && UsdAmount(p.total.metric) then p.total.metric.plain else None
  }

  predicate TotalClean(p: RawPeriod)
    requires p.RawPeriod?
  {
    p.total.TotalEmpty? || (p.total.TotalOf? && UsdAmount(p.total.metric))
  }

  /** Nothing is wrong with the total, the list of groups, and the groups looked at. */
  predicate CleanWith(p: RawPeriod, gs: seq<RawGroup>)
    requires p.RawPeriod?
  {
    TotalClean(p) && p.groups.Some? && forall i :: 0 <= i < |gs| ==> GoodGroup(gs[i])
  }

  /** The period keeps the dates under their own names, and the total if it is an amount in USD. */
  predicate Keeps(r: Period, p: RawPeriod)
  {
    && p.RawPeriod? && Some(r.start) == p.start && Some(r.end) == p.end
    && r.total == Total(p)
  }

  lemma DateExactly(s: Option<string>)
    ensures SafeDate(s).Some? <==> IsDate(s)
    ensures SafeDate(s).Some? ==> SafeDate(s) == s
    ensures IsDate(s) <==> exists d :: ValidDate(d) && s == Some(IsoText(d))
  {
    if s.Some? && ParseIso(s.value).Some? { ParsePrint(s.value, ParseIso(s.value).value); }
    if d :| ValidDate(d) && s == Some(IsoText(d)) { ParsePrint(s.value, d); }
  }

  /** Which periods sanitise, and what is left of them. */
  lemma SanePeriodExactly(p: RawPeriod)
    ensures SanePeriod(p).Some? <==> Dated(p)
    ensures SanePeriod(p).Some? ==>
              var r := SanePeriod(p).value;
              Keeps(r, p) && r.groups == SaneGroups(if p.groups.Some? then p.groups.value else [])
  {
    if p.RawPeriod? {
      DateExactly(p.start);
      DateExactly(p.end);
    }
  }

  /** The in-order sanitised image of a reply, malformed parts left out. */
  function SanePeriods(ps: seq<RawPeriod>): seq<Period>
  {
    Images(SanePeriod, ps)
  }

  predicate TotalSane(t: RawTotal)
  {
    t.TotalEmpty? || (t.TotalOf? && SafeAmount(t.metric).Some?)
  }

  predicate PeriodSane(p: RawPeriod)
  {
    SanePeriod(p).Some? && TotalSane(p.total) && p.groups.Some? && AllHaveImages(SaneGroup, p.groups.value)
  }

  /** A period with nothing wrong in it. */
  predicate Clean(p: RawPeriod)
  {
    Dated(p) && p.groups.Some? && CleanWith(p, p.groups.value)
  }

  lemma PeriodSaneExactly(p: RawPeriod)
    ensures PeriodSane(p) <==> Clean(p)
  {
    SanePeriodExactly(p);
    if p.RawPeriod? && p.groups.Some? {
      forall i | 0 <= i < |p.groups.value| { SaneGroupExactly(p.groups.value[i]); }
    }
  }

  predicate AllSane(ps: seq<RawPeriod>)
  {
    All(PeriodSane, ps)
  }

  /** Nothing is left out of the image of a sane reply. */
  lemma SaneImageIsWhole(ps: seq<RawPeriod>)
    requires AllSane(ps)
    ensures |SanePeriods(ps)| == |ps|
    ensures forall i :: 0 <= i < |ps| ==>
              SanePeriods(ps)[i] == SanePeriod(ps[i]).value && |SanePeriods(ps)[i].groups| == |ps[i].groups.value|
  {
    ImagesWhole(SanePeriod, ps);
    forall i | 0 <= i < |ps| ensures |SanePeriod(ps[i]).value.groups| == |ps[i].groups.value| {
      assert PeriodSane(ps[i]);
      ImagesWhole(SaneGroup, ps[i].groups.value);
    }
  }

  function GroupTotal(ps: seq<Period>): nat
  {
    if ps == [] then 0 else GroupTotal(ps[..|ps| - 1]) + |ps[|ps| - 1].groups|
  }

  /** Periods of the full image, in order from the first, each with a prefix of its groups. */
  predicate Trimmed(out: seq<Period>, full: seq<Period>)
  {
    && |out| <= |full|
    && forall i :: 0 <= i < |out| ==> out[i] == full[i].(groups := out[i].groups) && out[i].groups <= full[i].groups
  }

  lemma GroupTotalSnoc(ps: seq<Period>, p: Period)
    ensures GroupTotal(ps + [p]) == GroupTotal(ps) + |p.groups|
  {
    assert (ps + [p])[..|ps|] == ps;
  }

  // ---------------------------------------------------------------- what fits within the limits

  /** A period as it is examined with room for `room` more groups. */
  function CutRaw(p: RawPeriod, room: nat): RawPeriod
  {
    if SanePeriod(p).None? || |GroupList(p)| <= room then p else p.(groups := Some(GroupList(p)[..room]))
  }

  function Kept(p: RawPeriod): nat
  {
    if SanePeriod(p).Some? then |SanePeriod(p).value.groups| else 0
  }

  lemma KeptFits(p: RawPeriod, room: nat)
    ensures Kept(CutRaw(p, room)) <= room && Kept(CutRaw(p, room)) <= |GroupList(p)|
  {
    ImagesShort(SaneGroup, GroupList(CutRaw(p, room)));
  }

  lemma KeptSnoc(ps: seq<RawPeriod>, p: RawPeriod)
    ensures SanePeriods(ps + [p])
         == if SanePeriod(p).Some? then SanePeriods(ps) + [SanePeriod(p).value] else SanePeriods(ps)
    ensures GroupTotal(SanePeriods(ps + [p])) == GroupTotal(SanePeriods(ps)) + Kept(p)
  {
    assert (ps + [p])[..|ps|] == ps;
    if SanePeriod(p).Some? { GroupTotalSnoc(SanePeriods(ps), SanePeriod(p).value); }
  }

  function Left(p: RawPeriod, room: nat): nat
  {
    KeptFits(p, room);
    room - Kept(CutRaw(p, room))
  }

  /** The part of a reply that is examined: period by period, until one with readable dates fills the room. */
  function Examined(raw: seq<RawPeriod>, room: nat): seq<RawPeriod>
  {
    if raw == [] then []
    else
      [CutRaw(raw[0], room)]
      + if SanePeriod(raw[0]).Some? && Left(raw[0], room) == 0 then [] else Examined(raw[1..], Left(raw[0], room))
  }

  function ExaminedPart(raw: seq<RawPeriod>, maxPeriods: nat, maxGroups: nat): seq<RawPeriod>
  {
    Examined(Capped(raw, maxPeriods), maxGroups)
  }

  /** The list of groups is full after `examined`, with fewer periods kept than the reply has. */
  predicate FilledUp(raw: seq<RawPeriod>, examined: seq<RawPeriod>, maxGroups: nat)
  {
    examined != [] && SanePeriod(examined[|examined| - 1]).Some?
    && GroupTotal(SanePeriods(examined)) >= maxGroups && |SanePeriods(examined)| < |raw|
  }

  /** The flag goes up although everything was examined: the last period fills the list, and one before was dropped. */
  predicate FalseAlarm(raw: seq<RawPeriod>, maxGroups: nat)
  {
    FilledUp(raw, raw, maxGroups)
  }

  /** A period, or the same with a prefix of its groups. */
  predicate CutOf(a: RawPeriod, b: RawPeriod)
  {
    a == b || (a.RawPeriod? && b.RawPeriod? && a.groups.Some? && b.groups.Some?
               && a == b.(groups := a.groups) && a.groups.value <= b.groups.value)
  }

  lemma {:induction false} ExaminedIsCut(raw: seq<RawPeriod>, room: nat)
    ensures var e := Examined(raw, room); |e| <= |raw| && forall k :: 0 <= k < |e| ==> CutOf(e[k], raw[k])
    decreases |raw|
  {
    if raw != [] {
      ExaminedIsCut(raw[1..], Left(raw[0], room));
      var e, rest := Examined(raw, room), Examined(raw[1..], Left(raw[0], room));
      forall k | 0 <= k < |e| ensures CutOf(e[k], raw[k]) {
        if k > 0 { assert e[k] == rest[k - 1] && raw[k] == raw[1..][k - 1]; }
      }
    }
  }

  lemma CutImage(a: RawPeriod, b: RawPeriod)
    requires CutOf(a, b)
    ensures SanePeriod(a).Some? <==> SanePeriod(b).Some?
    ensures SanePeriod(a).Some? ==>
              var p, q := SanePeriod(a).value, SanePeriod(b).value;
              p == q.(groups := p.groups) && p.groups <= q.groups
    ensures PeriodSane(b) ==> PeriodSane(a)
  {
    if a != b {
      var n := |a.groups.value|;
      assert a.groups.value == b.groups.value[..n];
      ImagesPrefix(SaneGroup, b.groups.value, n);
    }
  }

  lemma TrimExtends(out: seq<Period>, full: seq<Period>, p: Period, q: Period)
    requires Trimmed(out, full) && |out| == |full| && p == q.(groups := p.groups) && p.groups <= q.groups
    ensures Trimmed(out + [p], full + [q])
  {
  }

  lemma {:induction false} CutImages(cut: seq<RawPeriod>, raw: seq<RawPeriod>)
    requires |cut| == |raw| && forall k :: 0 <= k < |cut| ==> CutOf(cut[k], raw[k])
    ensures Trimmed(SanePeriods(cut), SanePeriods(raw)) && |SanePeriods(cut)| == |SanePeriods(raw)|
  {
    if cut != [] {
      var n := |cut| - 1;
      CutImages(cut[..n], raw[..n]);
      CutImage(cut[n], raw[n]);
      if SanePeriod(cut[n]).Some? {
        TrimExtends(SanePeriods(cut[..n]), SanePeriods(raw[..n]), SanePeriod(cut[n]).value, SanePeriod(raw[n]).value);
      }
    }
  }

  lemma TrimmedOfPrefix(out: seq<Period>, part: seq<Period>, full: seq<Period>)
    requires Trimmed(out, part) && part <= full
    ensures Trimmed(out, full)
  {
    assert forall i :: 0 <= i < |part| ==> part[i] == full[i];
  }

  /** What is examined of a reply gives the beginning of its image, with beginnings of its group lists, and is sane if
      the reply is. */
  lemma ExaminedTrims(raw: seq<RawPeriod>, maxPeriods: nat, maxGroups: nat)
    ensures var e := ExaminedPart(raw, maxPeriods, maxGroups);
            |e| <= maxPeriods && Trimmed(SanePeriods(e), SanePeriods(raw)) && (AllSane(raw) ==> AllSane(e))
  {
    var first := Capped(raw, maxPeriods);
    var e := Examined(first, maxGroups);
    ExaminedIsCut(first, maxGroups);
    var same := raw[..|e|];
    assert forall k :: 0 <= k < |e| ==> same[k] == first[k];
    CutImages(e, same);
    ImagesPrefix(SanePeriod, raw, |e|);
    TrimmedOfPrefix(SanePeriods(e), SanePeriods(same), SanePeriods(raw));
    if AllSane(raw) {
      forall k | 0 <= k < |e| ensures PeriodSane(e[k]) {
        assert PeriodSane(raw[k]);
        CutImage(e[k], raw[k]);
      }
    }
  }

  /** The number of groups in a reply, sane or not. */
  function RawGroupTotal(ps: seq<RawPeriod>): nat
  {
    if ps == [] then 0 else |GroupList(ps[0])| + RawGroupTotal(ps[1..])
  }

  lemma {:induction false} RawGroupSnoc(ps: seq<RawPeriod>, p: RawPeriod)
    ensures RawGroupTotal(ps + [p]) == RawGroupTotal(ps) + |GroupList(p)|
    decreases |ps|
  {
    if ps == [] {
      assert [p][1..] == [];
    } else {
      RawGroupSnoc(ps[1..], p);
      assert (ps + [p])[1..] == ps[1..] + [p];
    }
  }

  lemma KeptAtMost(p: RawPeriod)
    ensures Kept(p) <= |GroupList(p)|
  {
    ImagesShort(SaneGroup, GroupList(p));
  }

  lemma {:induction false} KeptOfRaw(ps: seq<RawPeriod>)
    ensures GroupTotal(SanePeriods(ps)) <= RawGroupTotal(ps)
  {
    if ps != [] {
      var n := |ps| - 1;
      KeptOfRaw(ps[..n]);
      RawGroupSnoc(ps[..n], ps[n]);
      KeptSnoc(ps[..n], ps[n]);
      KeptAtMost(ps[n]);
      assert ps == ps[..n] + [ps[n]];
    }
  }

  lemma {:induction false} SmallIsWhole(raw: seq<RawPeriod>, room: nat)
    requires RawGroupTotal(raw) < room
    ensures Examined(raw, room) == raw
    decreases |raw|
  {
    if raw != [] {
      KeptFits(raw[0], room);
      SmallIsWhole(raw[1..], Left(raw[0], room));
    }
  }

  /** The reply is small enough not to be cut. */
  predicate Fits(ps: seq<RawPeriod>, nextPage: bool, maxPeriods: nat, maxGroups: nat)
  {
    !nextPage && |ps| <= maxPeriods && RawGroupTotal(ps) < maxGroups
  }

  /** A reply that fits is examined as a whole, and raises no false alarm. */
  lemma FittingIsWhole(raw: seq<RawPeriod>, nextPage: bool, maxPeriods: nat, maxGroups: nat)
    requires Fits(raw, nextPage, maxPeriods, maxGroups)
    ensures ExaminedPart(raw, maxPeriods, maxGroups) == raw && !FalseAlarm(raw, maxGroups)
  {
    SmallIsWhole(raw, maxGroups);
    KeptOfRaw(raw);
  }

  // ---------------------------------------------------------------- what is reported, from the reply alone

  /** What the first periods of a reply amount to: the periods reported, whether nothing was wrong in what was looked
      at, and whether a period had more groups than there was room for. */
  datatype Summary = Summary(periods: seq<Period>, clean: bool, cut: bool)

  /** The groups looked at with room for `room` more. */
  function Looked(p: RawPeriod, room: int): seq<RawGroup>
    requires p.RawPeriod?
  {
    if p.groups.None? then [] else if room < |p.groups.value| then p.groups.value[..if room < 0 then 0 else room]
    else p.groups.value
  }

  predicate MoreThan(p: RawPeriod, gs: seq<RawGroup>)
    requires p.RawPeriod?
  {
    p.groups.Some? && |gs| < |p.groups.value|
  }

  /** What a period is reported as, with the groups looked at. */
  function PeriodWith(p: RawPeriod, gs: seq<RawGroup>): Period
    requires Dated(p)
  {
    Period(p.start.value, p.end.value, Total(p), SaneGroups(gs))
  }

  /** One more period: reported under its own dates, if it has both. */
  ghost function Summed(s: Summary, p: RawPeriod, maxGroups: nat): Summary
  {
    if !Dated(p) then s.(clean := false)
    else
      var gs := Looked(p, maxGroups - GroupTotal(s.periods));
      Summary(s.periods + [PeriodWith(p, gs)], s.clean && CleanWith(p, gs), s.cut || MoreThan(p, gs))
  }

  ghost function SummaryOf(raw: seq<RawPeriod>, read: nat, maxGroups: nat): Summary
    requires read <= |raw|
  {
    if read == 0 then Summary([], true, false)
    else Summed(SummaryOf(raw, read - 1, maxGroups), raw[read - 1], maxGroups)
  }

  /** The last period read is reported and leaves the list full, with more periods in the reply. */
  ghost predicate StopsAt(raw: seq<RawPeriod>, out: seq<Period>, read: nat, maxGroups: nat)
  {
    0 < read <= |raw| && Dated(raw[read - 1]) && GroupTotal(out) >= maxGroups && |out| < |raw|
  }

  /** The whole report of a reply, after `read` periods. Reading stops early only at a period that leaves the list
      full. */
  ghost predicate Reported(raw: seq<RawPeriod>, nextPage: bool, out: seq<Period>, clean: bool, truncated: bool,
                           read: nat, maxPeriods: nat, maxGroups: nat)
  {
    && read <= |raw| && read <= maxPeriods
    && out == SummaryOf(raw, read, maxGroups).periods && clean == SummaryOf(raw, read, maxGroups).clean
    && (read < |raw| && read < maxPeriods ==> StopsAt(raw, out, read, maxGroups))
    && (truncated <==>
          || nextPage || |raw| > maxPeriods || SummaryOf(raw, read, maxGroups).cut
          || StopsAt(raw, out, read, maxGroups))
  }

  /** `r` is period `i` of the reply, with its dates, its total, and those of its first groups that are good, as far as
      there was room. */
  ghost predicate ReportOf(raw: seq<RawPeriod>, r: Period, i: nat, maxGroups: nat)
  {
    i < |raw| && Dated(raw[i])
    && r == PeriodWith(raw[i], Looked(raw[i], maxGroups - GroupTotal(SummaryOf(raw, i, maxGroups).periods)))
  }

  lemma SummedPeriods(s: Summary, p: RawPeriod, maxGroups: nat)
    ensures Summed(s, p, maxGroups).periods
         == if Dated(p) then s.periods + [PeriodWith(p, Looked(p, maxGroups - GroupTotal(s.periods)))] else s.periods
  {
  }

  lemma LastReport(raw: seq<RawPeriod>, read: nat, maxGroups: nat, before: seq<Period>, after: seq<Period>)
    requires 0 < read <= |raw| && before == SummaryOf(raw, read - 1, maxGroups).periods
    requires after == SummaryOf(raw, read, maxGroups).periods
    ensures after == before
            || (before <= after && |after| == |before| + 1 && ReportOf(raw, after[|before|], read - 1, maxGroups))
  {
    SummedPeriods(SummaryOf(raw, read - 1, maxGroups), raw[read - 1], maxGroups);
  }

  /** Each reported period is one of the reply. Of two reported periods, the later one comes later in the reply. */
  lemma {:induction false} ReportCarries(raw: seq<RawPeriod>, read: nat, maxGroups: nat, out: seq<Period>, k: nat)
    returns (i: nat)
    requires read <= |raw| && out == SummaryOf(raw, read, maxGroups).periods && k < |out|
    ensures k <= i < read && ReportOf(raw, out[k], i, maxGroups) && |SummaryOf(raw, i, maxGroups).periods| == k
    decreases read
  {
    var before := SummaryOf(raw, read - 1, maxGroups).periods;
    LastReport(raw, read, maxGroups, before, out);
    SummaryCount(raw, read - 1, maxGroups);
    i := read - 1;
    if k < |before| {
      i := ReportCarries(raw, read - 1, maxGroups, before, k);
    }
  }

  lemma {:induction false} SummaryCount(raw: seq<RawPeriod>, read: nat, maxGroups: nat)
    requires read <= |raw|
    ensures |SummaryOf(raw, read, maxGroups).periods| <= read
  {
    if read > 0 { SummaryCount(raw, read - 1, maxGroups); }
  }

  // ---------------------------------------------------------------- the examined part is what is reported

  /** The image of a cut period: its dates and total, and the groups looked at. */
  lemma CutImageIs(p: RawPeriod, room: nat)
    requires Dated(p)
    ensures SanePeriod(CutRaw(p, room)) == Some(PeriodWith(p, Looked(p, room)))
  {
    SanePeriodExactly(p);
    SanePeriodExactly(CutRaw(p, room));
  }

  lemma CutIsClean(p: RawPeriod, room: nat)
    requires Dated(p)
    ensures PeriodSane(CutRaw(p, room)) <==> CleanWith(p, Looked(p, room))
    ensures CutRaw(p, room) != p <==> MoreThan(p, Looked(p, room))
  {
    SanePeriodExactly(p);
    PeriodSaneExactly(CutRaw(p, room));
    if MoreThan(p, Looked(p, room)) { assert |GroupList(CutRaw(p, room))| == room; }
  }

  lemma SaneNext(examined: seq<RawPeriod>, p: RawPeriod)
    ensures AllSane(examined + [p]) <==> AllSane(examined) && PeriodSane(p)
  {
    var more := examined + [p];
    assert more[..|examined|] == examined && more[|examined|] == p && more[..|examined| + 1] == more;
    AllSnoc(PeriodSane, more, |examined|);
  }

  /** The summary in terms of the examined periods. */
  ghost function Examination(raw: seq<RawPeriod>, examined: seq<RawPeriod>): Summary
    requires |examined| <= |raw|
  {
    Summary(SanePeriods(examined), AllSane(examined), examined != raw[..|examined|])
  }

  lemma UndatedIsKept(p: RawPeriod, room: nat)
    requires !Dated(p)
    ensures CutRaw(p, room) == p && SanePeriod(p).None? && !PeriodSane(p)
  {
    SanePeriodExactly(p);
  }

  /** One more examined period `p`, with what it changes. */
  ghost function Lengthened(s: Summary, p: RawPeriod, whole: bool): Summary
  {
    Summary(if SanePeriod(p).Some? then s.periods + [SanePeriod(p).value] else s.periods, s.clean && PeriodSane(p),
            s.cut || !whole)
  }

  lemma SummedIsLengthened(s: Summary, p: RawPeriod, maxGroups: nat)
    requires GroupTotal(s.periods) <= maxGroups
    ensures var c := CutRaw(p, maxGroups - GroupTotal(s.periods)); Summed(s, p, maxGroups) == Lengthened(s, c, c == p)
  {
    var room := maxGroups - GroupTotal(s.periods);
    if Dated(p) {
      CutImageIs(p, room);
      CutIsClean(p, room);
    } else {
      UndatedIsKept(p, room);
    }
  }

  lemma ExaminationLengthened(raw: seq<RawPeriod>, examined: seq<RawPeriod>, p: RawPeriod)
    requires |examined| < |raw|
    ensures Examination(raw, examined + [p]) == Lengthened(Examination(raw, examined), p, p == raw[|examined|])
  {
    KeptSnoc(examined, p);
    SaneNext(examined, p);
    SameSoFar(raw, examined, p);
  }

  lemma ExaminationNext(raw: seq<RawPeriod>, examined: seq<RawPeriod>, maxGroups: nat)
    requires |examined| < |raw| && GroupTotal(SanePeriods(examined)) <= maxGroups
    ensures var p := CutRaw(raw[|examined|], maxGroups - GroupTotal(SanePeriods(examined)));
            Examination(raw, examined + [p]) == Summed(Examination(raw, examined), raw[|examined|], maxGroups)
  {
    var p := CutRaw(raw[|examined|], maxGroups - GroupTotal(SanePeriods(examined)));
    ExaminationLengthened(raw, examined, p);
    SummedIsLengthened(Examination(raw, examined), raw[|examined|], maxGroups);
  }

  lemma RoomLeft(examined: seq<RawPeriod>, p: RawPeriod, maxGroups: nat)
    requires GroupTotal(SanePeriods(examined)) <= maxGroups
    ensures var room := maxGroups - GroupTotal(SanePeriods(examined));
            maxGroups - GroupTotal(SanePeriods(examined + [CutRaw(p, room)])) == Left(p, room)
  {
    var room := maxGroups - GroupTotal(SanePeriods(examined));
    KeptFits(p, room);
    KeptSnoc(examined, CutRaw(p, room));
  }

  /** `whole` is what is examined in the end, with `room` left after `examined`. */
  ghost predicate Onwards(raw: seq<RawPeriod>, first: seq<RawPeriod>, examined: seq<RawPeriod>, room: nat,
                          whole: seq<RawPeriod>, maxGroups: nat)
  {
    && |examined| <= |first| && first <= raw && room == maxGroups - GroupTotal(SanePeriods(examined))
    && Examination(raw, examined) == SummaryOf(raw, |examined|, maxGroups)
    && whole == examined + Examined(first[|examined|..], room)
  }

  /** All of the first periods were examined, or the last one fills the list. */
  ghost predicate AtTheEnd(raw: seq<RawPeriod>, first: seq<RawPeriod>, whole: seq<RawPeriod>, maxGroups: nat)
  {
    && |whole| <= |first| <= |raw| && Examination(raw, whole) == SummaryOf(raw, |whole|, maxGroups)
    && (|whole| < |first| ==>
          whole != [] && Dated(raw[|whole| - 1]) && GroupTotal(SanePeriods(whole)) >= maxGroups)
  }

  lemma SummaryNext(raw: seq<RawPeriod>, examined: seq<RawPeriod>, room: nat, maxGroups: nat)
    requires |examined| < |raw| && room == maxGroups - GroupTotal(SanePeriods(examined))
    requires Examination(raw, examined) == SummaryOf(raw, |examined|, maxGroups)
    ensures var more := examined + [CutRaw(raw[|examined|], room)];
            Examination(raw, more) == SummaryOf(raw, |more|, maxGroups)
  {
    ExaminationNext(raw, examined, maxGroups);
  }

  lemma OneOnwards(raw: seq<RawPeriod>, first: seq<RawPeriod>, examined: seq<RawPeriod>, room: nat,
                   whole: seq<RawPeriod>, maxGroups: nat)
    requires Onwards(raw, first, examined, room, whole, maxGroups) && |examined| < |first|
    ensures var p := raw[|examined|]; var more := examined + [CutRaw(p, room)];
            if Dated(p) && Left(p, room) == 0 then whole == more && AtTheEnd(raw, first, whole, maxGroups)
            else Onwards(raw, first, more, Left(p, room), whole, maxGroups)
  {
    var i := |examined|;
    assert first[i] == raw[i];
    SummaryNext(raw, examined, room, maxGroups);
    RoomLeft(examined, raw[i], maxGroups);
    SanePeriodExactly(raw[i]);
    ExamineNext(first, examined, i, room, whole);
  }

  /** Examining goes on until the list is full. */
  lemma {:induction false} OnwardsToEnd(raw: seq<RawPeriod>, first: seq<RawPeriod>, examined: seq<RawPeriod>, room: nat,
                                        whole: seq<RawPeriod>, maxGroups: nat)
    requires Onwards(raw, first, examined, room, whole, maxGroups)
    ensures AtTheEnd(raw, first, whole, maxGroups)
    decreases |first| - |examined|
  {
    if |examined| == |first| {
      assert first[|examined|..] == [] && whole == examined;
    } else {
      var p := raw[|examined|];
      OneOnwards(raw, first, examined, room, whole, maxGroups);
      if !(Dated(p) && Left(p, room) == 0) {
        OnwardsToEnd(raw, first, examined + [CutRaw(p, room)], Left(p, room), whole, maxGroups);
      }
    }
  }

  /** The list fills up at the last examined period, in the words of the report. */
  lemma StopsExactly(raw: seq<RawPeriod>, examined: seq<RawPeriod>, maxGroups: nat)
    requires |examined| <= |raw|
    requires examined != [] ==> (SanePeriod(examined[|examined| - 1]).Some? <==> Dated(raw[|examined| - 1]))
    ensures StopsAt(raw, SanePeriods(examined), |examined|, maxGroups) <==> FilledUp(raw, examined, maxGroups)
  {
  }

  lemma LastSane(raw: seq<RawPeriod>, first: seq<RawPeriod>, e: seq<RawPeriod>, maxGroups: nat)
    requires first <= raw && e == Examined(first, maxGroups) && e != []
    ensures |e| <= |first| && (SanePeriod(e[|e| - 1]).Some? <==> Dated(raw[|e| - 1]))
  {
    ExaminedIsCut(first, maxGroups);
    assert first[|e| - 1] == raw[|e| - 1];
    CutImage(e[|e| - 1], raw[|e| - 1]);
    SanePeriodExactly(raw[|e| - 1]);
  }

  lemma WholeOrNot(raw: seq<RawPeriod>, e: seq<RawPeriod>)
    requires |e| <= |raw|
    ensures e != raw <==> |e| < |raw| || e != raw[..|e|]
  {
    assert raw[..|raw|] == raw;
  }

  lemma EndIsReported(raw: seq<RawPeriod>, nextPage: bool, first: seq<RawPeriod>, e: seq<RawPeriod>, maxPeriods: nat,
                      maxGroups: nat)
    requires first == Capped(raw, maxPeriods) && AtTheEnd(raw, first, e, maxGroups) && |SanePeriods(e)| <= |e|
    requires StopsAt(raw, SanePeriods(e), |e|, maxGroups) <==> FilledUp(raw, e, maxGroups)
    ensures Reported(raw, nextPage, SanePeriods(e), AllSane(e), nextPage || e != raw || FalseAlarm(raw, maxGroups), |e|,
                     maxPeriods, maxGroups)
  {
    WholeOrNot(raw, e);
  }

  /** What is examined of a reply is reported, from the reply alone. */
  lemma ReportExamined(raw: seq<RawPeriod>, nextPage: bool, maxPeriods: nat, maxGroups: nat) returns (read: nat)
    ensures var e := ExaminedPart(raw, maxPeriods, maxGroups);
            Reported(raw, nextPage, SanePeriods(e), AllSane(e), nextPage || e != raw || FalseAlarm(raw, maxGroups),
                     read, maxPeriods, maxGroups)
  {
    var first, e := Capped(raw, maxPeriods), ExaminedPart(raw, maxPeriods, maxGroups);
    assert raw[..0] == [] && Examination(raw, []) == SummaryOf(raw, 0, maxGroups);
    assert first[0..] == first && e == [] + Examined(first, maxGroups);
    OnwardsToEnd(raw, first, [], maxGroups, e, maxGroups);
    if e != [] { LastSane(raw, first, e, maxGroups); }
    StopsExactly(raw, e, maxGroups);
    ImagesShort(SanePeriod, e);
    EndIsReported(raw, nextPage, first, e, maxPeriods, maxGroups);
    read := |e|;
  }

  // ---------------------------------------------------------------- the adapter

  datatype Issue = InvalidQuery(code: Code) | QueryUnavailable | InvalidResponse | InvalidRows

  datatype CostData = CostData(periods: seq<Period>, returnedPeriods: nat, returnedGroups: nat, truncated: bool)

  type CostResult = AdapterResult<CostData, Issue>

  function Failure(issue: Issue, sdkRequests: nat): CostResult
  {
    AdapterResult(CostData([], 0, 0, false), sdkRequests, 0, Error, [issue])
  }

  /** The inner loop over one period's groups. */
  method SanitizeGroups(raw: seq<RawGroup>) returns (groups: seq<Group>, malformed: nat)
    ensures groups == SaneGroups(raw) && (malformed == 0 <==> AllHaveImages(SaneGroup, raw))
  {
    groups, malformed := [], 0;
    for i := 0 to |raw|
      invariant groups == Images(SaneGroup, raw[..i])
      invariant malformed == 0 <==> AllHaveImages(SaneGroup, raw[..i])
    {
      ImagesSnoc(SaneGroup, raw, i);
      assert raw[..i + 1] == raw[..i] + [raw[i]];
      var group := SaneGroup(raw[i]);
      if group.None? { malformed := malformed + 1; } else { groups := groups + [group.value]; }
    }
    assert raw[..|raw|] == raw;
  }

  /** One turn of the loop over periods, up to the check of the group cap. */
  method SanitizePeriod(p: RawPeriod, remaining: nat) returns (r: Option<Period>, malformed: nat, cut: bool)
    ensures r == SanePeriod(CutRaw(p, remaining))
    ensures cut <==> CutRaw(p, remaining) != p
    ensures malformed == 0 <==> PeriodSane(CutRaw(p, remaining))
  {
    malformed, cut := 0, false;
    if p.PeriodNotMapping? { return None, 1, false; }
    var start, end := SafeDate(p.start), SafeDate(p.end);
    if start.None? || end.None? { return None, 1, false; }
    var total := TotalText(p.total);
    if p.total.TotalNotMapping? { malformed := malformed + 1; }
    if p.total.TotalOf? && total.None? { malformed := malformed + 1; }
    if p.groups.None? { malformed := malformed + 1; }
    var rawGroups := GroupList(p);
    if |rawGroups| > remaining { cut := true; }
    var first := if |rawGroups| > remaining then rawGroups[..remaining] else rawGroups;
    var groups, bad := SanitizeGroups(first);
    malformed := malformed + bad;
    r := Some(Period(start.value, end.value, total, groups));
  }

  /** The state of the loop after `examined` of the first periods. */
  ghost predicate Collected(examined: seq<RawPeriod>, periods: seq<Period>, groupCount: nat, malformed: nat,
                            maxGroups: nat)
  {
    && periods == SanePeriods(examined) && groupCount == GroupTotal(periods) <= maxGroups
    && (malformed == 0 <==> AllSane(examined))
  }

  /** One more period examined. */
  lemma Collect(examined: seq<RawPeriod>, periods: seq<Period>, groupCount: nat, malformed: nat, maxGroups: nat,
                p: RawPeriod, bad: nat)
    requires Collected(examined, periods, groupCount, malformed, maxGroups)
    requires Kept(p) <= maxGroups - groupCount && (bad == 0 <==> PeriodSane(p))
    ensures Collected(examined + [p], if SanePeriod(p).Some? then periods + [SanePeriod(p).value] else periods,
                      groupCount + Kept(p), malformed + bad, maxGroups)
  {
    var more := examined + [p];
    assert more[..|examined|] == examined && more[|examined|] == p && more[..|examined| + 1] == more;
    AllSnoc(PeriodSane, more, |examined|);
    KeptSnoc(examined, p);
  }

  /** Examining goes on after the first of the remaining periods, unless it fills the room. */
  lemma ExamineNext(first: seq<RawPeriod>, examined: seq<RawPeriod>, i: nat, room: nat, whole: seq<RawPeriod>)
    requires i < |first| && whole == examined + Examined(first[i..], room)
    ensures var more := examined + [CutRaw(first[i], room)];
            whole == if SanePeriod(first[i]).Some? && Left(first[i], room) == 0 then more
                     else more + Examined(first[i + 1..], Left(first[i], room))
  {
    assert first[i..][0] == first[i] && first[i..][1..] == first[i + 1..];
  }

  lemma SameSoFar(first: seq<RawPeriod>, examined: seq<RawPeriod>, p: RawPeriod)
    requires |examined| < |first|
    ensures examined + [p] == first[..|examined| + 1] <==> examined == first[..|examined|] && p == first[|examined|]
  {
    var more, prefix := examined + [p], first[..|examined| + 1];
    assert more[..|examined|] == examined && more[|examined|] == p;
    assert prefix[..|examined|] == first[..|examined|] && prefix[|examined|] == first[|examined|];
    if examined == first[..|examined|] && p == first[|examined|] { assert more == prefix; }
  }

  /** The body of the loop over periods: `full` breaks it. */
  method TakePeriod(raw: seq<RawPeriod>, i: nat, periods: seq<Period>, groupCount: nat, malformed: nat, clipped: bool,
                    ghost examined: seq<RawPeriod>, maxGroups: nat)
    returns (periods': seq<Period>, groupCount': nat, malformed': nat, clipped': bool, full: bool,
             ghost examined': seq<RawPeriod>)
    requires i < |raw| && |examined| == i && Collected(examined, periods, groupCount, malformed, maxGroups)
    ensures examined' == examined + [CutRaw(raw[i], maxGroups - groupCount)]
    ensures Collected(examined', periods', groupCount', malformed', maxGroups)
    ensures maxGroups - groupCount' == Left(raw[i], maxGroups - groupCount)
    ensures full <==> FilledUp(raw, examined', maxGroups)
    ensures clipped' <==> clipped || CutRaw(raw[i], maxGroups - groupCount) != raw[i] || full
  {
    var room := maxGroups - groupCount;
    var left, bad, cut := SanitizePeriod(raw[i], room);
    ghost var p := CutRaw(raw[i], room);
    KeptFits(raw[i], room);
    examined' := examined + [p];
    periods' := if left.Some? then periods + [left.value] else periods;
    groupCount' := if left.Some? then groupCount + |left.value.groups| else groupCount;
    malformed' := malformed + bad;
    full := left.Some? && groupCount' >= maxGroups && |raw| > |periods'|;
    clipped' := clipped || cut || full;
    Collect(examined, periods, groupCount, malformed, maxGroups, p, bad);
  }

  /** The state of the loop before period `i`; `whole` is what will have been examined in the end. */
  ghost predicate Scanning(raw: seq<RawPeriod>, first: seq<RawPeriod>, i: nat, examined: seq<RawPeriod>,
                           whole: seq<RawPeriod>, room: nat, clipped: bool, cutBefore: bool, maxGroups: nat)
  {
    && i <= |first| && |examined| == i && whole == examined + Examined(first[i..], room)
    && !FilledUp(raw, examined, maxGroups) && (clipped <==> cutBefore || examined != first[..i])
  }

  /** The state after the loop. */
  ghost predicate Scanned(raw: seq<RawPeriod>, first: seq<RawPeriod>, examined: seq<RawPeriod>, whole: seq<RawPeriod>,
                          clipped: bool, cutBefore: bool, maxGroups: nat)
  {
    examined == whole && (clipped <==> cutBefore || examined != first || FilledUp(raw, examined, maxGroups))
  }

  lemma ScanStep(raw: seq<RawPeriod>, first: seq<RawPeriod>, i: nat, examined: seq<RawPeriod>, whole: seq<RawPeriod>,
                 room: nat, clipped: bool, cutBefore: bool, maxGroups: nat, room': nat, clipped': bool, full: bool,
                 more: seq<RawPeriod>)
    requires Scanning(raw, first, i, examined, whole, room, clipped, cutBefore, maxGroups) && i < |first| <= |raw|
    requires more == examined + [CutRaw(first[i], room)] && room' == Left(first[i], room)
    requires full <==> FilledUp(raw, more, maxGroups)
    requires clipped' <==> clipped || CutRaw(first[i], room) != first[i] || full
    requires GroupTotal(SanePeriods(more)) == maxGroups - room' && |SanePeriods(more)| <= |more|
    ensures !full ==> Scanning(raw, first, i + 1, more, whole, room', clipped', cutBefore, maxGroups)
    ensures full ==> Scanned(raw, first, more, whole, clipped', cutBefore, maxGroups)
  {
    ExamineNext(first, examined, i, room, whole);
    SameSoFar(first, examined, CutRaw(first[i], room));
    CutImage(CutRaw(first[i], room), first[i]);
    if SanePeriod(first[i]).Some? && room' == 0 && !full {
      // Then every period of the reply has been kept, so this was the last one.
      assert |more| == |first| && first[i + 1..] == [];
    }
  }

  lemma ScanEnds(raw: seq<RawPeriod>, first: seq<RawPeriod>, examined: seq<RawPeriod>, whole: seq<RawPeriod>, room: nat,
                 clipped: bool, cutBefore: bool, maxGroups: nat)
    requires Scanning(raw, first, |first|, examined, whole, room, clipped, cutBefore, maxGroups)
    ensures Scanned(raw, first, examined, whole, clipped, cutBefore, maxGroups)
  {
    assert first[|first|..] == [] && first[..|first|] == first;
  }

  /** What the loop leaves. */
  lemma ScanResult(raw: seq<RawPeriod>, examined: seq<RawPeriod>, periods: seq<Period>, groupCount: nat, malformed: nat,
                   clipped: bool, nextPage: bool, maxPeriods: nat, maxGroups: nat)
    requires Collected(examined, periods, groupCount, malformed, maxGroups)
    requires Scanned(raw, Capped(raw, maxPeriods), examined, ExaminedPart(raw, maxPeriods, maxGroups), clipped,
                     nextPage || |raw| > maxPeriods, maxGroups)
    ensures periods == SanePeriods(ExaminedPart(raw, maxPeriods, maxGroups)) && |periods| <= maxPeriods
    ensures malformed == 0 <==> AllSane(ExaminedPart(raw, maxPeriods, maxGroups))
    ensures clipped <==>
              nextPage || ExaminedPart(raw, maxPeriods, maxGroups) != raw || FalseAlarm(raw, maxGroups)
  {
    ExaminedTrims(raw, maxPeriods, maxGroups);
    ImagesShort(SanePeriod, examined);
  }

  /** What taking a period means for the scan. */
  lemma ScanTaken(raw: seq<RawPeriod>, first: seq<RawPeriod>, i: nat, examined: seq<RawPeriod>, whole: seq<RawPeriod>,
                  room: nat, clipped: bool, cutBefore: bool, maxGroups: nat, periods': seq<Period>, groupCount': nat,
                  malformed': nat, clipped': bool, full: bool, more: seq<RawPeriod>)
    requires first <= raw && i < |first|
    requires Scanning(raw, first, i, examined, whole, room, clipped, cutBefore, maxGroups)
    requires more == examined + [CutRaw(raw[i], room)] && maxGroups - groupCount' == Left(raw[i], room)
    requires Collected(more, periods', groupCount', malformed', maxGroups) && (full <==> FilledUp(raw, more, maxGroups))
    requires clipped' <==> clipped || CutRaw(raw[i], room) != raw[i] || full
    ensures if full then Scanned(raw, first, more, whole, clipped', cutBefore, maxGroups)
            else Scanning(raw, first, i + 1, more, whole, maxGroups - groupCount', clipped', cutBefore, maxGroups)
  {
    assert first[i] == raw[i];
    ImagesShort(SanePeriod, more);
    ScanStep(raw, first, i, examined, whole, room, clipped, cutBefore, maxGroups, maxGroups - groupCount', clipped',
             full, more);
  }

  /** One turn of the loop. */
  method NextPeriod(raw: seq<RawPeriod>, ghost first: seq<RawPeriod>, i: nat, periods: seq<Period>, groupCount: nat,
                    malformed: nat, clipped: bool, ghost examined: seq<RawPeriod>, ghost whole: seq<RawPeriod>,
                    ghost cutBefore: bool, maxGroups: nat)
    returns (periods': seq<Period>, groupCount': nat, malformed': nat, clipped': bool, full: bool,
             ghost examined': seq<RawPeriod>)
    requires first <= raw && i < |first| && Collected(examined, periods, groupCount, malformed, maxGroups)
    requires Scanning(raw, first, i, examined, whole, maxGroups - groupCount, clipped, cutBefore, maxGroups)
    ensures Collected(examined', periods', groupCount', malformed', maxGroups)
    ensures if full then Scanned(raw, first, examined', whole, clipped', cutBefore, maxGroups)
            else Scanning(raw, first, i + 1, examined', whole, maxGroups - groupCount', clipped', cutBefore, maxGroups)
  {
    periods', groupCount', malformed', clipped', full, examined' :=
      TakePeriod(raw, i, periods, groupCount, malformed, clipped, examined, maxGroups);
    ScanTaken(raw, first, i, examined, whole, maxGroups - groupCount, clipped, cutBefore, maxGroups, periods',
              groupCount', malformed', clipped', full, examined');
  }

  lemma ScanBegins(raw: seq<RawPeriod>, first: seq<RawPeriod>, whole: seq<RawPeriod>, cutBefore: bool, maxGroups: nat)
    requires whole == Examined(first, maxGroups)
    ensures Scanning(raw, first, 0, [], whole, maxGroups, cutBefore, cutBefore, maxGroups)
    ensures Collected([], [], 0, 0, maxGroups)
  {
    assert first[0..] == first;
  }

  /** The loop over periods, for any caps: exactly the examined part is returned and judged, and the flag is up exactly
      if that is not all of the reply, or by a false alarm. */
  method SanitizePeriods(raw: seq<RawPeriod>, maxPeriods: nat, maxGroups: nat, nextPage: bool)
    returns (periods: seq<Period>, groupCount: nat, malformed: nat, clipped: bool)
    ensures periods == SanePeriods(ExaminedPart(raw, maxPeriods, maxGroups)) && |periods| <= maxPeriods
    ensures groupCount == GroupTotal(periods) <= maxGroups
    ensures malformed == 0 <==> AllSane(ExaminedPart(raw, maxPeriods, maxGroups))
    ensures clipped <==>
              nextPage || ExaminedPart(raw, maxPeriods, maxGroups) != raw || FalseAlarm(raw, maxGroups)
  {
    periods, groupCount, malformed := [], 0, 0;
    clipped := nextPage || |raw| > maxPeriods;
    var first := Capped(raw, maxPeriods);
    ghost var cutBefore, examined, whole := clipped, [], ExaminedPart(raw, maxPeriods, maxGroups);
    var i := 0;
    ScanBegins(raw, first, whole, cutBefore, maxGroups);
    while i < |first|
      invariant 0 <= i <= |first|
      invariant Collected(examined, periods, groupCount, malformed, maxGroups)
      invariant Scanning(raw, first, i, examined, whole, maxGroups - groupCount, clipped, cutBefore, maxGroups)
    {
      var full;
      periods, groupCount, malformed, clipped, full, examined :=
        NextPeriod(raw, first, i, periods, groupCount, malformed, clipped, examined, whole, cutBefore, maxGroups);
      i := i + 1;
      if full {
        ScanResult(raw, examined, periods, groupCount, malformed, clipped, nextPage, maxPeriods, maxGroups);
        return;
      }
    }
    ScanEnds(raw, first, examined, whole, maxGroups - groupCount, clipped, cutBefore, maxGroups);
    ScanResult(raw, examined, periods, groupCount, malformed, clipped, nextPage, maxPeriods, maxGroups);
  }

  /** What the examined part says about the reply. */
  lemma ExaminedMeans(raw: seq<RawPeriod>, nextPage: bool, maxPeriods: nat, maxGroups: nat, clipped: bool)
    requires clipped <==> nextPage || ExaminedPart(raw, maxPeriods, maxGroups) != raw || FalseAlarm(raw, maxGroups)
    ensures var e := ExaminedPart(raw, maxPeriods, maxGroups);
            && Trimmed(SanePeriods(e), SanePeriods(raw)) && (AllSane(raw) ==> AllSane(e))
            && (!clipped ==> !nextPage && |raw| <= maxPeriods && SanePeriods(e) == SanePeriods(raw)
                             && (AllSane(e) <==> AllSane(raw)))
            && (Fits(raw, nextPage, maxPeriods, maxGroups) ==> !clipped)
  {
    ExaminedTrims(raw, maxPeriods, maxGroups);
    if Fits(raw, nextPage, maxPeriods, maxGroups) { FittingIsWhole(raw, nextPage, maxPeriods, maxGroups); }
  }

  /** A reply of a period that is dropped and a sane one that just fills the list is examined to its end, and yet
      reported as truncated. */
  lemma DroppedThenFull(dropped: RawPeriod, p: RawPeriod, maxPeriods: nat, maxGroups: nat)
    requires SanePeriod(dropped).None? && SanePeriod(p).Some? && 2 <= maxPeriods
    requires |GroupList(p)| == Kept(p) == maxGroups
    ensures ExaminedPart([dropped, p], maxPeriods, maxGroups) == [dropped, p]
    ensures FalseAlarm([dropped, p], maxGroups)
  {
    var raw := [dropped, p];
    assert raw[1..] == [p] && [p][1..] == [];
    assert CutRaw(dropped, maxGroups) == dropped && Left(dropped, maxGroups) == maxGroups;
    assert CutRaw(p, maxGroups) == p && Left(p, maxGroups) == 0;
    assert Examined([p], maxGroups) == [p] && Examined(raw, maxGroups) == raw;
    KeptSnoc([], dropped);
    KeptSnoc([dropped], p);
    assert [] + [dropped] == [dropped] && [dropped] + [p] == raw;
  }

  /** A day with so many times this group. */
  lemma FullDay(group: RawGroup, n: nat) returns (p: RawPeriod)
    requires SaneGroup(group).Some?
    ensures PeriodSane(p) && SanePeriod(p).Some? && |GroupList(p)| == Kept(p) == n
  {
    var groups := seq(n, _ => group);
    var day := Date(2024, 1, 1);
    ParsePrint(IsoText(day), day);
    p := RawPeriod(Some(IsoText(day)), Some(IsoText(day)), TotalEmpty, Some(groups));
    ImagesWhole(SaneGroup, groups);
  }

  /** Such a reply: no mapping, and then a day with as many groups as are allowed. */
  lemma FalseAlarmHappens(group: RawGroup) returns (p: RawPeriod)
    requires SaneGroup(group).Some?
    ensures PeriodSane(p)
    ensures ExaminedPart([PeriodNotMapping, p], MAX_COST_PERIODS, MAX_COST_GROUPS) == [PeriodNotMapping, p]
    ensures FalseAlarm([PeriodNotMapping, p], MAX_COST_GROUPS)
  {
    p := FullDay(group, MAX_COST_GROUPS);
    DroppedThenFull(PeriodNotMapping, p, MAX_COST_PERIODS, MAX_COST_GROUPS);
  }

  /** `get_cost_and_usage` for any reply of the service. */
  method GetCostAndUsage(query: Query, reply: Reply)
    returns (r: CostResult, ghost read: nat)
    ensures Constructible(r)
    ensures r.sdkRequests == if Revalidate(query).Accepted? then 1 else 0
    ensures |r.data.periods| == r.data.returnedPeriods <= 31
    ensures r.resources == r.data.returnedGroups == GroupTotal(r.data.periods) <= 100
    ensures Revalidate(query).Accepted? && reply.Reply? ==>
              var e := ExaminedPart(reply.periods, MAX_COST_PERIODS, MAX_COST_GROUPS);
              && r.data.periods == SanePeriods(e) && (r.status == Ok <==> AllSane(e))
              && (r.data.truncated <==>
                    reply.nextPage || e != reply.periods || FalseAlarm(reply.periods, MAX_COST_GROUPS))
              && Trimmed(r.data.periods, SanePeriods(reply.periods))
              && (!r.data.truncated ==>
                    !reply.nextPage && r.data.periods == SanePeriods(reply.periods)
                    && (r.status == Ok <==> AllSane(reply.periods)))
              && (Fits(reply.periods, reply.nextPage, MAX_COST_PERIODS, MAX_COST_GROUPS) ==> !r.data.truncated)
    ensures (r.status == Partial ==> r.data.periods != []) && (r.status == Error ==> r.data.periods == [])
    ensures !(Revalidate(query).Accepted? && reply.Reply?) ==> r.status == Error && !r.data.truncated
    ensures if Revalidate(query).Rejected? then r.issues == [InvalidQuery(Revalidate(query).code)]
            else if reply.Raised? then r.issues == [QueryUnavailable]
            else if !reply.Reply? then r.issues == [InvalidResponse]
            else
              && r.issues == (if r.status == Ok then [] else [InvalidRows])
              && Reported(reply.periods, reply.nextPage, r.data.periods, r.status == Ok, r.data.truncated, read, 31,
                          100)
  {
    read := 0;
    var normalized := Revalidate(query);
    if normalized.Rejected? { return Failure(InvalidQuery(normalized.code), 0), 0; }
    if reply.Raised? { return Failure(QueryUnavailable, 1), 0; }
    if !reply.Reply? { return Failure(InvalidResponse, 1), 0; }
    var periods, groupCount, malformed, clipped :=
      SanitizePeriods(reply.periods, MAX_COST_PERIODS, MAX_COST_GROUPS, reply.nextPage);
    ExaminedMeans(reply.periods, reply.nextPage, MAX_COST_PERIODS, MAX_COST_GROUPS, clipped);
    read := ReportExamined(reply.periods, reply.nextPage, MAX_COST_PERIODS, MAX_COST_GROUPS);
    var status := if malformed == 0 then Ok else if periods != [] then Partial else Error;
    r := AdapterResult(CostData(periods, |periods|, groupCount, clipped), 1, groupCount, status,
                       if malformed > 0 then [InvalidRows] else []);
  }
}

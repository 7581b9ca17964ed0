/** Validation of Cost Explorer queries: exact ISO dates and the fixed dimension contract. */
module CostQuery {
  import opened Basics
  import opened Calendar

  const MAX_COST_QUERY_DAYS := 31

  /** A dynamically typed argument: a string or something else. */
  datatype Argument = Text(s: string) | NotText

  datatype Query = Query(startDate: string, endDate: string, granularity: string, groupBy: string)

  datatype Code = InvalidDate | InvalidPeriod | PeriodTooLong | InvalidGranularity | InvalidGroupBy

  datatype Checked = Accepted(query: Query) | Rejected(code: Code)

  function ParseArgument(a: Argument): Option<Date>
  {
    if a.Text? then ParseIso(a.s) else None
  }

  predicate IsGranularity(a: Argument) { a == Text("DAILY") || a == Text("MONTHLY") }

  predicate IsGroupBy(a: Argument) { a == Text("SERVICE") || a == Text("REGION") }

  /** `validate_cost_explorer_query`, in the order of its checks. */
  function Validate(startDate: Argument, endDate: Argument, granularity: Argument, groupBy: Argument): Checked
  {
    var first, last := ParseArgument(startDate), ParseArgument(endDate);
    if first.None? || last.None? then Rejected(InvalidDate)
    else
      ParsedAreValid(startDate, first.value);
      ParsedAreValid(endDate, last.value);
      if !Earlier(first.value, last.value) then Rejected(InvalidPeriod)
      else if Ordinal(last.value) - Ordinal(first.value) > MAX_COST_QUERY_DAYS then Rejected(PeriodTooLong)
      else if !IsGranularity(granularity) then Rejected(InvalidGranularity)
      else if !IsGroupBy(groupBy) then Rejected(InvalidGroupBy)
      else Accepted(Query(IsoText(first.value), IsoText(last.value), granularity.s, groupBy.s))
  }

  function Revalidate(q: Query): Checked
  {
    Validate(Text(q.startDate), Text(q.endDate), Text(q.granularity), Text(q.groupBy))
  }

  lemma ParsedAreValid(a: Argument, d: Date)
    requires ParseArgument(a) == Some(d)
    ensures ValidDate(d) && a == Text(IsoText(d))
  {
    ParsePrint(a.s, d);
  }

  /** Days from the start of a period to its end, both given as dates printed in ISO form. */
  ghost predicate SpansDays(startDate: string, endDate: string, days: int)
  {
    exists a: Date, b: Date ::
      ValidDate(a) && ValidDate(b) && startDate == IsoText(a) && endDate == IsoText(b)
      && Ordinal(b) - Ordinal(a) == days
  }

  lemma SpanIsUnique(s: string, e: string, m: int, n: int)
    requires SpansDays(s, e, m) && SpansDays(s, e, n)
    ensures m == n
  {
    var a, b :| ValidDate(a) && ValidDate(b) && s == IsoText(a) && e == IsoText(b) && Ordinal(b) - Ordinal(a) == m;
    var c, d :| ValidDate(c) && ValidDate(d) && s == IsoText(c) && e == IsoText(d) && Ordinal(d) - Ordinal(c) == n;
    ParsePrint(s, a);
    ParsePrint(s, c);
    ParsePrint(e, b);
    ParsePrint(e, d);
  }

  /** The one span of a query whose dates both parse; no span otherwise. */
  lemma SpanOf(q: Query)
    ensures var first, last := ParseIso(q.startDate), ParseIso(q.endDate);
            if first.Some? && last.Some? then
              && ValidDate(first.value) && ValidDate(last.value)
              && (Earlier(first.value, last.value) <==> Ordinal(first.value) < Ordinal(last.value))
              && var span := Ordinal(last.value) - Ordinal(first.value);
                 SpansDays(q.startDate, q.endDate, span)
                 && forall days :: SpansDays(q.startDate, q.endDate, days) ==> days == span
            else forall days :: !SpansDays(q.startDate, q.endDate, days)
  {
    var first, last := ParseIso(q.startDate), ParseIso(q.endDate);
    if first.Some? && last.Some? {
      ParsePrint(q.startDate, first.value);
      ParsePrint(q.endDate, last.value);
      OrdinalOrder(first.value, last.value);
      var span := Ordinal(last.value) - Ordinal(first.value);
      assert SpansDays(q.startDate, q.endDate, span);
      forall days | SpansDays(q.startDate, q.endDate, days) ensures days == span {
        SpanIsUnique(q.startDate, q.endDate, days, span);
      }
    } else {
      forall days ensures !SpansDays(q.startDate, q.endDate, days) {
        if SpansDays(q.startDate, q.endDate, days) {
          var a, b :| ValidDate(a) && ValidDate(b) && q.startDate == IsoText(a) && q.endDate == IsoText(b)
                      && Ordinal(b) - Ordinal(a) == days;
          ParsePrint(q.startDate, a);
          ParsePrint(q.endDate, b);
        }
      }
    }
  }

  /** Accepted arguments are the strings of the query, so validating the query again changes nothing. */
  lemma AcceptedIsStable(startDate: Argument, endDate: Argument, granularity: Argument, groupBy: Argument)
    requires Validate(startDate, endDate, granularity, groupBy).Accepted?
    ensures var q := Validate(startDate, endDate, granularity, groupBy).query;
            && startDate == Text(q.startDate) && endDate == Text(q.endDate)
            && granularity == Text(q.granularity) && groupBy == Text(q.groupBy)
            && Revalidate(q) == Accepted(q)
  {
    ParsedAreValid(startDate, ParseArgument(startDate).value);
    ParsedAreValid(endDate, ParseArgument(endDate).value);
  }

  /** The first requirement a query fails, from its span in days and its dimensions. */
  function FirstFailure(span: Option<int>, granularityKnown: bool, groupByKnown: bool): Option<Code>
  {
    if span.None? then Some(InvalidDate)
    else if span.value <= 0 then Some(InvalidPeriod)
    else if span.value > MAX_COST_QUERY_DAYS then Some(PeriodTooLong)
    else if !granularityKnown then Some(InvalidGranularity)
    else if !groupByKnown then Some(InvalidGroupBy)
    else None
  }

  ghost predicate IsSpan(startDate: string, endDate: string, span: Option<int>)
  {
    forall days :: SpansDays(startDate, endDate, days) <==> span == Some(days)
  }

  /** `span` is the difference of the two dates, if both parse. */
  predicate ParsedSpan(startDate: string, endDate: string, span: Option<int>)
  {
    var first, last := ParseIso(startDate), ParseIso(endDate);
    if first.Some? && last.Some? then
      && ValidDate(first.value) && ValidDate(last.value)
      && (Earlier(first.value, last.value) <==> Ordinal(first.value) < Ordinal(last.value))
      && span == Some(Ordinal(last.value) - Ordinal(first.value))
    else span.None?
  }

  lemma OneSpan(startDate: string, endDate: string, n: int)
    requires SpansDays(startDate, endDate, n)
    requires forall days :: SpansDays(startDate, endDate, days) ==> days == n
    ensures IsSpan(startDate, endDate, Some(n))
  {
  }

  lemma FindSpan(q: Query) returns (span: Option<int>)
    ensures IsSpan(q.startDate, q.endDate, span) && ParsedSpan(q.startDate, q.endDate, span)
  {
    SpanOf(q);
    var first, last := ParseIso(q.startDate), ParseIso(q.endDate);
    if first.Some? && last.Some? {
      var days := Ordinal(last.value) - Ordinal(first.value);
      span := Some(days);
      OneSpan(q.startDate, q.endDate, days);
    } else {
      span := None;
    }
  }

  lemma DecideBySpan(q: Query, span: Option<int>)
    requires ParsedSpan(q.startDate, q.endDate, span)
    ensures var failure := FirstFailure(span, IsGranularity(Text(q.granularity)), IsGroupBy(Text(q.groupBy)));
            Revalidate(q) == if failure.Some? then Rejected(failure.value) else Accepted(q)
  {
    if Revalidate(q).Accepted? {
      AcceptedIsStable(Text(q.startDate), Text(q.endDate), Text(q.granularity), Text(q.groupBy));
    }
  }

  lemma Decided(q: Query) returns (span: Option<int>)
    ensures IsSpan(q.startDate, q.endDate, span)
    ensures var failure := FirstFailure(span, IsGranularity(Text(q.granularity)), IsGroupBy(Text(q.groupBy)));
            Revalidate(q) == if failure.Some? then Rejected(failure.value) else Accepted(q)
  {
    span := FindSpan(q);
    DecideBySpan(q, span);
  }

  /** A query is accepted exactly when both dates are printed calendar dates 1 to 31 days apart and
      the dimensions are among the fixed ones, and then nothing of it is rewritten. */
  lemma AcceptedExactly(q: Query)
    ensures Revalidate(q).Accepted? <==>
              && (exists days :: 1 <= days <= 31 && SpansDays(q.startDate, q.endDate, days))
              && (q.granularity == "DAILY" || q.granularity == "MONTHLY")
              && (q.groupBy == "SERVICE" || q.groupBy == "REGION")
    ensures Revalidate(q).Accepted? ==> Revalidate(q).query == q
  {
    var span := Decided(q);
    assert span.Some? ==> SpansDays(q.startDate, q.endDate, span.value);
  }

  /** Which requirement each error code reports. */
  lemma RejectionMeans(q: Query)
    requires Revalidate(q).Rejected?
    ensures exists span: Option<int> ::
              && IsSpan(q.startDate, q.endDate, span)
              && match Revalidate(q).code
                 case InvalidDate => span.None?
                 case InvalidPeriod => span.Some? && span.value <= 0
                 case PeriodTooLong => span.Some? && span.value > 31
                 case InvalidGranularity =>
                   span.Some? && 1 <= span.value <= 31 && q.granularity !in {"DAILY", "MONTHLY"}
                 case InvalidGroupBy =>
                   span.Some? && 1 <= span.value <= 31 && q.granularity in {"DAILY", "MONTHLY"}
                   && q.groupBy !in {"SERVICE", "REGION"}
  {
    var span := Decided(q);
    assert IsSpan(q.startDate, q.endDate, span);
  }

  predicate Ascending(rows: seq<Date>)
  {
    forall i :: 0 <= i < |rows| ==> ValidDate(rows[i]) && (i > 0 ==> Earlier(rows[i - 1], rows[i]))
  }

  lemma {:induction false} AscendingCount(rows: seq<Date>, first: Date)
    requires Ascending(rows) && rows != [] && ValidDate(first) && !Earlier(rows[0], first)
    ensures Ordinal(rows[|rows| - 1]) >= Ordinal(first) + |rows| - 1
  {
    var n := |rows|;
    if n == 1 {
      OrdinalOrder(rows[0], first);
    } else {
      AscendingCount(rows[..n - 1], first);
      OrdinalOrder(rows[n - 2], rows[n - 1]);
    }
  }

  /** One row per day of an accepted query is never more than 31 rows. */
  lemma DailyRowsFit(q: Query, rows: seq<Date>, first: Date, last: Date)
    requires Revalidate(q).Accepted? && ParseIso(q.startDate) == Some(first) && ParseIso(q.endDate) == Some(last)
    requires Ascending(rows)
    requires forall i :: 0 <= i < |rows| ==> !Earlier(rows[i], first) && Earlier(rows[i], last)
    ensures |rows| <= 31
  {
    SpanOf(q);
    if rows != [] {
      AscendingCount(rows, first);
      OrdinalOrder(rows[|rows| - 1], last);
    }
  }
}

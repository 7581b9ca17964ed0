/** The confirmed operations, and the action and payload each one binds a confirmation to. */
module Work {
  import opened CanonicalJson
  import opened CostQuery

  datatype Work =
    | Telegram(destination: string, message: string)
    | Trello(board: string, list: string, title: string, description: string)
    | CostCall(query: Query, billingView: string)

  const TELEGRAM_ACTION := "telegram.send_message"
  const TRELLO_ACTION := "trello.create_card"
  const COST_ACTION := "aws.cost_explorer.get_cost_and_usage"

  function ActionOf(w: Work): string
  {
    match w
    case Telegram(_, _) => TELEGRAM_ACTION
    case Trello(_, _, _, _) => TRELLO_ACTION
    case CostCall(_, _) => COST_ACTION
  }

  function FieldsOf(w: Work): seq<Field>
  {
    match w
    case Telegram(destination, message) =>
      [Field("destination", Str(destination)), Field("message", Str(message))]
    case Trello(board, list, title, description) =>
      [Field("board", Str(board)), Field("list", Str(list)), Field("title", Str(title)),
       Field("description", Str(description))]
    case CostCall(query, billingView) =>
      [Field("start_date", Str(query.startDate)), Field("end_date", Str(query.endDate)),
       Field("granularity", Str(query.granularity)), Field("group_by", Str(query.groupBy)),
       Field("metric", Str("UnblendedCost")), Field("currency", Str("USD")),
       Field("max_cost_usd", Str("0.01")), Field("max_api_requests", Int(1)),
       Field("monthly_request_limit", Int(3)), Field("monthly_max_api_cost_usd", Str("0.03")),
       Field("billing_view_arn", Str(billingView))]
  }

  function PayloadOf(w: Work): Payload
  {
    FieldsWellFormed(w);
    Obj(FieldsOf(w))
  }

  /** The action, and the fields of the payload under their names. */
  lemma TelegramFields(destination: string, message: string)
    ensures var w := Telegram(destination, message);
            && ActionOf(w) == "telegram.send_message"
            && PayloadOf(w) == Obj([Field("destination", Str(destination)), Field("message", Str(message))])
  {
  }

  lemma TrelloFields(board: string, list: string, title: string, description: string)
    ensures var w := Trello(board, list, title, description);
            && ActionOf(w) == "trello.create_card"
            && PayloadOf(w) == Obj([Field("board", Str(board)), Field("list", Str(list)), Field("title", Str(title)),
                                    Field("description", Str(description))])
  {
  }

  lemma CostFields(query: Query, billingView: string)
    ensures var w := CostCall(query, billingView);
            && ActionOf(w) == "aws.cost_explorer.get_cost_and_usage"
            && var fields := PayloadOf(w).fields;
               && |fields| == 11 && Field("start_date", Str(query.startDate)) in fields
               && Field("end_date", Str(query.endDate)) in fields
               && Field("granularity", Str(query.granularity)) in fields
               && Field("group_by", Str(query.groupBy)) in fields
               && Field("billing_view_arn", Str(billingView)) in fields
               && Field("metric", Str("UnblendedCost")) in fields && Field("currency", Str("USD")) in fields
               && Field("max_cost_usd", Str("0.01")) in fields && Field("max_api_requests", Int(1)) in fields
               && Field("monthly_request_limit", Int(3)) in fields
               && Field("monthly_max_api_cost_usd", Str("0.03")) in fields
  {
  }

  predicate FlatAndDistinct(fs: seq<Field>)
  {
    && (forall i :: 0 <= i < |fs| ==> fs[i].value.Str? || fs[i].value.Int?)
    && (forall i, j :: 0 <= i < j < |fs| ==> fs[i].key != fs[j].key)
  }

  lemma {:induction false} FlatIsWellFormed(fs: seq<Field>)
    requires FlatAndDistinct(fs)
    ensures WellFormedFields(fs)
  {
    if fs != [] {
      forall i | 0 <= i < |fs[1..]| ensures fs[1..][i].key != fs[0].key {
        assert fs[1..][i] == fs[i + 1];
      }
      FlatIsWellFormed(fs[1..]);
      var first := fs[0].value;
      assert first.Str? || first.Int?;
      assert WellFormed(first);
      assert !HasKey(fs[1..], fs[0].key);
    }
  }

  lemma FieldsWellFormed(w: Work)
    ensures WellFormed(Obj(FieldsOf(w)))
  {
    if w.CostCall? {
      CostFieldsDistinct(w);
    } else if w.Trello? {
      assert FieldsOf(w)[0].key[0] == 'b' && FieldsOf(w)[2].key[0] == 't';
    }
    FlatIsWellFormed(FieldsOf(w));
  }

  lemma CostFieldsDistinct(w: Work)
    requires w.CostCall?
    ensures FlatAndDistinct(FieldsOf(w))
  {
    var fs := FieldsOf(w);
    // Keys of equal length differ in one letter; all others differ in length.
    assert fs[1].key[0] == 'e' && fs[3].key[0] == 'g' && fs[5].key[0] == 'c';
    assert fs[7].key[1] == 'a' && fs[10].key[1] == 'i';
  }

  predicate SameKeys(fs: seq<Field>, gs: seq<Field>)
  {
    |fs| == |gs| && forall i :: 0 <= i < |fs| ==> fs[i].key == gs[i].key
  }

  lemma SameFieldValues(fs: seq<Field>, gs: seq<Field>)
    requires WellFormedFields(fs) && WellFormedFields(gs) && MeaningOfFields(fs) == MeaningOfFields(gs)
    requires SameKeys(fs, gs)
    ensures forall i :: 0 <= i < |fs| ==> Meaning(fs[i].value) == Meaning(gs[i].value)
  {
    forall i | 0 <= i < |fs| ensures Meaning(fs[i].value) == Meaning(gs[i].value) {
      MeaningAt(fs, i);
      MeaningAt(gs, i);
    }
  }

  lemma SameTexts(fs: seq<Field>, gs: seq<Field>)
    requires WellFormedFields(fs) && WellFormedFields(gs) && MeaningOfFields(fs) == MeaningOfFields(gs)
    requires SameKeys(fs, gs)
    ensures forall i :: 0 <= i < |fs| && fs[i].value.Str? ==> gs[i].value == fs[i].value
  {
    SameFieldValues(fs, gs);
  }

  lemma CostFieldsSame(v: Work, w: Work)
    requires v.CostCall? && w.CostCall?
    requires forall i :: 0 <= i < 11 && FieldsOf(v)[i].value.Str? ==> FieldsOf(w)[i].value == FieldsOf(v)[i].value
    ensures v == w
  {
    var fs, gs := FieldsOf(v), FieldsOf(w);
    assert gs[0].value == fs[0].value && gs[1].value == fs[1].value && gs[2].value == fs[2].value;
    assert gs[3].value == fs[3].value && gs[10].value == fs[10].value;
  }

  lemma ActionsDiffer(v: Work, w: Work)
    requires ActionOf(v) == ActionOf(w)
    ensures v.Telegram? == w.Telegram? && v.Trello? == w.Trello? && SameKeys(FieldsOf(v), FieldsOf(w))
  {
    assert |TELEGRAM_ACTION| == 21 && |TRELLO_ACTION| == 18 && |COST_ACTION| == 36;
  }

  /** Action and payload together determine the operation and every argument of it. */
  lemma PayloadBindsWork(v: Work, w: Work)
    requires ActionOf(v) == ActionOf(w) && Meaning(PayloadOf(v)) == Meaning(PayloadOf(w))
    ensures v == w
  {
    FieldsWellFormed(v);
    FieldsWellFormed(w);
    ActionsDiffer(v, w);
    var fs, gs := FieldsOf(v), FieldsOf(w);
    SameTexts(fs, gs);
    if v.CostCall? {
      CostFieldsSame(v, w);
    } else {
      assert gs[0].value == fs[0].value && gs[1].value == fs[1].value;
      if v.Trello? { assert gs[2].value == fs[2].value && gs[3].value == fs[3].value; }
    }
  }
}

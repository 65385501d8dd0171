/** The reporting period of a request: a string "begin,end" of dates.  The
    services split it at the comma into the `begin` and `end` parameters of
    the statistics query, and the older services label it by its length in
    days. */
module Period {
  import opened Wrappers
  import opened Js
  import Text

  /** `period.split(',')[0]`. */
  function Begin(period: string): (b: string)
    ensures ',' !in b
  {
    Text.Split(period, ',')[0]
  }

  /** `period.split(',')[1]`, which is `undefined` when there is no comma. */
  function End(period: string): (e: Option<string>)
    ensures e.Some? ==> ',' !in e.value
  {
    var parts := Text.Split(period, ',');
    if |parts| > 1 then Some(parts[1]) else None
  }

  function EndValue(period: string): JsValue {
    match End(period)
    case Some(e) => Str(e)
    case None => Undefined
  }

  /** `p` holds the bounds of `period` as `begin` and `end`. */
  predicate CarriesPeriod(p: Props, period: string) {
    && "begin" in p && p["begin"] == Str(Begin(period))
    && "end" in p && p["end"] == EndValue(period)
  }

  /** The `begin` and `end` members every statistics query receives. */
  function PeriodParams(period: string): (p: Props)
    ensures p.Keys == {"begin", "end"}
    ensures CarriesPeriod(p, period)
  {
    map["begin" := Str(Begin(period)), "end" := EndValue(period)]
  }

  /** A well-formed period "b,e" yields `b` and `e`. */
  lemma RangeBounds(b: string, e: string)
    requires ',' !in b && ',' !in e
    ensures Begin(b + "," + e) == b
    ensures End(b + "," + e) == Some(e)
  {
    var parts := [b, e];
    assert Text.Join(parts[1..], ',') == e;
    assert Text.Join(parts, ',') == b + "," + e;
    Text.SplitJoin(parts, ',');
  }

  /** A single date is the begin, and the end is left `undefined`. */
  lemma SingleDateBounds(d: string)
    requires ',' !in d
    ensures Begin(d) == d
    ensures End(d) == None
  {
    Text.SplitJoin([d], ',');
  }

  /** Begin and end are read from the front of the period: "begin,end" is
      a prefix of it, or the whole period is the begin. */
  lemma BoundsArePrefix(period: string)
    ensures End(period).None? ==> Begin(period) == period
    ensures End(period).Some? ==> Begin(period) + "," + End(period).value <= period
  {
    var parts := Text.Split(period, ',');
    Text.JoinSplit(period, ',');
    if |parts| > 1 {
      var rest := Text.Join(parts[1..], ',');
      assert period == parts[0] + [','] + rest;
      if |parts| > 2 {
        assert rest == parts[1] + [','] + Text.Join(parts[2..], ',');
      }
      assert parts[1] <= rest;
    }
  }

  const Past24Hours := "Past 24 hours"
  const Past48Hours := "Past 48 hours"
  const Past72Hours := "Past 72 hours"
  const PastWeek := "Past week"

  /** The label of a period `days` long; `None` is NaN, which matches no
      case of the strict-equality switch. */
  function PeriodText(days: Option<real>): (text: string)
    ensures text == Past24Hours <==> days == Some(1.0)
    ensures text == Past48Hours <==> days == Some(2.0)
    ensures text == Past72Hours <==> days == Some(3.0)
    ensures text == PastWeek <==> days !in {Some(1.0), Some(2.0), Some(3.0)}
  {
    if days == Some(1.0) then Past24Hours
    else if days == Some(2.0) then Past48Hours
    else if days == Some(3.0) then Past72Hours
    else PastWeek
  }

  /** `getPeriodText(period)`: the day count is the difference of the two
      dates in milliseconds divided by 86 400 000; date parsing is the
      collaborator `dayDiff`.  Without an end the second date is
      `new Date(undefined)`, whose time is NaN, so the count is NaN
      whatever the begin. */
  function PeriodLabel(dayDiff: (string, string) -> Option<real>, period: string): (text: string)
    ensures text in {Past24Hours, Past48Hours, Past72Hours, PastWeek}
    ensures End(period).None? ==> text == PastWeek
    ensures End(period).Some? ==> text == PeriodText(dayDiff(Begin(period), End(period).value))
  {
    match End(period)
    case None => PeriodText(None)
    case Some(e) => PeriodText(dayDiff(Begin(period), e))
  }

  /** A single date, or any period without a comma, is labelled "Past week". */
  lemma SingleDateLabel(dayDiff: (string, string) -> Option<real>, d: string)
    requires ',' !in d
    ensures PeriodLabel(dayDiff, d) == PastWeek
  {
    SingleDateBounds(d);
  }
}

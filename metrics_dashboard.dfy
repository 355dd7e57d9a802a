/** The analytics page of react-chat-app/src/MetricsDashboard.js: four counters folded
    over the logged rows, and the table of the first rows. */
module MetricsDashboard {
  import opened Json
  import opened Slices

  /** The table shows at most this many rows. */
  const SHOWN_ROWS: nat := 50

  /** The two columns of a logged row that the counters read. */
  datatype Row = Row(wasEscalated: Value, feedbackSentiment: Value)

  datatype Totals = Totals(total: nat, escalated: nat, positive: nat, negative: nat)

  const Zero := Totals(0, 0, 0, 0)

  function Add(a: Totals, b: Totals): Totals {
    Totals(a.total + b.total, a.escalated + b.escalated, a.positive + b.positive, a.negative + b.negative)
  }

  /** The three things a row can be counted for. */
  datatype Tally = Escalated | Positive | Negative

  /** `row.was_escalated` is truthy; `row.feedback_sentiment === 'positive'` / `'negative'`. */
  predicate CountsFor(row: Row, t: Tally) {
    match t
    case Escalated => Truthy(row.wasEscalated)
    case Positive => row.feedbackSentiment == Str("positive")
    case Negative => row.feedbackSentiment == Str("negative")
  }

  /** The body of the reducer: one row added to the accumulator. */
  function Step(acc: Totals, row: Row): Totals {
    Totals(acc.total + 1,
           acc.escalated + (if CountsFor(row, Escalated) then 1 else 0),
           acc.positive + (if CountsFor(row, Positive) then 1 else 0),
           acc.negative + (if CountsFor(row, Negative) then 1 else 0))
  }

  /** `rows.reduce(reducer, acc)`, left to right. Each row adds one to `total` and at most
      one to the sentiment counters, since a sentiment cannot be both strings. */
  function FoldFrom(acc: Totals, rows: seq<Row>): (r: Totals)
    ensures r.total == acc.total + |rows|
    ensures acc.escalated <= r.escalated <= acc.escalated + |rows|
    ensures acc.positive <= r.positive && acc.negative <= r.negative
    ensures r.positive + r.negative <= acc.positive + acc.negative + |rows|
    decreases rows
  {
    if rows == [] then acc else FoldFrom(Step(acc, rows[0]), rows[1..])
  }

  /** `totals`: the fold from all zeros. */
  function TotalsOf(rows: seq<Row>): (r: Totals)
    ensures r.total == |rows|
    ensures r.escalated <= r.total && r.positive <= r.total && r.negative <= r.total
    ensures r.positive + r.negative <= r.total
    ensures rows == [] ==> r == Zero
  {
    FoldFrom(Zero, rows)
  }

  /** Reference definition: how many rows count for t. */
  function Count(rows: seq<Row>, t: Tally): (n: nat)
    ensures n <= |rows|
  {
    if rows == [] then 0 else (if CountsFor(rows[0], t) then 1 else 0) + Count(rows[1..], t)
  }

  /** What the fold adds to its accumulator is the count of each kind of row. */
  lemma {:induction false} FoldFromCounts(acc: Totals, rows: seq<Row>)
    ensures FoldFrom(acc, rows) == Totals(acc.total + |rows|,
                                          acc.escalated + Count(rows, Escalated),
                                          acc.positive + Count(rows, Positive),
                                          acc.negative + Count(rows, Negative))
    decreases rows
  {
    if rows != [] {
      FoldFromCounts(Step(acc, rows[0]), rows[1..]);
    }
  }

  /** Each counter is the number of rows that count for it. */
  lemma TotalsMatchCounts(rows: seq<Row>)
    ensures TotalsOf(rows) == Totals(|rows|, Count(rows, Escalated), Count(rows, Positive), Count(rows, Negative))
  {
    FoldFromCounts(Zero, rows);
  }

  lemma {:induction false} CountConcat(a: seq<Row>, b: seq<Row>, t: Tally)
    ensures Count(a + b, t) == Count(a, t) + Count(b, t)
  {
    if a == [] {
      assert a + b == b;
    } else {
      assert (a + b)[1..] == a[1..] + b;
      CountConcat(a[1..], b, t);
    }
  }

  /** The totals of two batches of rows are the sum of their totals. */
  lemma TotalsConcat(a: seq<Row>, b: seq<Row>)
    ensures TotalsOf(a + b) == Add(TotalsOf(a), TotalsOf(b))
  {
    TotalsMatchCounts(a);
    TotalsMatchCounts(b);
    TotalsMatchCounts(a + b);
    CountConcat(a, b, Escalated);
    CountConcat(a, b, Positive);
    CountConcat(a, b, Negative);
  }

  /** `rows.slice(0, 50)`: the first rows in order, at most 50 of them. */
  function Displayed(rows: seq<Row>): (r: seq<Row>)
    ensures |r| <= SHOWN_ROWS && |r| <= |rows| && r == rows[..|r|]
    ensures |r| == if |rows| <= SHOWN_ROWS then |rows| else SHOWN_ROWS
  {
    FirstN(rows, SHOWN_ROWS)
  }

  /** The counters cover every row, the table only its first ones: past 50 rows the
      table is shorter than the total it sits under. */
  lemma TableShorterThanTotals(rows: seq<Row>)
    ensures |Displayed(rows)| <= TotalsOf(rows).total
    ensures |rows| > SHOWN_ROWS ==> |Displayed(rows)| < TotalsOf(rows).total
  {
  }
}

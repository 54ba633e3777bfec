/** The agent's halving truncation, and the body it posts for a finished query. */
module Truncation {
  import opened Tables
  import opened Counting

  /** The separators and rows between the brackets of a JSON array. */
  function Joined(rows: seq<Row>): string
    decreases rows
  {
    if rows == [] then "" else if |rows| == 1 then rows[0] else rows[0] + ", " + Joined(rows[1..])
  }

  /** json.dumps of a list of encoded rows. */
  function Encode(rows: seq<Row>): string {
    "[" + Joined(rows) + "]"
  }

  /** The characters of all rows together. */
  function Total(rows: seq<Row>): nat
    decreases rows
  {
    if rows == [] then 0 else |rows[0]| + Total(rows[1..])
  }

  /** The size of the array: two brackets, the rows, and a two-character separator between rows. */
  lemma {:induction false} EncodedSize(rows: seq<Row>)
    ensures |Encode(rows)| == 2 + Total(rows) + if rows == [] then 0 else 2 * (|rows| - 1)
    decreases rows
  {
    if |rows| > 1 {
      EncodedSize(rows[1..]);
    }
  }

  predicate Fits(rows: seq<Row>) {
    |Encode(rows)| <= MAX_RESULT_BYTES
  }

  lemma {:induction false} LongerIsLarger(rows: seq<Row>, m: nat, n: nat)
    requires m <= n <= |rows|
    ensures |Encode(rows[..m])| <= |Encode(rows[..n])|
    decreases rows
  {
    if m > 0 {
      assert rows[..m][1..] == rows[1..][..m - 1];
      assert rows[..n][1..] == rows[1..][..n - 1];
      LongerIsLarger(rows[1..], m - 1, n - 1);
    }
  }

  function Log2(n: nat): nat {
    if n < 2 then 0 else 1 + Log2(n / 2)
  }

  function Pow2(n: nat): nat {
    if n == 0 then 1 else 2 * Pow2(n - 1)
  }

  lemma {:induction false} Log2Bounds(n: nat)
    requires n > 0
    ensures Pow2(Log2(n)) <= n < Pow2(Log2(n) + 1)
    decreases n
  {
    if n >= 2 {
      Log2Bounds(n / 2);
    }
  }

  lemma {:induction false} Pow2Positive(n: nat)
    ensures Pow2(n) > 0
  {
    if n > 0 { Pow2Positive(n - 1); }
  }

  /** What h halvings leave of n rows. */
  function Part(n: nat, h: nat): (r: nat)
    ensures r <= n
  {
    if h == 0 then n else Part(n, h - 1) / 2
  }

  /** That is n divided by the h-th power of two. */
  lemma {:induction false} PartIsQuotient(n: nat, h: nat)
    ensures Pow2(h) > 0 && Part(n, h) == n / Pow2(h)
  {
    Pow2Positive(h);
    if h > 0 {
      PartIsQuotient(n, h - 1);
      HalvedQuotient(n, Pow2(h - 1));
    }
  }

  lemma HalvedQuotient(n: nat, p: nat)
    requires p > 0
    ensures n / p / 2 == n / (2 * p)
  {
    var q := n / p;
    var h, o := q / 2, q % 2;
    assert n == q * p + n % p;
    assert q * p == 2 * h * p + o * p;
    assert h * (2 * p) == 2 * h * p;
    DivUnique(h, n, 2 * p);
  }

  /** The rows that are left when the loop stops. */
  function Halve(rows: seq<Row>): seq<Row>
    decreases rows
  {
    if rows != [] && !Fits(rows) then Halve(rows[..|rows| / 2]) else rows
  }

  /** The outcome of one DuckDB call, with the milliseconds it took. */
  datatype Query = Fetched(rows: seq<Row>, elapsedMs: nat) | Raised(message: string, elapsedMs: nat)

  function Digits(n: nat): string {
    if n < 10 then ['0' + n as char] else Digits(n / 10) + ['0' + (n % 10) as char]
  }

  function Cut(message: string): string {
    if |message| > 500 then message[..500] else message
  }

  /** The number a string of decimal digits denotes. */
  function Numeral(s: string): nat
    decreases s
  {
    if s == "" then 0
    else 10 * Numeral(s[..|s| - 1]) + if '0' <= s[|s| - 1] <= '9' then (s[|s| - 1] - '0') as int else 0
  }

  lemma {:induction false} DigitsRead(n: nat)
    ensures forall c <- Digits(n) :: '0' <= c <= '9'
    ensures Numeral(Digits(n)) == n && |Digits(n)| > 0 && (n > 0 ==> Digits(n)[0] != '0')
    decreases n
  {
    if n >= 10 {
      DigitsRead(n / 10);
      assert Digits(n)[..|Digits(n)| - 1] == Digits(n / 10);
    } else {
      assert Digits(n)[..0] == "";
    }
  }

  function Failure(code: string, message: string, elapsedMs: nat): Body {
    Body(false, None, None, Some(elapsedMs), false, Some(code), Some(message))
  }

  /** The body the agent program posts. */
  function ProgramBody(query: Query, timeoutMs: nat): Body {
    match query
    case Raised(message, elapsedMs) => Failure("EXECUTION_ERROR", Cut(message), elapsedMs)
    case Fetched(rows, elapsedMs) =>
      if elapsedMs > timeoutMs then
        var message := "Query exceeded " + Digits(timeoutMs) + "ms limit (took " + Digits(elapsedMs) + "ms)";
        Failure("QUERY_TIMEOUT", message, elapsedMs)
      else
        var kept := Halve(rows);
        Body(true, Some(kept), Some(|kept|), Some(elapsedMs), !Fits(rows), None, None)
  }

  /**
    What a body says of the query it reports, whatever computed it: all the rows, or, if they are
    more than 1 MB of JSON, a prefix that fits and is at least half as long as any that does; too
    late, or the error's first 500 characters; and always how long it took.
   */
  predicate Reports(body: Body, query: Query, timeoutMs: nat) {
    && body.executionMs == Some(query.elapsedMs)
    && match query
       case Raised(message, _) =>
         && !body.success && body.rows == None && body.rowCount == None && !body.truncated
         && body.errorCode == Some("EXECUTION_ERROR")
         && body.errorMessage.Some? && body.errorMessage.value <= message
         && |body.errorMessage.value| == if |message| > 500 then 500 else |message|
       case Fetched(rows, elapsedMs) =>
         if elapsedMs > timeoutMs then
           && !body.success && body.rows == None && body.rowCount == None && !body.truncated
           && body.errorCode == Some("QUERY_TIMEOUT")
           && body.errorMessage ==
                Some("Query exceeded " + Digits(timeoutMs) + "ms limit (took " + Digits(elapsedMs) + "ms)")
         else
           && body.success && body.errorCode == None && body.errorMessage == None
           && body.rows.Some? && body.rowCount == Some(|body.rows.value|)
           && Keeps(body.rows.value, rows) && (body.truncated <==> |body.rows.value| < |rows|)
  }

  /** What is kept of the rows. */
  predicate Keeps(kept: seq<Row>, rows: seq<Row>) {
    && kept <= rows && |Encode(kept)| <= 1_048_576
    && (|Encode(rows)| <= 1_048_576 ==> kept == rows)
    && forall m: nat | m <= |rows| && |Encode(rows[..m])| <= 1_048_576 :: m <= 2 * |kept|
  }

  lemma HalveKeeps(rows: seq<Row>)
    ensures Keeps(Halve(rows), rows)
    ensures |Halve(rows)| < |rows| <==> !Fits(rows)
  {
    forall m: nat | m <= |rows| && |Encode(rows[..m])| <= 1_048_576 ensures m <= 2 * |Halve(rows)| {
      HalvingApproximates(rows, m);
    }
    HalvingApproximates(rows, 0);
  }

  lemma ProgramBodyReports(query: Query, timeoutMs: nat)
    ensures Reports(ProgramBody(query, timeoutMs), query, timeoutMs)
  {
    if query.Fetched? {
      HalveKeeps(query.rows);
    }
  }

  /** What a stored result may look like: a success counts its rows and fits the limit; an error has no rows. */
  predicate Presentable(body: Body) {
    if body.success then
      body.rows.Some? && body.rowCount == Some(|body.rows.value|) && Fits(body.rows.value)
    else
      body.rows.None? && body.errorCode.Some?
  }

  /**
    What halving keeps: a prefix that fits, of at least half the length of the longest prefix
    that fits, and everything when everything fits.
   */
  lemma {:induction false} HalvingApproximates(rows: seq<Row>, m: nat)
    requires m <= |rows|
    ensures Halve(rows) <= rows && Fits(Halve(rows))
    ensures Fits(rows) <==> Halve(rows) == rows
    ensures Fits(rows[..m]) ==> m <= if Fits(rows) then |Halve(rows)| else 2 * |Halve(rows)|
    decreases rows
  {
    if Fits(rows) {
      assert rows[..m] <= rows;
    } else if rows != [] {
      var half := rows[..|rows| / 2];
      var m' := if m <= |half| then m else |half|;
      HalvingApproximates(half, m');
      assert rows[..|rows|] == rows;
      if Fits(rows[..m]) {
        LongerIsLarger(rows, m', m);
        assert half[..m'] == rows[..m'];
        assert half[..|half|] == half;
      }
    }
  }

  /** The truncation loop, with the number of halvings it makes: as few as make the rows fit. */
  method Truncate(rows: seq<Row>) returns (kept: seq<Row>, truncated: bool, ghost halvings: nat)
    ensures kept == Halve(rows)
    ensures Keeps(kept, rows)
    ensures truncated <==> |kept| < |rows|
    ensures halvings <= Log2(|rows|) + 1
    ensures kept == rows[..Part(|rows|, halvings)]
    ensures forall h: nat | h < halvings :: |Encode(rows[..Part(|rows|, h)])| > 1_048_576
  {
    kept, truncated, halvings := rows, false, 0;
    assert rows[..Part(|rows|, 0)] == rows;
    if |Encode(rows)| > MAX_RESULT_BYTES {
      while kept != [] && |Encode(kept)| > MAX_RESULT_BYTES
        invariant Halve(kept) == Halve(rows)
        invariant kept != [] ==> halvings + Log2(|kept|) <= Log2(|rows|)
        invariant halvings <= Log2(|rows|) + 1
        invariant kept == rows[..Part(|rows|, halvings)]
        invariant forall h: nat | h < halvings :: |Encode(rows[..Part(|rows|, h)])| > 1_048_576
        decreases |kept|
      {
        kept := kept[..|kept| / 2];
        halvings := halvings + 1;
      }
      truncated := true;
    }
    HalveKeeps(rows);
  }

  /** execute_query after the fetch. */
  method ExecuteQuery(query: Query, timeoutMs: nat) returns (body: Body)
    ensures Reports(body, query, timeoutMs)
    ensures body == ProgramBody(query, timeoutMs)
    ensures Presentable(body)
    ensures body.success <==> query.Fetched? && query.elapsedMs <= timeoutMs
    ensures body.truncated <==> body.success && |body.rows.value| < |query.rows|
  {
    match query {
      case Raised(message, elapsedMs) =>
        body := Failure("EXECUTION_ERROR", Cut(message), elapsedMs);
      case Fetched(rows, elapsedMs) =>
        if elapsedMs > timeoutMs {
          var message := "Query exceeded " + Digits(timeoutMs) + "ms limit (took " + Digits(elapsedMs) + "ms)";
          body := Failure("QUERY_TIMEOUT", message, elapsedMs);
        } else {
          var kept, truncated, _ := Truncate(rows);
          body := Body(true, Some(kept), Some(|kept|), Some(elapsedMs), truncated, None, None);
        }
    }
    ProgramBodyReports(query, timeoutMs);
    ProgramBodyPresentable(query, timeoutMs);
  }

  lemma ProgramBodyPresentable(query: Query, timeoutMs: nat)
    ensures Presentable(ProgramBody(query, timeoutMs))
  {
    if query.Fetched? {
      HalvingApproximates(query.rows, 0);
    }
  }
}

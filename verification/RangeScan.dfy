/** What the range queries of services/sstable-loader/src/token_range.cpp read: the text of a query carries its
    bounds, and scanning range by range reads the whole table. */
module RangeScan {
  import opened MachineIntegers
  import opened TokenRanges

  // ---------------------------------------------------------------------------
  // Decimal numbers
  // ---------------------------------------------------------------------------

  function Digit(d: nat): char
    requires d < 10
  {
    ('0' as int + d) as char
  }

  function Digits(n: nat): (s: string)
    ensures s != [] && forall i :: 0 <= i < |s| ==> '0' <= s[i] <= '9'
  {
    if n < 10 then [Digit(n)] else Digits(n / 10) + [Digit(n % 10)]
  }

  /** `std::to_string`. */
  function Decimal(n: int): (s: string)
    ensures forall i :: 0 <= i < |s| ==> s[i] != ' '
    ensures s != []
  {
    if n < 0 then "-" + Digits(-n) else Digits(n)
  }

  function ParseDigits(s: string): int
    requires forall i :: 0 <= i < |s| ==> '0' <= s[i] <= '9'
  {
    if s == [] then 0 else ParseDigits(s[..|s| - 1]) * 10 + (s[|s| - 1] as int - '0' as int)
  }

  predicate IsDecimal(s: string) {
    s != [] && forall i :: 0 <= i < |s| ==> '0' <= s[i] <= '9' || (i == 0 && s[i] == '-')
  }

  function ParseDecimal(s: string): int
    requires IsDecimal(s)
  {
    if s[0] == '-' then -ParseDigits(s[1..]) else ParseDigits(s)
  }

  lemma {:induction false} DigitsRoundTrip(n: nat)
    ensures ParseDigits(Digits(n)) == n
  {
    if n >= 10 {
      DigitsRoundTrip(n / 10);
      assert Digits(n)[..|Digits(n)| - 1] == Digits(n / 10);
    } else {
      assert Digits(n)[..0] == [];
    }
  }

  lemma DecimalRoundTrip(n: int)
    ensures IsDecimal(Decimal(n)) && ParseDecimal(Decimal(n)) == n
  {
    if n < 0 {
      DigitsRoundTrip(-n);
      assert Decimal(n)[1..] == Digits(-n);
    } else {
      DigitsRoundTrip(n);
    }
  }

  // ---------------------------------------------------------------------------
  // The range query
  // ---------------------------------------------------------------------------

  function Join(keys: seq<string>): string {
    if keys == [] then "" else if |keys| == 1 then keys[0]
    else Join(keys[..|keys| - 1]) + ", " + keys[|keys| - 1]
  }

  function QueryHead(table: string, columns: string): string {
    "SELECT JSON * FROM " + table + " WHERE token(" + columns + ") >= "
  }

  function QueryMiddle(columns: string): string {
    " AND token(" + columns + ") <= "
  }

  function RangeQuery(table: string, keys: seq<string>, range: TokenRange): string {
    QueryHead(table, Join(keys)) + Decimal(range.start) + QueryMiddle(Join(keys)) + Decimal(range.end)
  }

  method BuildRangeQuery(table: string, keys: seq<string>, range: TokenRange) returns (query: string)
    ensures query == RangeQuery(table, keys, range)
    ensures forall token :: Admits(query, table, keys, token) <==> range.start <= token <= range.end
  {
    hide Admits;
    var columns := "";
    for i := 0 to |keys|
      invariant columns == Join(keys[..i])
    {
      if i > 0 {
        columns := columns + ", ";
      }
      columns := columns + keys[i];
      assert keys[..i + 1][..i] == keys[..i];
    }
    assert keys[..|keys|] == keys;
    query := "SELECT JSON * FROM " + table + " WHERE token(" + columns + ") >= " + Decimal(range.start)
             + " AND token(" + columns + ") <= " + Decimal(range.end);
    QueryAsPrinted(table, columns, Decimal(range.start), Decimal(range.end));
    forall token ensures Admits(query, table, keys, token) <==> range.start <= token <= range.end {
      QueryAdmitsItsRange(table, keys, range, token);
    }
  }

  lemma QueryAsPrinted(table: string, columns: string, low: string, high: string)
    ensures "SELECT JSON * FROM " + table + " WHERE token(" + columns + ") >= " + low
            + " AND token(" + columns + ") <= " + high
         == QueryHead(table, columns) + low + QueryMiddle(columns) + high
  {
  }

  // ---------------------------------------------------------------------------
  // What a query text means
  // ---------------------------------------------------------------------------

  // A reader of query texts that knows nothing of how they are built: a statement over one table with two comparisons
  // of the token of the key columns.

  /** The text up to the first blank. */
  function Word(s: string): (w: string)
    ensures w <= s
  {
    if s == [] || s[0] == ' ' then [] else [s[0]] + Word(s[1..])
  }

  /** A comparison of a token with a number. */
  predicate Compare(operator: string, token: int, number: int) {
    || (operator == "<" && token < number) || (operator == "<=" && token <= number)
    || (operator == ">" && token > number) || (operator == ">=" && token >= number)
    || (operator == "=" && token == number)
  }

  /** The key columns as they stand between parentheses, in order and separated by a comma and a blank. */
  function Listed(keys: seq<string>): string {
    if keys == [] then "" else if |keys| == 1 then keys[0] else keys[0] + ", " + Listed(keys[1..])
  }

  datatype Comparison = NoComparison | Comparison(operator: string, number: int, rest: string)

  /** Reads "token(columns) operator number" off the front of a text. */
  function ReadComparison(text: string, columns: string): Comparison {
    var term := "token(" + columns + ") ";
    if !(term <= text) then NoComparison
    else
      var operator := Word(text[|term|..]);
      var rest := text[|term| + |operator|..];
      if rest == [] || rest[0] != ' ' then NoComparison
      else
        var number := Word(rest[1..]);
        if IsDecimal(number) then Comparison(operator, ParseDecimal(number), rest[1 + |number|..]) else NoComparison
  }

  /** The query selects the row of `table` with this token: both comparisons hold. */
  predicate Admits(text: string, table: string, keys: seq<string>, token: int) {
    var head := "SELECT JSON * FROM " + table + " WHERE ";
    && head <= text
    && var first := ReadComparison(text[|head|..], Listed(keys));
       && first.Comparison? && Compare(first.operator, token, first.number)
       && " AND " <= first.rest
       && var second := ReadComparison(first.rest[5..], Listed(keys));
          second.Comparison? && second.rest == [] && Compare(second.operator, token, second.number)
  }

  /** The joining loop lists the columns in order. */
  lemma {:induction false} JoinIsListed(keys: seq<string>)
    ensures Join(keys) == Listed(keys)
  {
    if |keys| > 1 {
      JoinIsListed(keys[..|keys| - 1]);
      ListedSnoc(keys[..|keys| - 1], keys[|keys| - 1]);
      assert keys[..|keys| - 1] + [keys[|keys| - 1]] == keys;
    }
  }

  lemma {:induction false} ListedSnoc(keys: seq<string>, key: string)
    requires keys != []
    ensures Listed(keys + [key]) == Listed(keys) + ", " + key
  {
    if |keys| == 1 {
      assert (keys + [key])[1..] == [key];
    } else {
      ListedSnoc(keys[1..], key);
      assert (keys + [key])[1..] == keys[1..] + [key];
    }
  }

  lemma {:induction false} WordOf(w: string, rest: string)
    requires (forall i :: 0 <= i < |w| ==> w[i] != ' ') && (rest == [] || rest[0] == ' ')
    ensures Word(w + rest) == w
  {
    if w == [] {
      assert w + rest == rest;
    } else {
      assert (w + rest)[1..] == w[1..] + rest;
      WordOf(w[1..], rest);
    }
  }

  /** The reader undoes the printing of one comparison. */
  lemma ComparisonReadsBack(columns: string, operator: string, number: int, rest: string)
    requires (forall i :: 0 <= i < |operator| ==> operator[i] != ' ') && (rest == [] || rest[0] == ' ')
    ensures ReadComparison("token(" + columns + ") " + operator + " " + Decimal(number) + rest, columns)
         == Comparison(operator, number, rest)
  {
    hide Word, Decimal, ParseDecimal, IsDecimal;
    var term := "token(" + columns + ") ";
    var text := term + operator + " " + Decimal(number) + rest;
    var after := " " + Decimal(number) + rest;
    assert text[|term|..] == operator + after;
    WordOf(operator, after);
    assert text[|term| + |operator|..] == after;
    assert after[1..] == Decimal(number) + rest;
    WordOf(Decimal(number), rest);
    assert after[1 + |Decimal(number)|..] == rest;
    DecimalRoundTrip(number);
  }

  /** The text of a range query, in the reader's terms. */
  lemma QueryComparisons(table: string, columns: string, low: int, high: int)
    ensures QueryHead(table, columns) + Decimal(low) + QueryMiddle(columns) + Decimal(high)
         == "SELECT JSON * FROM " + table + " WHERE "
            + ("token(" + columns + ") " + ">=" + " " + Decimal(low)
               + (" AND " + ("token(" + columns + ") " + "<=" + " " + Decimal(high) + [])))
  {
    hide Decimal;
    HeadAsRead(table, columns);
    MiddleAsRead(columns);
  }

  lemma HeadAsRead(table: string, columns: string)
    ensures QueryHead(table, columns)
         == "SELECT JSON * FROM " + table + " WHERE " + ("token(" + columns + ") " + ">=" + " ")
  {
  }

  lemma MiddleAsRead(columns: string)
    ensures QueryMiddle(columns) == " AND " + ("token(" + columns + ") " + "<=" + " ")
  {
  }

  /** The meaning of a range query is its closed interval: read back from its text, over the table and the key columns
      given, it admits exactly the tokens of the range. */
  lemma QueryAdmitsItsRange(table: string, keys: seq<string>, range: TokenRange, token: int)
    ensures Admits(RangeQuery(table, keys, range), table, keys, token) <==> range.start <= token <= range.end
  {
    hide QueryHead, QueryMiddle, Join, Listed, Decimal, ReadComparison;
    JoinIsListed(keys);
    var columns := Listed(keys);
    var second := "token(" + columns + ") " + "<=" + " " + Decimal(range.end) + [];
    var rest := " AND " + second;
    var first := "token(" + columns + ") " + ">=" + " " + Decimal(range.start) + rest;
    QueryComparisons(table, columns, range.start, range.end);
    ComparisonReadsBack(columns, ">=", range.start, rest);
    ComparisonReadsBack(columns, "<=", range.end, []);
    AdmitsByComparisons(table, keys, token, first, second, range.start, range.end);
  }

  lemma AdmitsByComparisons(table: string, keys: seq<string>, token: int, first: string, second: string,
                            low: int, high: int)
    requires ReadComparison(first, Listed(keys)) == Comparison(">=", low, " AND " + second)
    requires ReadComparison(second, Listed(keys)) == Comparison("<=", high, [])
    ensures Admits("SELECT JSON * FROM " + table + " WHERE " + first, table, keys, token) <==> low <= token <= high
  {
    hide ReadComparison, Listed;
    var head := "SELECT JSON * FROM " + table + " WHERE ";
    assert (head + first)[|head|..] == first;
    assert (" AND " + second)[5..] == second;
    Operators(token, low, high);
  }

  lemma Operators(token: int, low: int, high: int)
    ensures Compare(">=", token, low) <==> token >= low
    ensures Compare("<=", token, high) <==> token <= high
  {
    assert ">="[0] == '>' && "<="[0] == '<' && |">"| == 1 && |"<"| == 1 && |"="| == 1;
  }

  // ---------------------------------------------------------------------------
  // Scanning
  // ---------------------------------------------------------------------------

  datatype Row = Row(token: int64, json: string)

  /** The rows a closed-interval query returns. */
  function Select(rows: seq<Row>, range: TokenRange): seq<Row> {
    if rows == [] then []
    else (if range.Contains(rows[0].token) then [rows[0]] else []) + Select(rows[1..], range)
  }

  /** All rows read when the ranges with the given numbers are scanned one after the other. */
  function Scan(rows: seq<Row>, ranges: seq<TokenRange>, indices: seq<nat>): seq<Row>
    requires forall k :: 0 <= k < |indices| ==> indices[k] < |ranges|
  {
    if indices == [] then [] else Select(rows, ranges[indices[0]]) + Scan(rows, ranges, indices[1..])
  }

  lemma {:induction false} CountSelected(rows: seq<Row>, range: TokenRange, row: Row)
    ensures multiset(Select(rows, range))[row] == if range.Contains(row.token) then multiset(rows)[row] else 0
  {
    if rows != [] {
      CountSelected(rows[1..], range, row);
      assert rows == [rows[0]] + rows[1..];
    }
  }

  // What the texts sent to the source read, by their meaning alone.

  /** The rows that the query with this text returns. */
  function SelectByText(rows: seq<Row>, text: string, table: string, keys: seq<string>): seq<Row> {
    if rows == [] then []
    else (if Admits(text, table, keys, rows[0].token) then [rows[0]] else [])
         + SelectByText(rows[1..], text, table, keys)
  }

  /** The rows that the queries of a list return, one after the other. */
  function ReadByTexts(rows: seq<Row>, texts: seq<string>, table: string, keys: seq<string>): seq<Row> {
    if texts == [] then []
    else ReadByTexts(rows, texts[..|texts| - 1], table, keys) + SelectByText(rows, texts[|texts| - 1], table, keys)
  }

  lemma {:induction false} RangeTextSelects(rows: seq<Row>, table: string, keys: seq<string>, range: TokenRange)
    ensures SelectByText(rows, RangeQuery(table, keys, range), table, keys) == Select(rows, range)
  {
    hide Admits, RangeQuery;
    if rows != [] {
      QueryAdmitsItsRange(table, keys, range, rows[0].token);
      RangeTextSelects(rows[1..], table, keys, range);
    }
  }

  /** A statement that is not a range query over the table returns none of its rows. */
  lemma {:induction false} OtherTextSelectsNothing(rows: seq<Row>, text: string, table: string, keys: seq<string>)
    requires forall token :: !Admits(text, table, keys, token)
    ensures SelectByText(rows, text, table, keys) == []
  {
    hide Admits;
    if rows != [] {
      OtherTextSelectsNothing(rows[1..], text, table, keys);
    }
  }

  lemma {:induction false} ReadByBoth(rows: seq<Row>, a: seq<string>, b: seq<string>, table: string, keys: seq<string>)
    ensures ReadByTexts(rows, a + b, table, keys)
         == ReadByTexts(rows, a, table, keys) + ReadByTexts(rows, b, table, keys)
  {
    hide SelectByText;
    if b == [] {
      assert a + b == a;
    } else {
      assert (a + b)[..|a + b| - 1] == a + b[..|b| - 1];
      ReadByBoth(rows, a, b[..|b| - 1], table, keys);
    }
  }

  predicate Distinct(indices: seq<nat>) {
    forall i, j :: 0 <= i < j < |indices| ==> indices[i] != indices[j]
  }

  /** Every row is read once if its range was scanned, and not at all otherwise. */
  lemma {:induction false} CountScanned(rows: seq<Row>, ranges: seq<TokenRange>, indices: seq<nat>, row: Row)
    requires IsPartition(ranges) && Distinct(indices)
    requires forall k :: 0 <= k < |indices| ==> indices[k] < |ranges|
    ensures multiset(Scan(rows, ranges, indices))[row] ==
            if Locate(|ranges|, row.token) in indices then multiset(rows)[row] else 0
  {
    hide Locate;
    if indices != [] {
      var at := Locate(|ranges|, row.token);
      CountSelected(rows, ranges[indices[0]], row);
      OneRangePerToken(ranges, row.token);
      CountScanned(rows, ranges, indices[1..], row);
      assert indices == [indices[0]] + indices[1..];
      if indices[0] == at {
        assert at !in indices[1..];
      }
    }
  }

  /** What a scan of some ranges reads: exactly the rows whose token lies in a scanned range, each once. */
  lemma ScanReadsItsRanges(rows: seq<Row>, ranges: seq<TokenRange>, indices: seq<nat>)
    requires IsPartition(ranges) && Distinct(indices)
    requires forall k :: 0 <= k < |indices| ==> indices[k] < |ranges|
    ensures forall row: Row ::
              multiset(Scan(rows, ranges, indices))[row] ==
              if Locate(|ranges|, row.token) in indices then multiset(rows)[row] else 0
  {
    hide Locate, Scan, Distinct;
    forall row: Row
      ensures multiset(Scan(rows, ranges, indices))[row] ==
              if Locate(|ranges|, row.token) in indices then multiset(rows)[row] else 0
    {
      CountScanned(rows, ranges, indices, row);
    }
  }

  /** Scanning every range, in any order, reads the whole table: the same rows with the same multiplicities. */
  lemma ScanReadsWholeTable(rows: seq<Row>, ranges: seq<TokenRange>, indices: seq<nat>)
    requires IsPartition(ranges) && Distinct(indices)
    requires forall k :: 0 <= k < |indices| ==> indices[k] < |ranges|
    requires forall i :: 0 <= i < |ranges| ==> i in indices
    ensures multiset(Scan(rows, ranges, indices)) == multiset(rows)
  {
    hide Locate, Scan, Distinct;
    forall row: Row ensures multiset(Scan(rows, ranges, indices))[row] == multiset(rows)[row] {
      CountScanned(rows, ranges, indices, row);
      OneRangePerToken(ranges, row.token);
    }
  }
}

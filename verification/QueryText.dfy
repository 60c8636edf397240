/** The text scanner of services/dual-writer/src/cql_server.cpp: which statements count as writes,
    and which table a write is aimed at. Characters follow the C locale. */
module QueryText {

  predicate IsSpace(c: char) {
    c == ' ' || '\t' <= c <= '\r'
  }

  function Upper(c: char): char {
    if 'a' <= c <= 'z' then (c as int - 32) as char else c
  }

  function UpperAll(s: string): (u: string)
    ensures |u| == |s|
    ensures forall i :: 0 <= i < |s| ==> u[i] == Upper(s[i])
  {
    seq(|s|, i requires 0 <= i < |s| => Upper(s[i]))
  }

  predicate AllSpace(s: string) {
    forall i :: 0 <= i < |s| ==> IsSpace(s[i])
  }

  /** The character ends a table name. */
  predicate EndsToken(c: char) {
    IsSpace(c) || c == '(' || c == ';'
  }

  predicate OccursAt(text: string, word: string, at: int) {
    0 <= at <= |text| - |word| && text[at..at + |word|] == word
  }

  /** `at` is what `text.find(word)` returns, -1 standing for npos. */
  ghost predicate IsFind(text: string, word: string, at: int) {
    if at < 0 then at == -1 && forall i :: !OccursAt(text, word, i)
    else OccursAt(text, word, at) && forall i :: i < at ==> !OccursAt(text, word, i)
  }

  function Find(text: string, word: string): (at: int)
    ensures IsFind(text, word, at)
  {
    FindFrom(text, word, 0)
  }

  function FindFrom(text: string, word: string, from: nat): (at: int)
    requires from <= |text| + 1
    requires forall i :: i < from ==> !OccursAt(text, word, i)
    ensures IsFind(text, word, at)
    decreases |text| + 1 - from
  {
    if from > |text| then -1
    else if OccursAt(text, word, from) then from
    else FindFrom(text, word, from + 1)
  }

  function SkipSpaces(s: string): (rest: string)
    ensures |rest| <= |s| && rest == s[|s| - |rest|..] && AllSpace(s[..|s| - |rest|])
    ensures rest != [] ==> !IsSpace(rest[0])
  {
    if s == [] || !IsSpace(s[0]) then s
    else
      var rest := SkipSpaces(s[1..]);
      LongerByOne(s, rest);
      rest
  }

  /** A blank in front of the skipped part is skipped too. */
  lemma LongerByOne(s: string, rest: string)
    requires s != [] && IsSpace(s[0]) && |rest| < |s|
    requires rest == s[1..][|s| - 1 - |rest|..] && AllSpace(s[1..][..|s| - 1 - |rest|])
    ensures rest == s[|s| - |rest|..] && AllSpace(s[..|s| - |rest|])
  {
    hide IsSpace;
    var n := |s| - |rest|;
    forall i | 0 <= i < n ensures IsSpace(s[..n][i]) {
      assert i > 0 ==> s[1..][..n - 1][i - 1] == s[i];
    }
    assert s[1..][n - 1..] == s[n..];
  }

  /** The longest prefix without a terminator. */
  function Token(s: string): (t: string)
    ensures t <= s
    ensures forall i :: 0 <= i < |t| ==> !EndsToken(t[i])
    ensures |t| < |s| ==> EndsToken(s[|t|])
  {
    if s == [] || EndsToken(s[0]) then [] else [s[0]] + Token(s[1..])
  }

  // ---------------------------------------------------------------------------
  // Write detection
  // ---------------------------------------------------------------------------

  predicate StartsWith(s: string, word: string) {
    |s| >= |word| && UpperAll(s[..|word|]) == word
  }

  /** Leading blanks aside, the statement starts with one of the three write keywords, in any case. */
  predicate IsWrite(query: string) {
    var trimmed := SkipSpaces(query);
    StartsWith(trimmed, "INSERT") || StartsWith(trimmed, "UPDATE") || StartsWith(trimmed, "DELETE")
  }

  method StartsWithCi(s: string, prefix: string) returns (r: bool)
    requires prefix in {"INSERT", "UPDATE", "DELETE"}
    ensures r == StartsWith(s, prefix)
  {
    assert UpperAll(prefix) == prefix;
    if |s| < |prefix| { return false; }
    for i := 0 to |prefix|
      invariant forall j :: 0 <= j < i ==> Upper(s[j]) == prefix[j]
    {
      if Upper(s[i]) != Upper(prefix[i]) {
        assert UpperAll(s[..|prefix|])[i] != UpperAll(prefix)[i];
        return false;
      }
      assert Upper(prefix[i]) == UpperAll(prefix)[i];
    }
    assert UpperAll(s[..|prefix|]) == prefix;
    r := true;
  }

  method IsWriteQuery(query: string) returns (r: bool)
    ensures r == IsWrite(query)
  {
    hide StartsWith, SkipSpaces;
    var start := SkipBlanks(query, 0);
    var trimmed := query[start..];
    assert query[0..] == query;
    var insert := StartsWithCi(trimmed, "INSERT");
    var update := StartsWithCi(trimmed, "UPDATE");
    var delete := StartsWithCi(trimmed, "DELETE");
    r := insert || update || delete;
  }

  method SkipBlanks(s: string, from: nat) returns (pos: nat)
    requires from <= |s|
    ensures from <= pos <= |s| && s[pos..] == SkipSpaces(s[from..])
  {
    hide SkipSpaces;
    pos := from;
    while pos < |s| && IsSpace(s[pos])
      invariant from <= pos <= |s|
      invariant SkipSpaces(s[pos..]) == SkipSpaces(s[from..])
    {
      SkipsOne(s[pos..]);
      assert s[pos..][1..] == s[pos + 1..];
      pos := pos + 1;
    }
    SkipsNone(s[pos..]);
  }

  lemma SkipsOne(s: string)
    requires s != [] && IsSpace(s[0])
    ensures SkipSpaces(s) == SkipSpaces(s[1..])
  {
  }

  lemma SkipsNone(s: string)
    requires s == [] || !IsSpace(s[0])
    ensures SkipSpaces(s) == s
  {
  }

  // ---------------------------------------------------------------------------
  // Table extraction
  // ---------------------------------------------------------------------------

  /** Where each keyword first occurs, or -1. */
  function IntoAt(upper: string): int {
    Find(upper, "INTO")
  }

  function UpdateAt(upper: string): int {
    Find(upper, "UPDATE")
  }

  function FromAt(upper: string): int {
    Find(upper, "FROM")
  }

  /** Where the text after the chosen keyword starts: the first INTO, else the first UPDATE, else
      the first FROM, else -1. */
  function KeywordEnd(upper: string): (end: int)
    ensures -1 <= end <= |upper|
  {
    if IntoAt(upper) >= 0 then IntoAt(upper) + 4
    else if UpdateAt(upper) >= 0 then UpdateAt(upper) + 6
    else if FromAt(upper) >= 0 then FromAt(upper) + 4
    else -1
  }

  /** What `extract_table_target` returns. */
  function Target(query: string): string {
    var end := KeywordEnd(UpperAll(query));
    if end < 0 then "unknown" else Token(SkipSpaces(query[end..]))
  }

  method FindWord(text: string, word: string) returns (at: int)
    requires word != []
    ensures at == Find(text, word)
  {
    at := 0;
    while at + |word| <= |text|
      invariant 0 <= at <= |text| + 1
      invariant forall i :: i < at ==> !OccursAt(text, word, i)
    {
      if text[at..at + |word|] == word {
        assert OccursAt(text, word, at);
        return;
      }
      at := at + 1;
    }
    assert forall i :: !OccursAt(text, word, i);
    at := -1;
  }

  method ToUpper(query: string) returns (upper: string)
    ensures upper == UpperAll(query)
  {
    upper := [];
    for i := 0 to |query|
      invariant |upper| == i && forall j :: 0 <= j < i ==> upper[j] == Upper(query[j])
    {
      upper := upper + [Upper(query[i])];
    }
  }

  method FindKeywordEnd(upper: string) returns (pos: int)
    ensures pos == KeywordEnd(upper)
  {
    hide Find, IsFind;
    var into := FindWord(upper, "INTO");
    if into >= 0 { return into + 4; }
    var update := FindWord(upper, "UPDATE");
    if update >= 0 { return update + 6; }
    var from := FindWord(upper, "FROM");
    if from >= 0 { return from + 4; }
    pos := -1;
  }

  method TakeToken(query: string, start: nat) returns (token: string)
    requires start <= |query|
    ensures token == Token(query[start..])
  {
    var end := start;
    while end < |query| && !EndsToken(query[end])
      invariant start <= end <= |query|
      invariant forall i :: start <= i < end ==> !EndsToken(query[i])
    {
      end := end + 1;
    }
    token := query[start..end];
    TokenIsName(token, query[end..]);
    assert query[start..] == token + query[end..];
  }

  method ExtractTableTarget(query: string) returns (target: string)
    ensures target == Target(query)
  {
    hide KeywordEnd, Token, SkipSpaces, UpperAll;
    var upper := ToUpper(query);
    var pos := FindKeywordEnd(upper);
    if pos == -1 { return "unknown"; }
    var start := SkipBlanks(query, pos);
    target := TakeToken(query, start);
  }

  // ---------------------------------------------------------------------------
  // Statements and their targets
  // ---------------------------------------------------------------------------

  /** A table name as it can stand in a statement: not empty and free of terminators. */
  predicate IsName(table: string) {
    table != [] && forall i :: 0 <= i < |table| ==> !EndsToken(table[i])
  }

  /** What may follow a table name: nothing, or a blank, a parenthesis or a semicolon. */
  predicate IsTail(tail: string) {
    tail == [] || EndsToken(tail[0])
  }

  /** `word` in some mixture of cases. */
  predicate Spells(text: string, word: string) {
    UpperAll(text) == word
  }

  lemma {:induction false} SkipsBlanks(blanks: string, rest: string)
    requires AllSpace(blanks) && (rest == [] || !IsSpace(rest[0]))
    ensures SkipSpaces(blanks + rest) == rest
  {
    if blanks == [] {
      assert blanks + rest == rest;
    } else {
      assert (blanks + rest)[1..] == blanks[1..] + rest;
      SkipsBlanks(blanks[1..], rest);
    }
  }

  lemma {:induction false} TokenIsName(table: string, tail: string)
    requires (forall i :: 0 <= i < |table| ==> !EndsToken(table[i])) && IsTail(tail)
    ensures Token(table + tail) == table
  {
    if table == [] {
      assert table + tail == tail;
    } else {
      assert (table + tail)[1..] == table[1..] + tail;
      TokenIsName(table[1..], tail);
    }
  }

  /** After the keyword, blanks and a name: the token is the name. */
  lemma NameAfterKeyword(pre: string, blanks: string, table: string, tail: string)
    requires AllSpace(blanks) && IsName(table) && IsTail(tail)
    ensures Token(SkipSpaces((pre + blanks + table + tail)[|pre|..])) == table
  {
    var query := pre + blanks + table + tail;
    assert query[|pre|..] == blanks + (table + tail);
    assert (table + tail)[0] == table[0];
    SkipsBlanks(blanks, table + tail);
    TokenIsName(table, tail);
  }

  lemma SpelledAt(lead: string, text: string, word: string, rest: string)
    requires Spells(text, word)
    ensures OccursAt(UpperAll(lead + text + rest), word, |lead|)
  {
    var u := UpperAll(lead + text + rest);
    assert |word| == |text|;
    assert forall i :: 0 <= i < |text| ==> u[|lead| + i] == UpperAll(text)[i];
    assert u[|lead|..|lead| + |word|] == word;
  }

  lemma FindUnique(text: string, word: string, at: int)
    requires OccursAt(text, word, at) && forall i :: 0 <= i < at ==> !OccursAt(text, word, i)
    ensures Find(text, word) == at
  {
  }

  /** A statement that starts with a write keyword, blanks aside, is classified as a write. */
  lemma KeywordMakesWrite(lead: string, keyword: string, word: string, rest: string)
    requires AllSpace(lead) && word in {"INSERT", "UPDATE", "DELETE"} && Spells(keyword, word)
    ensures IsWrite(lead + keyword + rest)
  {
    assert UpperAll(keyword)[0] == word[0];
    assert lead + keyword + rest == lead + (keyword + rest);
    SkipsBlanks(lead, keyword + rest);
    assert (keyword + rest)[..|word|] == keyword;
  }

  /** The text is blanks, the word in some mixture of cases, and anything. */
  ghost predicate StartsAs(text: string, lead: string, keyword: string, word: string, rest: string) {
    AllSpace(lead) && Spells(keyword, word) && text == lead + keyword + rest
  }

  /** A statement is classified as a write if and only if it starts, blanks aside, with INSERT, UPDATE or DELETE in some
      mixture of cases; every other text is rejected. */
  lemma WriteStartsWithKeyword(query: string)
    ensures IsWrite(query) <==>
            exists lead, keyword, word, rest ::
              word in {"INSERT", "UPDATE", "DELETE"} && StartsAs(query, lead, keyword, word, rest)
  {
    hide SkipSpaces, StartsAs, StartsWith;
    if IsWrite(query) {
      var word :| word in {"INSERT", "UPDATE", "DELETE"} && StartsWith(SkipSpaces(query), word);
      var lead, keyword, rest := SplitAtKeyword(query, word);
    }
    if lead, keyword, word, rest :|
        word in {"INSERT", "UPDATE", "DELETE"} && StartsAs(query, lead, keyword, word, rest) {
      StartMakesWrite(query, lead, keyword, word, rest);
    }
  }

  lemma SplitAtKeyword(query: string, word: string) returns (lead: string, keyword: string, rest: string)
    requires StartsWith(SkipSpaces(query), word)
    ensures StartsAs(query, lead, keyword, word, rest)
  {
    hide SkipSpaces, UpperAll;
    var trimmed := SkipSpaces(query);
    lead, keyword, rest := query[..|query| - |trimmed|], trimmed[..|word|], trimmed[|word|..];
    ThreeParts(query, trimmed, keyword);
  }

  lemma StartMakesWrite(query: string, lead: string, keyword: string, word: string, rest: string)
    requires word in {"INSERT", "UPDATE", "DELETE"} && StartsAs(query, lead, keyword, word, rest)
    ensures IsWrite(query)
  {
    hide IsWrite, AllSpace, Spells;
    KeywordMakesWrite(lead, keyword, word, rest);
  }

  // The character classes, spelled out.

  const LOWER := "abcdefghijklmnopqrstuvwxyz"
  const UPPER := "ABCDEFGHIJKLMNOPQRSTUVWXYZ"

  /** The blanks are the six of `std::isspace`, and a table name ends at one of them, at '(' or at ';'. */
  lemma CharacterClasses(c: char)
    ensures IsSpace(c) <==> c as int in {9, 10, 11, 12, 13, 32}
    ensures EndsToken(c) <==> c as int in {9, 10, 11, 12, 13, 32, 40, 59}
  {
  }

  /** `std::toupper` changes exactly the 26 letters, each to its capital. */
  lemma CapitalLetters(c: char)
    ensures |LOWER| == |UPPER| == 26
    ensures forall i :: 0 <= i < 26 && LOWER[i] == c ==> Upper(c) == UPPER[i]
    ensures c !in LOWER ==> Upper(c) == c
  {
    LowerTable();
    UpperTable();
    if 'a' <= c <= 'z' {
      assert LOWER[c as int - 97] == c;
    }
  }

  lemma LowerTable()
    ensures forall i :: 0 <= i < 26 ==> LOWER[i] as int == 97 + i
  {
  }

  lemma UpperTable()
    ensures forall i :: 0 <= i < 26 ==> UPPER[i] as int == 65 + i
  {
  }

  /** The token read from a position of the text on. */
  function TokenAfter(query: string, at: nat): string
    requires at <= |query|
  {
    Token(SkipSpaces(query[at..]))
  }

  /** INSERT: in any letter case and spacing, whatever follows, the target is the table. */
  lemma InsertTarget(lead: string, insert: string, gap: string, into: string, blanks: string,
                     table: string, tail: string)
    requires AllSpace(lead) && AllSpace(gap) && AllSpace(blanks) && IsName(table) && IsTail(tail)
    requires Spells(insert, "INSERT") && Spells(into, "INTO")
    ensures var query := lead + insert + gap + into + blanks + table + tail;
            Target(query) == table && IsWrite(query)
  {
    hide *;
    InsertNamesTable(lead, insert, gap, into, blanks, table, tail);
    InsertIsWrite(lead, insert, gap, into, blanks, table, tail);
  }

  lemma InsertNamesTable(lead: string, insert: string, gap: string, into: string, blanks: string,
                         table: string, tail: string)
    requires AllSpace(lead) && AllSpace(gap) && AllSpace(blanks) && IsName(table) && IsTail(tail)
    requires Spells(insert, "INSERT") && Spells(into, "INTO")
    ensures Target(lead + insert + gap + into + blanks + table + tail) == table
  {
    hide IsWrite, Token, SkipSpaces, IntoAt, UpdateAt, FromAt, UpperAll, Spells, IsName, IsTail, AllSpace;
    var query := lead + insert + gap + into + blanks + table + tail;
    var pre, rest := lead + insert + gap, blanks + table + tail;
    SpelledLength(into, "INTO");
    FirstInto(lead, insert, gap, into, rest);
    assert query == pre + into + rest;
    TargetAfterInto(query, |pre|);
    NameAfterKeyword(pre + into, blanks, table, tail);
  }

  lemma InsertIsWrite(lead: string, insert: string, gap: string, into: string, blanks: string,
                      table: string, tail: string)
    requires AllSpace(lead) && Spells(insert, "INSERT")
    ensures IsWrite(lead + insert + gap + into + blanks + table + tail)
  {
    hide IsWrite;
    var rest := gap + into + blanks + table + tail;
    KeywordMakesWrite(lead, insert, "INSERT", rest);
    assert lead + insert + gap + into + blanks + table + tail == lead + insert + rest;
  }

  lemma SpelledLength(text: string, word: string)
    requires Spells(text, word)
    ensures |text| == |word|
  {
  }

  /** The first INTO, wherever it is, decides. */
  lemma TargetAfterInto(query: string, at: nat)
    requires IntoAt(UpperAll(query)) == at
    ensures at + 4 <= |query| && Target(query) == TokenAfter(query, at + 4)
  {
    hide Token, SkipSpaces, UpperAll, IntoAt, UpdateAt, FromAt;
    var u := UpperAll(query);
    assert |u| == |query|;
    assert KeywordEnd(u) == at + 4;
    assert Target(query) == TokenAfter(query, KeywordEnd(u));
  }

  /** In an INSERT statement the first INTO is the keyword. */
  lemma FirstInto(lead: string, insert: string, gap: string, into: string, rest: string)
    requires AllSpace(lead) && AllSpace(gap) && Spells(insert, "INSERT") && Spells(into, "INTO")
    ensures IntoAt(UpperAll(lead + insert + gap + into + rest)) == |lead + insert + gap|
  {
    var pre := lead + insert + gap;
    var query := pre + into + rest;
    SpelledAt(pre, into, "INTO", rest);
    SpelledAt(lead, insert, "INSERT", gap + into + rest);
    assert query == lead + insert + (gap + into + rest);
    forall i | 0 <= i < |pre| ensures !OccursAt(UpperAll(query), "INTO", i) {
      assert query[..|lead|] == lead && query[|lead| + 6..|lead| + 6 + |gap|] == gap;
      NoEarlierInto(UpperAll(query), |lead|, |gap|, query, i);
    }
    FindUnique(UpperAll(query), "INTO", |pre|);
  }

  lemma NoEarlierInto(u: string, lead: nat, gap: nat, query: string, i: nat)
    requires u == UpperAll(query) && i < lead + 6 + gap <= |query|
    requires AllSpace(query[..lead]) && AllSpace(query[lead + 6..lead + 6 + gap])
    requires u[lead..lead + 6] == "INSERT"
    ensures !OccursAt(u, "INTO", i)
  {
    if i < lead {
      assert IsSpace(query[..lead][i]);
      Mismatch(u, "INTO", i, 0);
    } else if i >= lead + 6 {
      assert IsSpace(query[lead + 6..lead + 6 + gap][i - lead - 6]);
      Mismatch(u, "INTO", i, 0);
    } else {
      assert u[lead..lead + 6][i - lead] == u[i];
      if i == lead {
        assert u[lead..lead + 6][2] == u[i + 2];
        Mismatch(u, "INTO", i, 2);
      } else {
        Mismatch(u, "INTO", i, 0);
      }
    }
  }

  lemma Mismatch(text: string, word: string, at: nat, k: nat)
    requires k < |word| && at + k < |text| && text[at + k] != word[k]
    ensures !OccursAt(text, word, at)
  {
    if at + |word| <= |text| {
      assert text[at..at + |word|][k] == text[at + k];
    }
  }

  /** UPDATE: with no INTO anywhere in the text the target is the table; otherwise it is the table only
      if the text after the first INTO happens to name the same one. */
  lemma UpdateTarget(lead: string, update: string, blanks: string, table: string, tail: string)
    requires AllSpace(lead) && AllSpace(blanks) && IsName(table) && IsTail(tail)
    requires Spells(update, "UPDATE")
    ensures var query := lead + update + blanks + table + tail;
            var into := IntoAt(UpperAll(query));
            && IsWrite(query)
            && (Target(query) == table <==> into < 0 || TokenAfter(query, into + 4) == table)
  {
    hide IsWrite, Token, SkipSpaces, IntoAt, UpdateAt, FromAt, UpperAll, IsName, IsTail, AllSpace, Spells;
    var query := lead + update + blanks + table + tail;
    var rest := blanks + table + tail;
    assert query == lead + update + rest;
    KeywordMakesWrite(lead, update, "UPDATE", rest);
    SpelledLength(update, "UPDATE");
    var into := IntoAt(UpperAll(query));
    if into >= 0 {
      TargetAfterInto(query, into);
    } else {
      FirstUpdate(lead, update, rest);
      TargetAfterUpdate(query, |lead|);
      NameAfterKeyword(lead + update, blanks, table, tail);
    }
  }

  lemma FirstUpdate(lead: string, update: string, rest: string)
    requires AllSpace(lead) && Spells(update, "UPDATE")
    ensures UpdateAt(UpperAll(lead + update + rest)) == |lead|
  {
    var query := lead + update + rest;
    SpelledAt(lead, update, "UPDATE", rest);
    forall i | 0 <= i < |lead| ensures !OccursAt(UpperAll(query), "UPDATE", i) {
      assert query[i] == lead[i];
      Mismatch(UpperAll(query), "UPDATE", i, 0);
    }
    FindUnique(UpperAll(query), "UPDATE", |lead|);
  }

  lemma TargetAfterUpdate(query: string, at: nat)
    requires IntoAt(UpperAll(query)) < 0 && UpdateAt(UpperAll(query)) == at
    ensures at + 6 <= |query| && Target(query) == TokenAfter(query, at + 6)
  {
    hide Token, SkipSpaces, UpperAll, IntoAt, UpdateAt, FromAt;
    var u := UpperAll(query);
    assert |u| == |query|;
    assert KeywordEnd(u) == at + 6;
    assert Target(query) == TokenAfter(query, KeywordEnd(u));
  }

  /** A DELETE statement: the keyword, columns or nothing, FROM, the table, the rest. */
  function DeleteText(lead: string, delete: string, columns: string, from: string, blanks: string,
                      table: string, tail: string): string
  {
    lead + delete + columns + from + blanks + table + tail
  }

  /** DELETE: with no INTO and no UPDATE anywhere and no earlier FROM the target is the table. Otherwise an INTO takes
      precedence, then an UPDATE, then the earlier FROM, and the target is the table only if the text after that one
      happens to name the same one. */
  lemma DeleteTarget(lead: string, delete: string, columns: string, from: string, blanks: string,
                     table: string, tail: string)
    requires AllSpace(lead) && AllSpace(blanks) && IsName(table) && IsTail(tail)
    requires Spells(delete, "DELETE") && Spells(from, "FROM")
    ensures var query := DeleteText(lead, delete, columns, from, blanks, table, tail);
            var keyword := |lead| + |delete| + |columns|;
            var u := UpperAll(query);
            && IsWrite(query)
            && 0 <= FromAt(u) <= keyword
            && (Target(query) == table <==>
                  if IntoAt(u) >= 0 then TokenAfter(query, IntoAt(u) + 4) == table
                  else if UpdateAt(u) >= 0 then TokenAfter(query, UpdateAt(u) + 6) == table
                  else FromAt(u) < keyword ==> TokenAfter(query, FromAt(u) + 4) == table)
  {
    hide *;
    DeleteTextFacts(lead, delete, columns, from, blanks, table, tail);
    Precedence(DeleteText(lead, delete, columns, from, blanks, table, tail), |lead| + |delete| + |columns|, table);
  }

  lemma DeleteTextFacts(lead: string, delete: string, columns: string, from: string, blanks: string,
                        table: string, tail: string)
    requires AllSpace(lead) && AllSpace(blanks) && IsName(table) && IsTail(tail)
    requires Spells(delete, "DELETE") && Spells(from, "FROM")
    ensures var query := DeleteText(lead, delete, columns, from, blanks, table, tail);
            var keyword := |lead| + |delete| + |columns|;
            && IsWrite(query)
            && keyword + 4 <= |query|
            && OccursAt(UpperAll(query), "FROM", keyword)
            && TokenAfter(query, keyword + 4) == table
  {
    hide IsWrite, TokenAfter, UpperAll, IsName, IsTail, AllSpace, Spells, OccursAt;
    PrintedFrom(lead + delete + columns, from, blanks, table, tail);
    DeleteIsWrite(lead, delete, columns, from + blanks + table + tail);
    assert lead + delete + columns + from + blanks + table + tail
        == lead + delete + columns + (from + blanks + table + tail);
  }

  /** A printed FROM, blanks and a name: the keyword is there and the name is the token after it. */
  lemma PrintedFrom(pre: string, from: string, blanks: string, table: string, tail: string)
    requires AllSpace(blanks) && IsName(table) && IsTail(tail) && Spells(from, "FROM")
    ensures var query := pre + from + blanks + table + tail;
            && |pre| + 4 <= |query|
            && OccursAt(UpperAll(query), "FROM", |pre|)
            && TokenAfter(query, |pre| + 4) == table
  {
    hide Token, SkipSpaces, UpperAll, IsName, IsTail, AllSpace, Spells, OccursAt;
    SpelledLength(from, "FROM");
    SpelledAt(pre, from, "FROM", blanks + table + tail);
    assert pre + from + blanks + table + tail == pre + from + (blanks + table + tail);
    NameAfterKeyword(pre + from, blanks, table, tail);
  }

  /** The target of a text with a FROM in it: an INTO decides first, then an UPDATE, then the first FROM. */
  lemma Precedence(query: string, at: nat, table: string)
    requires at + 4 <= |query| && OccursAt(UpperAll(query), "FROM", at) && TokenAfter(query, at + 4) == table
    ensures var u := UpperAll(query);
            && 0 <= FromAt(u) <= at
            && (Target(query) == table <==>
                  if IntoAt(u) >= 0 then TokenAfter(query, IntoAt(u) + 4) == table
                  else if UpdateAt(u) >= 0 then TokenAfter(query, UpdateAt(u) + 6) == table
                  else FromAt(u) < at ==> TokenAfter(query, FromAt(u) + 4) == table)
  {
    hide *;
    var u := UpperAll(query);
    FromFoundBy(u, at);
    if IntoAt(u) >= 0 {
      TargetAfterInto(query, IntoAt(u));
    } else if UpdateAt(u) >= 0 {
      TargetAfterUpdate(query, UpdateAt(u));
    } else {
      TargetAfterFrom(query, FromAt(u));
    }
  }

  lemma DeleteIsWrite(lead: string, delete: string, middle: string, rest: string)
    requires AllSpace(lead) && Spells(delete, "DELETE")
    ensures IsWrite(lead + delete + middle + rest)
  {
    hide IsWrite;
    KeywordMakesWrite(lead, delete, "DELETE", middle + rest);
    assert lead + delete + middle + rest == lead + delete + (middle + rest);
  }

  /** An occurrence is found there or earlier. */
  lemma FromFoundBy(text: string, at: nat)
    requires OccursAt(text, "FROM", at)
    ensures 0 <= FromAt(text) <= at
  {
    assert IsFind(text, "FROM", FromAt(text));
  }

  lemma TargetAfterFrom(query: string, at: nat)
    requires IntoAt(UpperAll(query)) < 0 && UpdateAt(UpperAll(query)) < 0
    requires FromAt(UpperAll(query)) == at
    ensures at + 4 <= |query| && Target(query) == TokenAfter(query, at + 4)
  {
    hide Token, SkipSpaces, UpperAll, IntoAt, UpdateAt, FromAt;
    var u := UpperAll(query);
    assert |u| == |query|;
    assert KeywordEnd(u) == at + 4;
    assert Target(query) == TokenAfter(query, KeywordEnd(u));
  }

  /** Without any of the three keywords the target is "unknown"; otherwise it is what stands between the blanks after
      the winning keyword and the next terminator. */
  lemma TargetOfAnyText(query: string)
    ensures var u := UpperAll(query);
            (forall i :: !OccursAt(u, "INTO", i) && !OccursAt(u, "UPDATE", i) && !OccursAt(u, "FROM", i)) ==>
              Target(query) == "unknown"
    ensures var at := KeywordEnd(UpperAll(query));
            at >= 0 ==> exists blanks, tail :: IsTokenOf(query[at..], blanks, Target(query), tail)
  {
    hide UpperAll, Token, SkipSpaces;
    var u := UpperAll(query);
    NotFound(u);
    var at := KeywordEnd(u);
    if at >= 0 {
      FirstToken(query[at..]);
      assert Target(query) == Token(SkipSpaces(query[at..]));
    }
  }

  /** The text is blanks, a token and a tail, with nothing of the token in the tail or of the blanks in the token. */
  ghost predicate IsTokenOf(text: string, blanks: string, token: string, tail: string) {
    && text == blanks + token + tail && AllSpace(blanks) && IsTail(tail)
    && (forall i :: 0 <= i < |token| ==> !EndsToken(token[i]))
    && (token + tail != [] ==> !IsSpace((token + tail)[0]))
  }

  lemma NotFound(u: string)
    ensures (forall i :: !OccursAt(u, "INTO", i) && !OccursAt(u, "UPDATE", i) && !OccursAt(u, "FROM", i)) ==>
              KeywordEnd(u) == -1
  {
    hide Find;
    assert IsFind(u, "INTO", IntoAt(u)) && IsFind(u, "UPDATE", UpdateAt(u)) && IsFind(u, "FROM", FromAt(u));
  }

  lemma FirstToken(text: string)
    ensures exists blanks, tail :: IsTokenOf(text, blanks, Token(SkipSpaces(text)), tail)
  {
    hide SkipSpaces, Token, IsTokenOf;
    var rest := SkipSpaces(text);
    var token := Token(rest);
    TokenInPlace(text, rest, token);
    assert IsTokenOf(text, text[..|text| - |rest|], token, rest[|token|..]);
  }

  lemma TokenInPlace(text: string, rest: string, token: string)
    requires |rest| <= |text| && rest == text[|text| - |rest|..] && AllSpace(text[..|text| - |rest|])
    requires rest != [] ==> !IsSpace(rest[0])
    requires token <= rest && (forall i :: 0 <= i < |token| ==> !EndsToken(token[i]))
    requires |token| < |rest| ==> EndsToken(rest[|token|])
    ensures IsTokenOf(text, text[..|text| - |rest|], token, rest[|token|..])
  {
    hide AllSpace, EndsToken, IsSpace;
    var blanks, tail := text[..|text| - |rest|], rest[|token|..];
    ThreeParts(text, rest, token);
    assert token + tail == rest;
    assert tail != [] ==> tail[0] == rest[|token|];
  }

  lemma ThreeParts(text: string, rest: string, token: string)
    requires |rest| <= |text| && rest == text[|text| - |rest|..] && token <= rest
    ensures text == text[..|text| - |rest|] + token + rest[|token|..]
  {
    assert rest == token + rest[|token|..];
    assert text == text[..|text| - |rest|] + rest;
  }

  /** The conditions matter: a DELETE from a table whose name contains UPDATE is taken for another table. */
  lemma DeleteFromUpdates()
    ensures Target("DELETE FROM updates;") == "s"
  {
    hide Token, SkipSpaces, UpperAll, IsFind, IntoAt, UpdateAt, FromAt;
    var query := "DELETE FROM updates;";
    UpdatesKeyword(query);
    TargetAfterUpdate(query, 12);
    assert query[18..] == "s;";
    PluralToken();
  }

  lemma PluralToken()
    ensures Token(SkipSpaces("s;")) == "s"
  {
    assert SkipSpaces("s;") == "s;";
    assert Token(";") == "";
    assert "s;"[1..] == ";";
  }

  lemma UpdatesKeyword(query: string)
    requires query == "DELETE FROM updates;"
    ensures IntoAt(UpperAll(query)) < 0 && UpdateAt(UpperAll(query)) == 12
  {
    hide UpperAll;
    var u := UpperAll(query);
    UpperUpdates(query);
    NoInitial(u, "INTO");
    assert u[12..18] == "UPDATE";
    forall i | 0 <= i < 12 ensures !OccursAt(u, "UPDATE", i) {
      Mismatch(u, "UPDATE", i, 0);
    }
    FindUnique(u, "UPDATE", 12);
  }

  lemma UpperUpdates(query: string)
    requires query == "DELETE FROM updates;"
    ensures UpperAll(query) == "DELETE FROM UPDATES;"
  {
    assert query == "DELETE FROM " + "updates" + ";";
    UpperConcat("DELETE FROM ", "updates");
    UpperConcat("DELETE FROM updates", ";");
    assert UpperAll("DELETE FROM ") == "DELETE FROM ";
    assert UpperAll("updates") == "UPDATES";
    assert UpperAll(";") == ";";
  }

  lemma UpperConcat(a: string, b: string)
    ensures UpperAll(a + b) == UpperAll(a) + UpperAll(b)
  {
  }

  /** A word whose first letter does not occur is not found. */
  lemma NoInitial(text: string, word: string)
    requires word != [] && forall i :: 0 <= i < |text| ==> text[i] != word[0]
    ensures Find(text, word) == -1
  {
    hide Find;
    forall i ensures !OccursAt(text, word, i) {
      if 0 <= i < |text| {
        Mismatch(text, word, i, 0);
      }
    }
  }
}

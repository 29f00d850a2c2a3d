/** Keyset pagination of the job list: a page is what follows a cursor, newest first, and the cursor
    is the last row's time and id. */
module JobListing {
  import opened Wrappers
  import opened Text

  /** What the list sorts and filters by; the rest of a row is its contents. */
  datatype Row = Row(id: string, createdAt: int, contents: string)

  datatype Cursor = Cursor(at: int, id: string)

  // ---- the cursor as text ----

  function Digit(d: int): char
    requires 0 <= d < 10
  {
    (d + '0' as int) as char
  }

  predicate IsDigit(c: char) { '0' <= c <= '9' }

  function DigitValue(c: char): int { c as int - '0' as int }

  function Digits(n: nat): string
    decreases n
  {
    if n < 10 then [Digit(n)] else Digits(n / 10) + [Digit(n % 10)]
  }

  function Decimal(n: int): string { if n < 0 then "-" + Digits(-n) else Digits(n) }

  function ParseDigits(s: string): Option<nat> {
    if s == "" then None
    else if !IsDigit(s[|s| - 1]) then None
    else if |s| == 1 then Some(DigitValue(s[0]))
    else match ParseDigits(s[..|s| - 1])
      case None => None
      case Some(n) => Some(10 * n + DigitValue(s[|s| - 1]))
  }

  const MAX_INT64 := 0x7fff_ffff_ffff_ffff

  predicate IsInt64(n: int) { -MAX_INT64 - 1 <= n <= MAX_INT64 }

  /** strconv.ParseInt in base 10, 64 bits. */
  function ParseInt(s: string): Option<int> {
    if s == "" then None else
    var negative := s[0] == '-';
    match ParseDigits(if negative || s[0] == '+' then s[1..] else s)
    case None => None
    case Some(n) =>
      var value := if negative then 0 - n else n as int;
      if IsInt64(value) then Some(value) else None
  }

  /** The first colon of a text, or its length. */
  function Colon(s: string): (k: nat)
    ensures k <= |s|
  {
    if s == "" || s[0] == ':' then 0 else 1 + Colon(s[1..])
  }

  function EncodeCursor(c: Cursor): string { Decimal(c.at) + ":" + c.id }

  function DecodeCursor(raw: string): Option<Cursor> {
    var k := Colon(raw);
    if k == |raw| || k + 1 == |raw| then None else
    match ParseInt(raw[..k])
    case None => None
    case Some(at) => Some(Cursor(at, raw[k + 1..]))
  }

  lemma {:induction false} DigitsParse(n: nat)
    ensures Digits(n) != "" && ParseDigits(Digits(n)) == Some(n)
    ensures forall i :: 0 <= i < |Digits(n)| ==> IsDigit(Digits(n)[i])
    decreases n
  {
    if n >= 10 {
      DigitsParse(n / 10);
      assert Digits(n)[..|Digits(n)| - 1] == Digits(n / 10);
    }
  }

  lemma DecimalParses(n: int)
    requires IsInt64(n)
    ensures ParseInt(Decimal(n)) == Some(n)
    ensures forall i :: 0 <= i < |Decimal(n)| ==> Decimal(n)[i] != ':'
  {
    if n < 0 {
      DigitsParse(-n);
      SignedParses(Digits(-n), n);
    } else {
      DigitsParse(n);
      NoSign(Digits(n));
    }
  }

  lemma SignedParses(s: string, n: int)
    requires s != "" && n <= 0 && ParseDigits(s) == Some(-n) && IsInt64(n)
    ensures ParseInt("-" + s) == Some(n)
  {
    assert ("-" + s)[1..] == s;
  }

  lemma NoSign(s: string)
    requires s != "" && forall i :: 0 <= i < |s| ==> IsDigit(s[i])
    ensures s[0] != '-' && s[0] != '+'
  {
    assert IsDigit(s[0]);
  }

  lemma {:induction false} ColonAfter(p: string, s: string)
    requires forall i :: 0 <= i < |p| ==> p[i] != ':'
    ensures Colon(p + ":" + s) == |p|
  {
    if p != "" {
      assert (p + ":" + s)[1..] == p[1..] + ":" + s;
      ColonAfter(p[1..], s);
    }
  }

  /** A cursor reads back as it was written, even when the id has colons in it; only an empty id is
      refused. */
  lemma CursorRoundTrip(c: Cursor)
    requires IsInt64(c.at)
    ensures DecodeCursor(EncodeCursor(c)) == if c.id == "" then None else Some(c)
  {
    DecimalParses(c.at);
    ColonAfter(Decimal(c.at), c.id);
    var raw := EncodeCursor(c);
    assert raw[..|Decimal(c.at)|] == Decimal(c.at) && raw[|Decimal(c.at)| + 1..] == c.id;
  }

  // ---- order and filter ----

  /** ORDER BY created_at DESC, id DESC: b comes after a. */
  predicate After(a: Cursor, b: Row) {
    b.createdAt < a.at || (b.createdAt == a.at && AtMost(b.id, a.id) && b.id != a.id)
  }

  function CursorOf(r: Row): Cursor { Cursor(r.createdAt, r.id) }

  predicate Listed(rows: seq<Row>) { forall i, j :: 0 <= i < j < |rows| ==> After(CursorOf(rows[i]), rows[j]) }

  /** A table with its ids and times in shape, listed in the order of the query. */
  predicate Proper(r: Row) { r.id != "" && IsInt64(r.createdAt) }

  predicate AllProper(rows: seq<Row>) { forall r :: r in rows ==> Proper(r) }

  function Select(rows: seq<Row>, wanted: Row -> bool): seq<Row> {
    if rows == [] then [] else
    Select(rows[..|rows| - 1], wanted) + if wanted(rows[|rows| - 1]) then [rows[|rows| - 1]] else []
  }

  lemma {:induction false} SelectedRows(rows: seq<Row>, wanted: Row -> bool)
    ensures forall r :: r in Select(rows, wanted) <==> r in rows && wanted(r)
    ensures Listed(rows) ==> Listed(Select(rows, wanted))
  {
    if rows != [] {
      var n := |rows| - 1;
      SelectedRows(rows[..n], wanted);
      assert rows == rows[..n] + [rows[n]];
      var before := Select(rows[..n], wanted);
      if Listed(rows) {
        forall i | 0 <= i < |before| ensures After(CursorOf(before[i]), rows[n]) {
          assert before[i] in before;
          var k :| 0 <= k < n && rows[..n][k] == before[i];
        }
      }
    }
  }

  // ---- pages ----

  /** One query: what matches and follows the cursor, at most n rows of it. */
  function Query(rows: seq<Row>, matches: Row -> bool, cursor: Option<Cursor>, n: nat): seq<Row> {
    Take(Following(Select(rows, matches), cursor), n)
  }

  function Take(rows: seq<Row>, n: nat): seq<Row> { if |rows| > n then rows[..n] else rows }

  /** The rows behind the cursor. */
  function Following(rows: seq<Row>, cursor: Option<Cursor>): seq<Row> {
    if cursor.None? then rows
    else if rows == [] then []
    else Following(rows[..|rows| - 1], cursor) + if After(cursor.value, rows[|rows| - 1]) then [rows[|rows| - 1]] else []
  }

  datatype Page = Page(items: seq<Row>, nextCursor: Option<string>) | InvalidCursor

  /** The jobs that a request asks for: what matches, behind the cursor. */
  predicate Asked(rows: seq<Row>, matches: Row -> bool, from: Option<Cursor>, r: Row) {
    r in rows && matches(r) && (from.Some? ==> After(from.value, r))
  }

  /** The rows of a page were asked for, newest first and at most so many; whatever else was asked for
      comes after the last of them, and there is a cursor, that of the last row, exactly when there
      is such a row. */
  ghost predicate Answers(page: Page, rows: seq<Row>, matches: Row -> bool, limit: nat, from: Option<Cursor>)
    requires page.Page? && limit >= 1
  {
    && |page.items| <= limit && Listed(page.items)
    && (forall r :: r in page.items ==> Asked(rows, matches, from, r))
    && if page.nextCursor.None? then forall r :: Asked(rows, matches, from, r) ==> r in page.items
       else |page.items| == limit && LeadsOn(page, rows, matches, from, CursorOf(page.items[limit - 1]))
  }

  ghost predicate LeadsOn(page: Page, rows: seq<Row>, matches: Row -> bool, from: Option<Cursor>, last: Cursor)
    requires page.Page?
  {
    && page.nextCursor == Some(EncodeCursor(last))
    && (exists r :: Asked(rows, matches, from, r) && r !in page.items)
    && forall r :: Asked(rows, matches, from, r) ==> (r !in page.items <==> After(last, r))
  }

  /** listBuildJobs: one row more than the limit tells whether there is a next page. */
  method ListBuildJobs(rows: seq<Row>, matches: Row -> bool, limit: nat, cursor: Option<string>) returns (page: Page)
    requires 1 <= limit <= 100 && Listed(rows)
    ensures page.InvalidCursor? <==> cursor.Some? && DecodeCursor(cursor.value).None?
    ensures page.Page? ==> Answers(page, rows, matches, limit, Decoded(cursor)) && page == PageAt(rows, matches, limit, Decoded(cursor))
  {
    var from := None;
    if cursor.Some? {
      from := DecodeCursor(cursor.value);
      if from.None? { return InvalidCursor; }
    }
    ghost var asked := Following(Select(rows, matches), from);
    PageAnswers(rows, matches, limit, from);
    LookingAhead(asked, limit);
    var jobs := Query(rows, matches, from, limit + 1);
    var hasMore := |jobs| > limit;
    if hasMore { jobs := jobs[..limit]; }
    var next := None;
    if hasMore && |jobs| > 0 { next := Some(EncodeCursor(CursorOf(jobs[|jobs| - 1]))); }
    page := Page(jobs, next);
    assert page == FirstRows(asked, limit);
  }

  function Decoded(cursor: Option<string>): Option<Cursor> { if cursor.Some? then DecodeCursor(cursor.value) else None }

  /** The page that a request should get: the first rows of those asked for. */
  function PageAt(rows: seq<Row>, matches: Row -> bool, limit: nat, from: Option<Cursor>): Page
    requires limit >= 1
  {
    FirstRows(Following(Select(rows, matches), from), limit)
  }

  function FirstRows(asked: seq<Row>, limit: nat): (page: Page)
    requires limit >= 1
    ensures page.Page?
  {
    if |asked| <= limit then Page(asked, None) else Page(asked[..limit], Some(EncodeCursor(CursorOf(asked[limit - 1]))))
  }

  lemma LookingAhead(asked: seq<Row>, limit: nat)
    requires limit >= 1
    ensures var jobs := Take(asked, limit + 1);
      FirstRows(asked, limit) ==
        if |jobs| > limit then Page(jobs[..limit], Some(EncodeCursor(CursorOf(jobs[..limit][limit - 1])))) else Page(jobs, None)
  {
    if |asked| > limit + 1 { assert asked[..limit + 1][..limit] == asked[..limit]; }
  }

  lemma PageAnswers(rows: seq<Row>, matches: Row -> bool, limit: nat, from: Option<Cursor>)
    requires limit >= 1 && Listed(rows)
    ensures Answers(FirstRows(Following(Select(rows, matches), from), limit), rows, matches, limit, from)
  {
    var asked := Following(Select(rows, matches), from);
    AskedRows(rows, matches, from);
    if |asked| > limit {
      FirstPage(asked, limit);
      assert asked[limit] in asked;
    }
  }

  lemma {:induction false} FollowingRows(rows: seq<Row>, cursor: Option<Cursor>)
    ensures forall r :: r in Following(rows, cursor) <==> r in rows && (cursor.Some? ==> After(cursor.value, r))
    ensures Listed(rows) ==> Listed(Following(rows, cursor))
  {
    if cursor.Some? && rows != [] {
      var n := |rows| - 1;
      FollowingRows(rows[..n], cursor);
      assert rows == rows[..n] + [rows[n]];
      var before := Following(rows[..n], cursor);
      if Listed(rows) {
        forall i | 0 <= i < |before| ensures After(CursorOf(before[i]), rows[n]) {
          assert before[i] in before;
          var k :| 0 <= k < n && rows[..n][k] == before[i];
        }
      }
    }
  }

  lemma AskedRows(rows: seq<Row>, matches: Row -> bool, from: Option<Cursor>)
    requires Listed(rows)
    ensures var asked := Following(Select(rows, matches), from);
      Listed(asked) && forall r :: r in asked <==> Asked(rows, matches, from, r)
  {
    SelectedRows(rows, matches);
    FollowingRows(Select(rows, matches), from);
  }

  /** The rows of a listing that are not among the first n are those after the last of them. */
  lemma FirstPage(asked: seq<Row>, n: nat)
    requires Listed(asked) && n >= 1
    ensures |asked| > n ==> Listed(asked[..n]) && asked[n] !in asked[..n]
    ensures |asked| > n ==> forall r :: r in asked ==> (r !in asked[..n] <==> After(CursorOf(asked[n - 1]), r))
  {
    if |asked| > n {
      forall r | r in asked[..n] ensures r != asked[n] && !After(CursorOf(asked[n - 1]), r) {
        var i :| 0 <= i < n && asked[i] == r;
        NeverAfterItself(asked[i], asked[n]);
        if i < n - 1 { NeverAfterItself(asked[i], asked[n - 1]); }
      }
    }
  }

  // ---- following the cursors ----

  lemma NeverAfterItself(r: Row, b: Row)
    requires After(CursorOf(r), b)
    ensures !After(CursorOf(b), r) && r != b
  {
    if r.createdAt == b.createdAt && AtMost(r.id, b.id) { AtMostIsAntisymmetric(r.id, b.id); }
  }

  /** In a listing, what follows the k-th row is exactly the rest behind it. */
  lemma {:induction false} FollowingIsTheRest(found: seq<Row>, k: nat, cursor: Cursor)
    requires Listed(found) && k < |found| && cursor == CursorOf(found[k])
    ensures Following(found, Some(cursor)) == found[k + 1..]
  {
    var n := |found| - 1;
    if k == n {
      forall i | 0 <= i <= k ensures !After(cursor, found[i]) {
        if i < k { NeverAfterItself(found[i], found[k]); }
      }
      NothingFollows(found, cursor);
    } else {
      FollowingIsTheRest(found[..n], k, cursor);
      LastOfTheRest(found, k + 1);
    }
  }

  lemma LastOfTheRest(found: seq<Row>, k: nat)
    requires k < |found|
    ensures found[..|found| - 1][k..] + [found[|found| - 1]] == found[k..]
  {
  }

  lemma {:induction false} NothingFollows(rows: seq<Row>, cursor: Cursor)
    requires forall i :: 0 <= i < |rows| ==> !After(cursor, rows[i])
    ensures Following(rows, Some(cursor)) == []
  {
    if rows != [] { NothingFollows(rows[..|rows| - 1], cursor); }
  }

  /** The page that starts behind the first k matches is the next limit of them, and its cursor is
      that of its last row if there are more. */
  lemma PageBehind(rows: seq<Row>, matches: Row -> bool, limit: nat, k: nat)
    requires limit >= 1 && Listed(rows) && k <= |Select(rows, matches)|
    ensures var all := Select(rows, matches);
      var end := if k + limit < |all| then k + limit else |all|;
      PageAt(rows, matches, limit, RowBefore(all, k)) == Page(all[k..end], if end < |all| then CursorAt(all, end) else None)
  {
    SelectedRows(rows, matches);
    AskedBehind(Select(rows, matches), k);
    FirstRowsBehind(Select(rows, matches), limit, k);
  }

  lemma FirstRowsBehind(all: seq<Row>, limit: nat, k: nat)
    requires limit >= 1 && k <= |all|
    ensures var end := if k + limit < |all| then k + limit else |all|;
      FirstRows(all[k..], limit) == Page(all[k..end], if end < |all| then CursorAt(all, end) else None)
  {
    if |all| - k > limit { assert all[k..][..limit] == all[k..k + limit]; }
  }

  /** Where the rest behind the first k rows begins. */
  function RowBefore(all: seq<Row>, k: nat): Option<Cursor>
    requires k <= |all|
  {
    if k == 0 then None else Some(CursorOf(all[k - 1]))
  }

  lemma AskedBehind(all: seq<Row>, k: nat)
    requires Listed(all) && k <= |all|
    ensures Following(all, RowBefore(all, k)) == all[k..]
  {
    if k > 0 { FollowingIsTheRest(all, k - 1, CursorOf(all[k - 1])); }
  }

  lemma CursorLeadsBehind(all: seq<Row>, k: nat)
    requires AllProper(all) && k <= |all|
    ensures Decoded(CursorAt(all, k)) == RowBefore(all, k) && (CursorAt(all, k).Some? ==> RowBefore(all, k).Some?)
  {
    if k > 0 {
      assert all[k - 1] in all;
      CursorReadsBack(all[k - 1]);
    }
  }

  lemma CursorReadsBack(r: Row)
    requires Proper(r)
    ensures DecodeCursor(EncodeCursor(CursorOf(r))) == Some(CursorOf(r))
  {
    CursorRoundTrip(CursorOf(r));
  }

  /** The cursor that leads behind the first k rows. */
  function CursorAt(all: seq<Row>, k: nat): Option<string>
    requires k <= |all|
  {
    if k == 0 then None else Some(EncodeCursor(CursorOf(all[k - 1])))
  }

  /** With this page more, what is visited is again a beginning of all matches, and the cursor leads
      behind it, or it is all of them. */
  predicate GoesOn(page: Page, all: seq<Row>, visited: seq<Row>) {
    && page.Page? && visited + page.items <= all
    && if page.nextCursor.Some? then
         |page.items| > 0 && |visited + page.items| < |all| && page.nextCursor == CursorAt(all, |visited + page.items|)
       else visited + page.items == all
  }

  lemma OnePageMore(rows: seq<Row>, matches: Row -> bool, limit: nat, visited: seq<Row>)
    requires limit >= 1 && Listed(rows) && visited <= Select(rows, matches)
    ensures var all := Select(rows, matches);
      GoesOn(PageAt(rows, matches, limit, RowBefore(all, |visited|)), all, visited)
  {
    var all := Select(rows, matches);
    PageBehind(rows, matches, limit, |visited|);
    NextRowsGoOn(all, visited, limit, PageAt(rows, matches, limit, RowBefore(all, |visited|)));
  }

  lemma NextRowsGoOn(all: seq<Row>, visited: seq<Row>, limit: nat, page: Page)
    requires limit >= 1 && visited <= all
    requires var end := if |visited| + limit < |all| then |visited| + limit else |all|;
      page == Page(all[|visited|..end], if end < |all| then CursorAt(all, end) else None)
    ensures GoesOn(page, all, visited)
  {
    BothParts(all, visited, if |visited| + limit < |all| then |visited| + limit else |all|);
  }

  lemma BothParts(all: seq<Row>, visited: seq<Row>, end: nat)
    requires visited <= all && |visited| <= end <= |all|
    ensures var more := visited + all[|visited|..end]; more <= all && |more| == end && (end == |all| ==> more == all)
  {
    assert visited == all[..|visited|];
  }

  /** Following the cursors from the first page on ends, and visits every matching job exactly once,
      newest first. */
  method ListAll(rows: seq<Row>, matches: Row -> bool, limit: nat) returns (visited: seq<Row>)
    requires 1 <= limit <= 100 && Listed(rows) && AllProper(rows)
    ensures visited == Select(rows, matches)
    ensures Listed(visited) && forall r :: r in visited <==> r in rows && matches(r)
  {
    ghost var all := Select(rows, matches);
    SelectedRows(rows, matches);
    visited := [];
    var cursor, more := None, true;
    while more
      invariant visited <= all && if more then cursor == CursorAt(all, |visited|) else visited == all
      decreases if more then 1 + |all| - |visited| else 0
    {
      CursorLeadsBehind(all, |visited|);
      OnePageMore(rows, matches, limit, visited);
      var page := ListBuildJobs(rows, matches, limit, cursor);
      visited := visited + page.items;
      more, cursor := page.nextCursor.Some?, page.nextCursor;
    }
  }
}

/**
 Reading logs back: the page query of the store and the cursor loop of the CLI.
 */
module LogPaging {
  import opened Tables
  import LogShipping

  datatype LogEntry = LogEntry(id: int, content: string, createdAt: Time)

  // The log of one execution in the order of the query: created_at ascending, ties
  // in whatever order the database returns them.
  ghost predicate InQueryOrder(rows: seq<LogEntry>) {
    && (forall i, j | 0 <= i < j < |rows| :: rows[i].createdAt <= rows[j].createdAt)
    && (forall i, j | 0 <= i < j < |rows| :: rows[i].id != rows[j].id)
  }

  function AfterId(rows: seq<LogEntry>, last: int): seq<LogEntry> {
    if rows == [] then []
    else if rows[0].id > last then [rows[0]] + AfterId(rows[1..], last)
    else AfterId(rows[1..], last)
  }

  function Page(rows: seq<LogEntry>, last: int, limit: nat): seq<LogEntry> {
    var all := AfterId(rows, last);
    if |all| <= limit then all else all[..limit]
  }

  function MaxId(page: seq<LogEntry>, last: int): int {
    if page == [] then last
    else MaxId(page[1..], if page[0].id > last then page[0].id else last)
  }

  lemma {:induction false} AfterIdIs(rows: seq<LogEntry>, last: int)
    ensures forall x :: x in AfterId(rows, last) <==> x in rows && x.id > last
    ensures |AfterId(rows, last)| <= |rows|
  {
    if rows != [] {
      AfterIdIs(rows[1..], last);
      assert rows == [rows[0]] + rows[1..];
    }
  }

  lemma {:induction false} MaxIdIs(page: seq<LogEntry>, last: int)
    ensures MaxId(page, last) >= last
    ensures forall x | x in page :: x.id <= MaxId(page, last)
    ensures MaxId(page, last) == last || exists x :: x in page && x.id == MaxId(page, last)
  {
    if page != [] {
      var next := if page[0].id > last then page[0].id else last;
      MaxIdIs(page[1..], next);
      assert page == [page[0]] + page[1..];
      assert page[0] in page;
    }
  }

  lemma {:induction false} CursorNoLess(rows: seq<LogEntry>, last: int, next: int)
    requires last <= next
    ensures |AfterId(rows, next)| <= |AfterId(rows, last)|
  {
    if rows != [] {
      CursorNoLess(rows[1..], last, next);
    }
  }

  // Moving the cursor past a matching entry leaves fewer entries to come.
  lemma {:induction false} CursorAdvances(rows: seq<LogEntry>, last: int, next: int, x: LogEntry)
    requires last < next && x in rows && last < x.id <= next
    ensures |AfterId(rows, next)| < |AfterId(rows, last)|
  {
    if rows[0] == x {
      CursorNoLess(rows[1..], last, next);
    } else {
      assert rows == [rows[0]] + rows[1..];
      CursorAdvances(rows[1..], last, next, x);
    }
  }

  lemma PageAdvances(rows: seq<LogEntry>, last: int, limit: nat)
    requires Page(rows, last, limit) != []
    ensures var next := MaxId(Page(rows, last, limit), last);
            next > last && |AfterId(rows, next)| < |AfterId(rows, last)|
  {
    var page := Page(rows, last, limit);
    AfterIdIs(rows, last);
    assert page[0] in AfterId(rows, last);
    MaxIdIs(page, last);
    assert page[0] in page;
    CursorAdvances(rows, last, MaxId(page, last), page[0]);
  }

  // Everything the cursor loop emits from `last` on.
  function Paged(rows: seq<LogEntry>, last: int, limit: nat): seq<LogEntry>
    decreases |AfterId(rows, last)|
  {
    var page := Page(rows, last, limit);
    if page == [] then []
    else
      PageAdvances(rows, last, limit);
      page + Paged(rows, MaxId(page, last), limit)
  }

  lemma AfterIdNext(rows: seq<LogEntry>, i: nat, last: int, logs: seq<LogEntry>)
    requires i < |rows|
    ensures logs + AfterId(rows[i..], last)
         == (logs + if rows[i].id > last then [rows[i]] else []) + AfterId(rows[i + 1..], last)
  {
    assert rows[i..][1..] == rows[i + 1..];
  }

  // The store's query, one row at a time.
  method GetExecutionLogs(rows: seq<LogEntry>, afterId: int, limit: nat) returns (logs: seq<LogEntry>)
    ensures logs == Page(rows, afterId, limit)
  {
    logs := [];
    var i := 0;
    while i < |rows| && |logs| < limit
      invariant 0 <= i <= |rows| && |logs| <= limit
      invariant AfterId(rows, afterId) == logs + AfterId(rows[i..], afterId)
    {
      AfterIdNext(rows, i, afterId, logs);
      if rows[i].id > afterId {
        logs := logs + [rows[i]];
      }
      i := i + 1;
    }
    if i == |rows| {
      assert rows[i..] == [];
    }
  }

  // What the terminal gets for one chunk: a newline is added unless there is one, or nothing.
  function Shown(content: string): string {
    if content != "" && content[|content| - 1] != '\n' then content + "\n" else content
  }

  function Text(entries: seq<LogEntry>): string {
    if entries == [] then "" else Text(entries[..|entries| - 1]) + Shown(entries[|entries| - 1].content)
  }

  lemma TextMore(rows: seq<LogEntry>, x: LogEntry)
    ensures Text(rows + [x]) == Text(rows) + Shown(x.content)
  {
    assert (rows + [x])[..|rows|] == rows;
  }

  lemma Associative(a: string, b: string, c: string)
    ensures a + (b + c) == (a + b) + c
  {
  }

  lemma {:induction false} TextConcat(a: seq<LogEntry>, b: seq<LogEntry>)
    ensures Text(a + b) == Text(a) + Text(b)
  {
    if b == [] {
      assert a + b == a;
    } else {
      var front, last := b[..|b| - 1], b[|b| - 1];
      assert a + b == (a + front) + [last] && b == front + [last];
      TextConcat(a, front);
      TextMore(a + front, last);
      TextMore(front, last);
      Associative(Text(a), Text(front), Shown(last.content));
    }
  }

  // Prints one page and moves the cursor to the largest id seen.
  method PrintPage(page: seq<LogEntry>, lastId: int) returns (printed: string, next: int)
    ensures printed == Text(page) && next == MaxId(page, lastId)
  {
    printed, next := "", lastId;
    for i := 0 to |page|
      invariant printed == Text(page[..i])
      invariant MaxId(page, lastId) == MaxId(page[i..], next)
    {
      var content := page[i].content;
      TextMore(page[..i], page[i]);
      assert page[..i + 1] == page[..i] + [page[i]];
      printed := printed + content;
      if |content| > 0 && content[|content| - 1] != '\n' {
        printed := printed + "\n";
      }
      if page[i].id > next {
        next := page[i].id;
      }
      assert page[i..][1..] == page[i + 1..];
    }
    assert page[..|page|] == page;
  }

  lemma PagedUnfolds(rows: seq<LogEntry>, last: int, limit: nat)
    ensures var page := Page(rows, last, limit);
            Paged(rows, last, limit) == if page == [] then [] else page + Paged(rows, MaxId(page, last), limit)
  {
  }

  lemma PagedStep(rows: seq<LogEntry>, last: int, limit: nat, page: seq<LogEntry>, printed: string)
    requires page == Page(rows, last, limit)
    ensures printed + Text(Paged(rows, last, limit))
         == if page == [] then printed else (printed + Text(page)) + Text(Paged(rows, MaxId(page, last), limit))
  {
    PagedUnfolds(rows, last, limit);
    if page != [] {
      var rest := Paged(rows, MaxId(page, last), limit);
      TextConcat(page, rest);
      Associative(printed, Text(page), Text(rest));
    }
  }

  // `logs` without --follow: page after page until one is empty.
  method PrintLogs(rows: seq<LogEntry>, limit: nat) returns (printed: string)
    ensures printed == Text(Paged(rows, 0, limit))
  {
    printed := "";
    var lastId := 0;
    while true
      invariant Text(Paged(rows, 0, limit)) == printed + Text(Paged(rows, lastId, limit))
      decreases |AfterId(rows, lastId)|
    {
      var page := GetExecutionLogs(rows, lastId, limit);
      var shown, next := PrintPage(page, lastId);
      PagedStep(rows, lastId, limit, page, printed);
      printed := printed + shown;
      if |page| == 0 {
        return;
      }
      PageAdvances(rows, lastId, limit);
      lastId := next;
    }
  }

  // ---------------------------------------------------------------------
  // When the loop shows the whole log
  // ---------------------------------------------------------------------

  lemma {:induction false} AfterIdAll(rows: seq<LogEntry>, last: int)
    requires forall i | 0 <= i < |rows| :: rows[i].id > last
    ensures AfterId(rows, last) == rows
  {
    if rows != [] {
      AfterIdAll(rows[1..], last);
    }
  }

  lemma {:induction false} AfterIdNone(rows: seq<LogEntry>, last: int)
    requires forall i | 0 <= i < |rows| :: rows[i].id <= last
    ensures AfterId(rows, last) == []
  {
    if rows != [] {
      AfterIdNone(rows[1..], last);
    }
  }

  lemma AfterIdCons(x: LogEntry, rest: seq<LogEntry>, last: int)
    ensures AfterId([x] + rest, last) == (if x.id > last then [x] else []) + AfterId(rest, last)
  {
    assert ([x] + rest)[1..] == rest;
  }

  lemma {:induction false} AfterIdConcat(a: seq<LogEntry>, b: seq<LogEntry>, last: int)
    ensures AfterId(a + b, last) == AfterId(a, last) + AfterId(b, last)
  {
    if a == [] {
      assert a + b == b;
    } else {
      var x, rest := a[0], a[1..];
      assert a == [x] + rest && a + b == [x] + (rest + b);
      AfterIdConcat(rest, b, last);
      AfterIdCons(x, rest, last);
      AfterIdCons(x, rest + b, last);
    }
  }

  // The loop emits every entry once, in query order.
  ghost predicate ShowsAll(rows: seq<LogEntry>, limit: nat) {
    Paged(rows, 0, limit) == rows
  }

  // Ids lie past the cursor, and each page ends before the ids of the next begin; within a
  // page they may come in any order.
  ghost predicate PagesIncrease(rows: seq<LogEntry>, last: int, limit: nat)
    requires limit >= 1
  {
    && (forall i | 0 <= i < |rows| :: rows[i].id > last)
    && (forall i, j | 0 <= i < j < |rows| && i / limit < j / limit :: rows[i].id < rows[j].id)
  }

  lemma Quotient(n: int, d: int, q: int, r: int)
    requires d >= 1 && 0 <= r < d && n == q * d + r
    ensures n / d == q
  {
    var p, s := n / d, n % d;
    assert n == p * d + s && 0 <= s < d;
    assert p >= q + 1 ==> p * d >= (q + 1) * d;
    assert p <= q - 1 ==> p * d <= (q - 1) * d;
  }

  lemma PageNumbers(i: int, limit: int)
    requires limit >= 1 && i >= 0
    ensures i < limit ==> i / limit == 0
    ensures i >= limit ==> i / limit >= 1 && (i - limit) / limit == i / limit - 1
  {
    var q, r := i / limit, i % limit;
    assert i == q * limit + r;
    if i < limit {
      assert q >= 1 ==> q * limit >= limit;
    } else {
      assert q <= 0 ==> q * limit <= 0;
      assert i - limit == (q - 1) * limit + r;
      Quotient(i - limit, limit, q - 1, r);
    }
  }

  // Everything on the first page has a smaller id than everything after it.
  ghost predicate Apart(rest: seq<LogEntry>, limit: nat) {
    forall i, j | 0 <= i < limit <= j < |rest| :: rest[i].id < rest[j].id
  }

  lemma Apartness(rest: seq<LogEntry>, last: int, limit: nat)
    requires limit >= 1 && |rest| > limit && PagesIncrease(rest, last, limit)
    ensures Apart(rest, limit) && PagesIncrease(rest[limit..], last, limit)
  {
    var later := rest[limit..];
    forall i, j | 0 <= i < limit <= j < |rest| ensures rest[i].id < rest[j].id {
      PageNumbers(i, limit);
      PageNumbers(j, limit);
    }
    forall i, j | 0 <= i < j < |later| && i / limit < j / limit ensures later[i].id < later[j].id {
      PageNumbers(i + limit, limit);
      PageNumbers(j + limit, limit);
      assert later[i] == rest[i + limit] && later[j] == rest[j + limit];
    }
  }

  lemma Together(rest: seq<LogEntry>, last: int, limit: nat)
    requires limit >= 1 && |rest| > limit && Apart(rest, limit) && PagesIncrease(rest[limit..], last, limit)
    requires forall i | 0 <= i < |rest| :: rest[i].id > last
    ensures PagesIncrease(rest, last, limit)
  {
    var later := rest[limit..];
    forall i, j | 0 <= i < j < |rest| && i / limit < j / limit ensures rest[i].id < rest[j].id {
      PageNumbers(i, limit);
      PageNumbers(j, limit);
      if i >= limit {
        assert later[i - limit] == rest[i] && later[j - limit] == rest[j];
      }
    }
  }

  // The first page lies before everything else, and the rest is in pages again.
  lemma FirstPageApart(rest: seq<LogEntry>, last: int, limit: nat)
    requires limit >= 1 && |rest| > limit && forall i | 0 <= i < |rest| :: rest[i].id > last
    ensures PagesIncrease(rest, last, limit) <==> Apart(rest, limit) && PagesIncrease(rest[limit..], last, limit)
  {
    if PagesIncrease(rest, last, limit) {
      Apartness(rest, last, limit);
    }
    if Apart(rest, limit) && PagesIncrease(rest[limit..], last, limit) {
      Together(rest, last, limit);
    }
  }

  lemma {:induction false} PagedPast(rows: seq<LogEntry>, last: int, limit: nat)
    ensures forall x | x in Paged(rows, last, limit) :: x in rows && x.id > last
    decreases |AfterId(rows, last)|
  {
    var page := Page(rows, last, limit);
    AfterIdIs(rows, last);
    if page != [] {
      PageAdvances(rows, last, limit);
      PagedPast(rows, MaxId(page, last), limit);
      forall x | x in page ensures x in rows && x.id > last { assert x in AfterId(rows, last); }
    }
  }

  lemma RestAfter(done: seq<LogEntry>, rest: seq<LogEntry>, last: int)
    requires forall i | 0 <= i < |done| :: done[i].id <= last
    requires forall i | 0 <= i < |rest| :: rest[i].id > last
    ensures AfterId(done + rest, last) == rest
  {
    AfterIdConcat(done, rest, last);
    AfterIdNone(done, last);
    AfterIdAll(rest, last);
  }

  lemma MaxIdBounds(done: seq<LogEntry>, page: seq<LogEntry>, last: int)
    requires forall i | 0 <= i < |done| :: done[i].id <= last
    ensures forall i | 0 <= i < |done + page| :: (done + page)[i].id <= MaxId(page, last)
  {
    MaxIdIs(page, last);
    forall i | 0 <= i < |done + page| ensures (done + page)[i].id <= MaxId(page, last) {
      assert (done + page)[i] in done || (done + page)[i] in page;
    }
  }

  // A short rest comes out whole, in whatever order its ids are.
  lemma LastPage(done: seq<LogEntry>, rest: seq<LogEntry>, last: int, limit: nat)
    requires limit >= 1 && |rest| <= limit && forall i | 0 <= i < |done| :: done[i].id <= last
    requires forall i | 0 <= i < |rest| :: rest[i].id > last
    ensures Paged(done + rest, last, limit) == rest && PagesIncrease(rest, last, limit)
  {
    RestAfter(done, rest, last);
    PagedUnfolds(done + rest, last, limit);
    if rest != [] {
      MaxIdBounds(done, rest, last);
      AfterIdNone(done + rest, MaxId(rest, last));
      PagedUnfolds(done + rest, MaxId(rest, last), limit);
    }
    forall i | 0 <= i < |rest| ensures i / limit == 0 { PageNumbers(i, limit); }
  }

  // The ids after the page lie past the cursor exactly when they lie past the page.
  lemma PastPage(rest: seq<LogEntry>, last: int, limit: nat, next: int)
    requires limit >= 1 && |rest| > limit && next == MaxId(rest[..limit], last)
    requires forall i | 0 <= i < |rest| :: rest[i].id > last
    ensures (forall j | 0 <= j < |rest[limit..]| :: rest[limit..][j].id > next) <==> Apart(rest, limit)
  {
    var page, later := rest[..limit], rest[limit..];
    MaxIdIs(page, last);
    assert page[0] in page;
    if forall j | 0 <= j < |later| :: later[j].id > next {
      forall i, j | 0 <= i < limit <= j < |rest| ensures rest[i].id < rest[j].id {
        assert page[i] in page && later[j - limit] == rest[j];
      }
    }
    if Apart(rest, limit) {
      var x :| x in page && x.id == next;
      var i :| 0 <= i < limit && page[i] == x;
      forall j | 0 <= j < |later| ensures later[j].id > next { assert rest[i].id < rest[j + limit].id; }
    }
  }

  // One full page, and what remains after it.
  lemma FullPage(done: seq<LogEntry>, rest: seq<LogEntry>, last: int, limit: nat)
    requires limit >= 1 && |rest| > limit && forall i | 0 <= i < |done| :: done[i].id <= last
    requires forall i | 0 <= i < |rest| :: rest[i].id > last
    ensures var next := MaxId(rest[..limit], last);
            && Paged(done + rest, last, limit) == rest[..limit] + Paged(done + rest, next, limit)
            && (forall i | 0 <= i < |done + rest[..limit]| :: (done + rest[..limit])[i].id <= next)
            && (PagesIncrease(rest[limit..], next, limit) <==> PagesIncrease(rest, last, limit))
  {
    RestAfter(done, rest, last);
    PagedUnfolds(done + rest, last, limit);
    MaxIdBounds(done, rest[..limit], last);
    FirstPageApart(rest, last, limit);
    PastPage(rest, last, limit, MaxId(rest[..limit], last));
  }

  lemma SamePage(page: seq<LogEntry>, a: seq<LogEntry>, b: seq<LogEntry>)
    ensures page + a == page + b <==> a == b
  {
    assert (page + a)[|page|..] == a && (page + b)[|page|..] == b;
  }

  lemma {:induction false} PagedExactly(done: seq<LogEntry>, rest: seq<LogEntry>, last: int, limit: nat)
    requires limit >= 1 && forall i | 0 <= i < |done| :: done[i].id <= last
    ensures Paged(done + rest, last, limit) == rest <==> PagesIncrease(rest, last, limit)
    decreases |rest|
  {
    if exists i :: 0 <= i < |rest| && rest[i].id <= last {
      var i :| 0 <= i < |rest| && rest[i].id <= last;
      PagedPast(done + rest, last, limit);
      assert rest[i] in rest;
    } else if |rest| <= limit {
      LastPage(done, rest, last, limit);
    } else {
      var page, later := rest[..limit], rest[limit..];
      var next := MaxId(page, last);
      FullPage(done, rest, last, limit);
      PagedExactly(done + page, later, next, limit);
      assert rest == page + later && done + rest == (done + page) + later;
      SamePage(page, Paged(done + rest, next, limit), later);
    }
  }

  // At any page size the CLI shows the whole log exactly when the ids are positive and
  // increase from page to page.
  lemma CompleteExactlyWhenPagesIncrease(rows: seq<LogEntry>, limit: nat)
    requires limit >= 1
    ensures ShowsAll(rows, limit) <==> PagesIncrease(rows, 0, limit)
  {
    PagedExactly([], rows, 0, limit);
    assert [] + rows == rows;
  }

  // The CLI never names a limit, so the controller pages by a thousand.
  const PAGE_SIZE: nat := 1000

  // Two overlapping INSERTs at a page boundary: the later one in time has drawn its id first.
  function SwappedIds(): seq<LogEntry> {
    seq(PAGE_SIZE - 1, i => LogEntry(i + 1, "x", i))
    + [LogEntry(PAGE_SIZE + 1, "x", PAGE_SIZE - 1), LogEntry(PAGE_SIZE, "y", PAGE_SIZE)]
  }

  function SwappedId(i: nat): nat {
    if i < PAGE_SIZE - 1 then i + 1 else if i == PAGE_SIZE - 1 then PAGE_SIZE + 1 else PAGE_SIZE
  }

  lemma SwappedAt(i: nat)
    requires i <= PAGE_SIZE
    ensures |SwappedIds()| == PAGE_SIZE + 1
    ensures SwappedIds()[i].createdAt == i && SwappedIds()[i].id == SwappedId(i)
  {
  }

  // In order of time, and yet not shown in full.
  lemma SwappedIsMissed()
    ensures InQueryOrder(SwappedIds()) && !ShowsAll(SwappedIds(), PAGE_SIZE)
  {
    var rows := SwappedIds();
    forall i | 0 <= i <= PAGE_SIZE
      ensures |rows| == PAGE_SIZE + 1 && rows[i].createdAt == i
      ensures rows[i].id == SwappedId(i)
    {
      SwappedAt(i);
    }
    CompleteExactlyWhenPagesIncrease(rows, PAGE_SIZE);
    assert (PAGE_SIZE - 1) / PAGE_SIZE < PAGE_SIZE / PAGE_SIZE;
    assert rows[PAGE_SIZE - 1].id == PAGE_SIZE + 1 && rows[PAGE_SIZE].id == PAGE_SIZE;
  }

  lemma {:induction false} AfterIdDistinct(rows: seq<LogEntry>, last: int)
    requires forall i, j | 0 <= i < j < |rows| :: rows[i].id != rows[j].id
    ensures forall i, j | 0 <= i < j < |AfterId(rows, last)| :: AfterId(rows, last)[i] != AfterId(rows, last)[j]
  {
    if rows != [] {
      AfterIdDistinct(rows[1..], last);
      AfterIdIs(rows[1..], last);
      forall x | x in rows[1..] ensures x != rows[0] {
        var k :| 0 <= k < |rows[1..]| && rows[1..][k] == x;
        assert rows[k + 1] == x;
      }
    }
  }

  // Whatever the order, nothing is shown that is not in the log, and nothing twice.
  lemma {:induction false} NothingShownTwice(rows: seq<LogEntry>, last: int, limit: nat)
    requires InQueryOrder(rows)
    ensures forall x | x in Paged(rows, last, limit) :: x in rows && x.id > last
    ensures forall i, j | 0 <= i < j < |Paged(rows, last, limit)| ::
              Paged(rows, last, limit)[i] != Paged(rows, last, limit)[j]
    decreases |AfterId(rows, last)|
  {
    var page := Page(rows, last, limit);
    AfterIdIs(rows, last);
    if page != [] {
      PageAdvances(rows, last, limit);
      MaxIdIs(page, last);
      var rest := Paged(rows, MaxId(page, last), limit);
      NothingShownTwice(rows, MaxId(page, last), limit);
      AfterIdDistinct(rows, last);
      forall x | x in page ensures x in rows && x.id > last { assert x in AfterId(rows, last); }
      forall i, j | 0 <= i < |page| && 0 <= j < |rest| ensures page[i] != rest[j] {
        assert page[i] in page && rest[j] in rest;
      }
    }
  }

  // ---------------------------------------------------------------------
  // From the job's output to the terminal
  // ---------------------------------------------------------------------

  // Lines as a terminal shows them.
  function Terminated(lines: seq<string>): string {
    if lines == [] then "" else lines[0] + "\n" + Terminated(lines[1..])
  }

  lemma {:induction false} TerminatedConcat(a: seq<string>, b: seq<string>)
    ensures Terminated(a + b) == Terminated(a) + Terminated(b)
  {
    if a == [] {
      assert a + b == b;
    } else {
      assert (a + b)[0] == a[0] && (a + b)[1..] == a[1..] + b;
      TerminatedConcat(a[1..], b);
      Associative(a[0] + "\n", Terminated(a[1..]), Terminated(b));
    }
  }

  predicate EndsEmpty(lines: seq<string>) {
    lines != [] && lines[|lines| - 1] == ""
  }

  // A chunk lacks the newline of its last line; the CLI adds it unless that line is empty.
  lemma {:induction false} ShownJoin(lines: seq<string>)
    requires lines != [] && forall l | l in lines :: LogShipping.OneLine(l)
    ensures LogShipping.Join(lines) + "\n" == Terminated(lines)
    ensures EndsEmpty(lines) <==> Shown(LogShipping.Join(lines)) == LogShipping.Join(lines)
    ensures !EndsEmpty(lines) ==> Shown(LogShipping.Join(lines)) == Terminated(lines)
  {
    var content := LogShipping.Join(lines);
    if |lines| == 1 {
      assert lines[0] in lines && Terminated(lines) == lines[0] + "\n" + "";
    } else {
      var rest := LogShipping.Join(lines[1..]);
      ShownJoin(lines[1..]);
      assert lines[|lines| - 1] == lines[1..][|lines| - 2];
      assert content + "\n" == lines[0] + "\n" + (rest + "\n");
      assert content[|content| - 1] == if rest == "" then '\n' else rest[|rest| - 1];
    }
  }

  // What the CLI prints for chunks.
  function ShownAll(chunks: seq<string>): string {
    if chunks == [] then "" else ShownAll(chunks[..|chunks| - 1]) + Shown(chunks[|chunks| - 1])
  }

  lemma {:induction false} TextIsShown(rows: seq<LogEntry>, chunks: seq<string>)
    requires |rows| == |chunks| && forall i | 0 <= i < |rows| :: rows[i].content == chunks[i]
    ensures Text(rows) == ShownAll(chunks)
  {
    if rows != [] {
      TextIsShown(rows[..|rows| - 1], chunks[..|chunks| - 1]);
    }
  }

  // Every line of the batch reaches the terminal as it was received.
  predicate Arrives(b: LogShipping.Batch) {
    b.stored && !EndsEmpty(b.lines)
  }

  lemma BatchShown(b: LogShipping.Batch)
    requires LogShipping.Whole(b)
    ensures var shown := if b.stored then Shown(LogShipping.Join(b.lines)) else "";
            if Arrives(b) then shown == Terminated(b.lines) else |shown| < |Terminated(b.lines)|
  {
    ShownJoin(b.lines);
  }

  lemma ChunkShown(chunks: seq<string>, b: LogShipping.Batch)
    ensures ShownAll(chunks + if b.stored then [LogShipping.Join(b.lines)] else [])
         == ShownAll(chunks) + if b.stored then Shown(LogShipping.Join(b.lines)) else ""
  {
    if b.stored {
      assert (chunks + [LogShipping.Join(b.lines)])[..|chunks|] == chunks;
    } else {
      assert chunks + [] == chunks;
    }
  }

  lemma {:induction false} ShownExactly(posts: seq<LogShipping.Batch>)
    requires LogShipping.AllWhole(posts)
    ensures var shown, sent := ShownAll(LogShipping.Chunks(posts)), Terminated(LogShipping.Posted(posts));
            if forall b | b in posts :: Arrives(b) then shown == sent else |shown| < |sent|
  {
    if posts != [] {
      var front, last := posts[..|posts| - 1], posts[|posts| - 1];
      assert posts == front + [last];
      ShownExactly(front);
      assert LogShipping.Whole(last);
      BatchShown(last);
      TerminatedConcat(LogShipping.Posted(front), last.lines);
      ChunkShown(LogShipping.Chunks(front), last);
    }
  }

  // From the job's output to the terminal: the text shown is the lines the batcher
  // received, each on its own line, exactly when every batch was stored and none ended
  // in an empty line.
  lemma PipelineRoundTrip(events: seq<LogShipping.Event>, posts: seq<LogShipping.Batch>, rows: seq<LogEntry>,
                          limit: nat)
    requires LogShipping.Posted(posts) == LogShipping.Received(events) && LogShipping.AllWhole(posts)
    requires |rows| == |LogShipping.Chunks(posts)|
    requires forall i | 0 <= i < |rows| :: rows[i].content == LogShipping.Chunks(posts)[i]
    requires limit >= 1 && PagesIncrease(rows, 0, limit)
    ensures Text(Paged(rows, 0, limit)) == Terminated(LogShipping.Received(events)) <==>
              forall b | b in posts :: Arrives(b)
  {
    CompleteExactlyWhenPagesIncrease(rows, limit);
    TextIsShown(rows, LogShipping.Chunks(posts));
    ShownExactly(posts);
  }
}

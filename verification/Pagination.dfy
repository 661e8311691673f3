/** Listing pending messages page by page, and following the cursor from page to page. */
module Pagination {
  import opened Basics
  import opened PyText

  datatype Row = Row(stamp: int, id: int, body: string)

  datatype Cursor = Cursor(stamp: int, id: int)

  /** The `limit` of a request, by what int() makes of it; JSON as Python reads it knows infinity. */
  datatype RawLimit = NoLimit | Number(n: int) | Fraction(r: real) | Text(s: string) | NotANumber | Infinite

  /** A limit that int() turns into a number or refuses with an error the handler expects. */
  type Limit = raw: RawLimit | raw != Infinite witness NoLimit

  /**
    The `before` of a request: absent, a list, or something else. Stamp(t) is the text of the
    datestamp t, as the cursor of an earlier page carries it.
   */
  datatype Json = Int(n: int) | Stamp(t: int) | OtherJson

  datatype RawCursor = NoCursor | List(items: seq<Json>) | NotAList

  datatype Answer =
    | InvalidCursor
    | DatabaseError
    | Raised
    | Listed(messages: seq<Row>, nextCursor: Option<Cursor>)

  const DEFAULT_LIMIT := 50
  const HANDLER_MAX := 100

  function Clamp(limit: int, most: int): (k: int)
    requires most >= 1
    ensures 1 <= k <= most
  {
    var low := if limit < most then limit else most;
    if low < 1 then 1 else low
  }

  function ParseLimit(raw: Limit): int {
    match raw
    case NoLimit => DEFAULT_LIMIT
    case Number(n) => n
    case Fraction(r) => if r >= 0.0 then r.Floor else -(-r).Floor
    case Text(s) => (match PyInt(s) case Some(n) => n case None => DEFAULT_LIMIT)
    case NotANumber => DEFAULT_LIMIT
  }

  /** x comes strictly before the cursor in descending (datestamp, id) order's direction of travel. */
  predicate Older(x: Row, c: Cursor) {
    x.stamp < c.stamp || (x.stamp == c.stamp && x.id < c.id)
  }

  function CursorOf(x: Row): Cursor { Cursor(x.stamp, x.id) }

  /** The order the database lists rows in. */
  ghost predicate Descending(rows: seq<Row>) {
    forall i, j :: 0 <= i < j < |rows| ==> Older(rows[j], CursorOf(rows[i]))
  }

  /** The rows strictly before a cursor. */
  function Before(rows: seq<Row>, c: Option<Cursor>): seq<Row> {
    if c.None? || rows == [] then rows
    else (if Older(rows[0], c.value) then [rows[0]] else []) + Before(rows[1..], c)
  }

  /** get_pending_page: the first rows before the cursor, as many as its own clamp allows. */
  function Page(rows: seq<Row>, limit: int, pageMax: nat, before: Option<Cursor>): seq<Row>
    requires pageMax >= 1
  {
    var rest := Before(rows, before);
    if |rest| <= Clamp(limit, pageMax) then rest else rest[..Clamp(limit, pageMax)]
  }

  /** _handle_list_pending once access is granted; the database refuses a datestamp it cannot read. */
  function ListPending(rows: seq<Row>, pageMax: nat, limit: RawLimit, before: RawCursor, failing: bool): Answer
    requires pageMax >= 1
  {
    if limit == Infinite then Raised
    else if before == NoCursor then Listing(rows, pageMax, limit, None, failing)
    else if before.NotAList? || |before.items| != 2 || !before.items[1].Int? then InvalidCursor
    else
      match before.items[0]
      case Stamp(t) => Listing(rows, pageMax, limit, Some(Cursor(t, before.items[1].n)), failing)
      case _ => DatabaseError
  }

  /** The page and its cursor, which is there when the page looks full. */
  function Listing(rows: seq<Row>, pageMax: nat, limit: Limit, before: Option<Cursor>, failing: bool): Answer
    requires pageMax >= 1
  {
    if failing then DatabaseError
    else
      var messages := Page(rows, ParseLimit(limit), pageMax, before);
      Listed(messages,
        if |messages| >= Clamp(ParseLimit(limit), HANDLER_MAX) then Some(CursorOf(messages[|messages| - 1])) else None)
  }

  /** A next_cursor sent back as it was received. */
  function Resent(next: Option<Cursor>): RawCursor {
    match next
    case None => NoCursor
    case Some(c) => List([Stamp(c.stamp), Int(c.id)])
  }

  // ---------------------------------------------------------- following cursors

  lemma {:induction false} BeforeShrinks(rows: seq<Row>, c: Option<Cursor>, x: Row)
    requires c.None? || Older(x, c.value)
    ensures |Before(rows, Some(CursorOf(x)))| <= |Before(rows, c)|
    ensures x in rows ==> |Before(rows, Some(CursorOf(x)))| < |Before(rows, c)|
  {
    if rows != [] {
      BeforeShrinks(rows[1..], c, x);
      if c.None? { assert Before(rows[1..], c) == rows[1..]; }
    }
  }

  lemma {:induction false} BeforeOnly(rows: seq<Row>, c: Option<Cursor>)
    ensures forall x :: x in Before(rows, c) <==> x in rows && (c.None? || Older(x, c.value))
  {
    if rows != [] && c.Some? {
      BeforeOnly(rows[1..], c);
      assert rows == [rows[0]] + rows[1..];
    }
  }

  lemma NextShrinks(rows: seq<Row>, pageMax: nat, limit: Limit, before: Option<Cursor>)
    requires pageMax >= 1
    ensures var a := ListPending(rows, pageMax, limit, Resent(before), false);
      && a.Listed?
      && (a.nextCursor.Some? ==> |Before(rows, a.nextCursor)| < |Before(rows, before)|)
  {
    ResentIsRead(rows, pageMax, limit, before);
    var a := ListPending(rows, pageMax, limit, Resent(before), false);
    hide ListPending, Resent, Clamp, ParseLimit;
    if a.nextCursor.Some? {
      var x := a.messages[|a.messages| - 1];
      assert x in Before(rows, before);
      BeforeOnly(rows, before);
      BeforeShrinks(rows, before, x);
    }
  }

  /** What a client gets that sends next_cursor back until there is none, and in how many requests. */
  function Walk(rows: seq<Row>, pageMax: nat, limit: Limit, before: Option<Cursor>): (seq<Row>, nat)
    requires pageMax >= 1
    decreases |Before(rows, before)|
  {
    NextShrinks(rows, pageMax, limit, before);
    var a := ListPending(rows, pageMax, limit, Resent(before), false);
    if a.nextCursor.None? then (a.messages, 1)
    else
      var (more, requests) := Walk(rows, pageMax, limit, a.nextCursor);
      (a.messages + more, requests + 1)
  }

  /** Before a row come exactly the rows listed after it. */
  lemma {:induction false} BeforeRow(rows: seq<Row>, i: nat)
    requires Descending(rows) && i < |rows|
    ensures Before(rows, Some(CursorOf(rows[i]))) == rows[i + 1..]
  {
    var c := Some(CursorOf(rows[i]));
    if i > 0 {
      assert Older(rows[i], CursorOf(rows[0]));
      assert forall a, b :: 0 <= a < b < |rows[1..]| ==> Older(rows[1..][b], CursorOf(rows[1..][a]));
      BeforeRow(rows[1..], i - 1);
      assert rows[1..][i..] == rows[i + 1..];
    } else {
      forall x | x in rows[1..] ensures Older(x, c.value) {
        var j :| 0 <= j < |rows[1..]| && rows[1..][j] == x;
        assert Older(rows[j + 1], CursorOf(rows[0]));
      }
      AllBefore(rows[1..], c.value);
    }
  }

  lemma {:induction false} AllBefore(rows: seq<Row>, c: Cursor)
    requires forall x :: x in rows ==> Older(x, c)
    ensures Before(rows, Some(c)) == rows
  {
    if rows != [] {
      assert rows[0] in rows;
      AllBefore(rows[1..], c);
    }
  }

  /** Messages that arrive after a page was sent do not disturb the pages that follow it. */
  lemma ArrivalsUnseen(news: seq<Row>, rows: seq<Row>, i: nat)
    requires Descending(news + rows) && Descending(rows) && i < |rows|
    ensures Before(news + rows, Some(CursorOf(rows[i]))) == Before(rows, Some(CursorOf(rows[i])))
  {
    hide *;
    BeforeRow(rows, i);
    BeforeRow(news + rows, |news| + i);
    assert (news + rows)[|news| + i] == rows[i];
    assert (news + rows)[|news| + i + 1..] == rows[i + 1..];
  }

  /** The cursor a client holds once it has seen i rows. */
  function CursorAt(rows: seq<Row>, i: nat): Option<Cursor>
    requires i <= |rows|
  {
    if i == 0 then None else Some(CursorOf(rows[i - 1]))
  }

  /** Requests needed for n rows in pages of size, when the handler expects k rows of a full page. */
  function Requests(n: nat, size: nat, k: nat): nat
    requires size >= 1
  {
    n / size + if n % size >= k then 2 else 1
  }

  lemma RequestsStep(n: nat, size: nat, k: nat)
    requires 1 <= k <= size
    ensures n < k ==> Requests(n, size, k) == 1
    ensures k <= n < size ==> Requests(n, size, k) == 2
    ensures n >= size ==> Requests(n, size, k) == Requests(n - size, size, k) + 1
  {
    if n >= size {
      assert n == size * (n / size) + n % size;
      DivStep(n - size, size);
    }
  }

  lemma DivStep(m: nat, size: nat)
    requires size >= 1
    ensures (m + size) / size == m / size + 1 && (m + size) % size == m % size
  {
    var q, r := m / size, m % size;
    assert m + size == (q + 1) * size + r;
    DivUnique(m + size, size, q + 1, r);
  }

  lemma DivUnique(n: nat, d: nat, q: nat, r: nat)
    requires r < d && n == q * d + r
    ensures n / d == q && n % d == r
  {
    var more: int, left: int := q - n / d, n % d - r;
    assert more * d == left;
    BigMultiple(more, d);
  }

  lemma BigMultiple(x: int, d: int)
    requires d >= 0
    ensures x != 0 ==> x * d >= d || x * d <= -d
  {
    if x >= 1 { assert x * d == d + (x - 1) * d; }
    if x <= -1 { assert x * d == -d + (x + 1) * d; }
  }

  lemma BeforeAt(rows: seq<Row>, i: nat)
    requires Descending(rows) && i <= |rows|
    ensures Before(rows, CursorAt(rows, i)) == rows[i..]
  {
    if i == 0 { assert rows[0..] == rows; }
    hide Descending;
    if i > 0 { BeforeRow(rows, i - 1); }
  }

  /** The page a client gets that has seen i rows. */
  lemma PageAt(rows: seq<Row>, pageMax: nat, limit: Limit, i: nat)
    requires Descending(rows) && i <= |rows| && pageMax >= 1
    ensures var k, size := Clamp(ParseLimit(limit), HANDLER_MAX), Clamp(ParseLimit(limit), pageMax);
      var end := if |rows| - i <= size then |rows| else i + size;
      ListPending(rows, pageMax, limit, Resent(CursorAt(rows, i)), false)
        == Listed(rows[i..end], if end - i >= k then CursorAt(rows, end) else None)
  {
    BeforeAt(rows, i);
    ResentIsRead(rows, pageMax, limit, CursorAt(rows, i));
    hide Before, Listing, ListPending, Resent, Descending;
    ListingOfTail(rows, pageMax, limit, CursorAt(rows, i), i);
  }

  /** The page and cursor of a request whose cursor is followed by the rows from i on. */
  lemma ListingOfTail(rows: seq<Row>, pageMax: nat, limit: Limit, before: Option<Cursor>, i: nat)
    requires i <= |rows| && pageMax >= 1 && Before(rows, before) == rows[i..]
    ensures var k, size := Clamp(ParseLimit(limit), HANDLER_MAX), Clamp(ParseLimit(limit), pageMax);
      var end := if |rows| - i <= size then |rows| else i + size;
      Listing(rows, pageMax, limit, before, false)
        == Listed(rows[i..end], if end - i >= k then CursorAt(rows, end) else None)
  {
    hide Before, Clamp, ParseLimit;
    FirstOfTail(rows, i, Clamp(ParseLimit(limit), pageMax));
  }

  lemma FirstOfTail(rows: seq<Row>, i: nat, size: nat)
    requires i <= |rows|
    ensures var end, rest := if |rows| - i <= size then |rows| else i + size, rows[i..];
      && (if |rest| <= size then rest else rest[..size]) == rows[i..end]
      && (end > i ==> rows[i..end][end - i - 1] == rows[end - 1])
  {
  }

  lemma ResentIsRead(rows: seq<Row>, pageMax: nat, limit: Limit, before: Option<Cursor>)
    requires pageMax >= 1
    ensures ListPending(rows, pageMax, limit, Resent(before), false) == Listing(rows, pageMax, limit, before, false)
  {
    hide Listing;
  }

  /** Rows i up to end. */
  function Between(rows: seq<Row>, i: nat, end: nat): seq<Row>
    requires i <= end <= |rows|
  {
    rows[i..end]
  }

  /** One page of the walk, and whether another follows. */
  lemma WalkStep(rows: seq<Row>, pageMax: nat, limit: Limit, i: nat)
    requires Descending(rows) && i <= |rows| && pageMax >= 1
    ensures var k, size := Clamp(ParseLimit(limit), HANDLER_MAX), Clamp(ParseLimit(limit), pageMax);
      var end := if |rows| - i <= size then |rows| else i + size;
      Walk(rows, pageMax, limit, CursorAt(rows, i))
        == if end - i < k then (Between(rows, i, end), 1)
           else var rest := Walk(rows, pageMax, limit, CursorAt(rows, end));
                (Between(rows, i, end) + rest.0, rest.1 + 1)
  {
    PageAt(rows, pageMax, limit, i);
    hide ListPending, Clamp, ParseLimit, Before, Resent;
  }

  /** Pages no smaller than the handler expects: the walk gives the remaining rows, once, in order. */
  lemma {:induction false} WalkFrom(rows: seq<Row>, pageMax: nat, limit: Limit, i: nat)
    requires Descending(rows) && i <= |rows| && pageMax >= 1
    requires Clamp(ParseLimit(limit), HANDLER_MAX) <= Clamp(ParseLimit(limit), pageMax)
    ensures Walk(rows, pageMax, limit, CursorAt(rows, i))
      == (Between(rows, i, |rows|),
          Requests(|rows| - i, Clamp(ParseLimit(limit), pageMax), Clamp(ParseLimit(limit), HANDLER_MAX)))
    decreases |rows| - i
  {
    hide *;
    var k, size := Clamp(ParseLimit(limit), HANDLER_MAX), Clamp(ParseLimit(limit), pageMax);
    var n := |rows| - i;
    var end := if n <= size then |rows| else i + size;
    WalkStep(rows, pageMax, limit, i);
    if n >= k { WalkFrom(rows, pageMax, limit, end); }
    RequestsLeft(n, size, k);
    Join(rows, i, end);
  }

  /** Requests for n rows and for those left after the first page. */
  lemma RequestsLeft(n: nat, size: nat, k: nat)
    requires 1 <= k <= size
    ensures Requests(n, size, k) == if n < k then 1 else Requests(if n <= size then 0 else n - size, size, k) + 1
  {
    RequestsStep(n, size, k);
    RequestsStep(0, size, k);
    hide Requests;
  }

  lemma Join(rows: seq<Row>, i: nat, end: nat)
    requires i <= end <= |rows|
    ensures Between(rows, i, end) + Between(rows, end, |rows|) == Between(rows, i, |rows|)
  {
  }

  /**
    Following next_cursor from the start gives every row exactly once, in order, exactly when the
    database's pages are not smaller than the handler expects or everything fits in one page.
   */
  lemma CompleteIff(rows: seq<Row>, pageMax: nat, limit: Limit)
    requires Descending(rows) && pageMax >= 1
    ensures var k, size := Clamp(ParseLimit(limit), HANDLER_MAX), Clamp(ParseLimit(limit), pageMax);
      Walk(rows, pageMax, limit, None).0 == rows <==> size >= k || |rows| <= size
  {
    var k, size := Clamp(ParseLimit(limit), HANDLER_MAX), Clamp(ParseLimit(limit), pageMax);
    if size >= k {
      WalkFrom(rows, pageMax, limit, 0);
      assert rows[0..|rows|] == rows;
    } else {
      PageAt(rows, pageMax, limit, 0);
    }
  }

  /** With pages of the size the handler expects, n rows take exactly n div k + 1 requests. */
  lemma WalkIsComplete(rows: seq<Row>, limit: Limit)
    requires Descending(rows)
    ensures var k := Clamp(ParseLimit(limit), HANDLER_MAX);
      Walk(rows, HANDLER_MAX, limit, None) == (rows, |rows| / k + 1)
  {
    WalkFrom(rows, HANDLER_MAX, limit, 0);
    hide Walk, ParseLimit, Descending, Clamp;
    assert rows[0..|rows|] == rows;
  }

  /** No row comes twice, since the rows are strictly descending. */
  lemma NoRowTwice(rows: seq<Row>, limit: Limit)
    requires Descending(rows)
    ensures var got := Walk(rows, HANDLER_MAX, limit, None).0;
      forall i, j :: 0 <= i < j < |got| ==> got[i] != got[j]
  {
    WalkIsComplete(rows, limit);
    hide Walk;
    forall i, j | 0 <= i < j < |rows| ensures rows[i] != rows[j] {
      assert Older(rows[j], CursorOf(rows[i]));
    }
  }

  // ---------------------------------------------------------- any request

  /** The page size a limit asks for: absent or unreadable 50, fractions toward zero, and then between 1 and 100. */
  lemma PageSizeIs(limit: Limit)
    ensures var k := Clamp(ParseLimit(limit), HANDLER_MAX);
      match limit
      case NoLimit => k == 50
      case NotANumber => k == 50
      case Number(n) => if n <= 1 then k == 1 else if n >= 100 then k == 100 else k == n
      case Fraction(r) =>
        if r < 2.0 then k == 1 else if r >= 100.0 then k == 100 else k as real <= r < (k + 1) as real
      case Text(s) =>
        (match PyInt(s)
         case None => k == 50
         case Some(n) => if n <= 1 then k == 1 else if n >= 100 then k == 100 else k == n)
  {
  }

  /** Every kind of answer, by the request that gets it. */
  lemma AnswersIff(rows: seq<Row>, pageMax: nat, limit: RawLimit, before: RawCursor, failing: bool)
    requires pageMax >= 1
    ensures var a := ListPending(rows, pageMax, limit, before, failing);
      var pair := before.List? && |before.items| == 2 && before.items[1].Int?;
      && (a == Raised <==> limit == Infinite)
      && (a == InvalidCursor <==> limit != Infinite && before != NoCursor && !pair)
      && (a == DatabaseError <==>
            limit != Infinite && (before == NoCursor || pair) && (failing || (pair && !before.items[0].Stamp?)))
      && (a.Listed? <==> limit != Infinite && !failing && (before == NoCursor || (pair && before.items[0].Stamp?)))
  {
    hide Page, ParseLimit, Clamp;
  }

  /** The rows before any cursor are the tail of the listing that starts at the first older row. */
  lemma {:induction false} BeforeIsTail(rows: seq<Row>, c: Cursor) returns (i: nat)
    requires Descending(rows)
    ensures i <= |rows| && Before(rows, Some(c)) == rows[i..]
    ensures forall j :: 0 <= j < |rows| ==> (Older(rows[j], c) <==> j >= i)
  {
    if rows == [] {
      i := 0;
    } else {
      var rest := rows[1..];
      assert forall a, b :: 0 <= a < b < |rest| ==> Older(rest[b], CursorOf(rest[a]));
      if Older(rows[0], c) {
        forall j | 0 <= j < |rows| ensures Older(rows[j], c) {
          if j > 0 { assert Older(rows[j], CursorOf(rows[0])); }
        }
        AllBefore(rows, c);
        i := 0;
      } else {
        var k := BeforeIsTail(rest, c);
        i := k + 1;
        assert rows[i..] == rest[k..];
        assert forall j :: 0 < j < |rows| ==> rows[j] == rest[j - 1];
      }
    }
  }

  /** Whatever cursor a request carries, it gets the newest rows older than it, as many as fit the page. */
  lemma AnyPage(rows: seq<Row>, pageMax: nat, limit: Limit, stamp: int, id: int) returns (i: nat)
    requires Descending(rows) && pageMax >= 1
    ensures i <= |rows| && forall j :: 0 <= j < |rows| ==> (Older(rows[j], Cursor(stamp, id)) <==> j >= i)
    ensures var k, size := Clamp(ParseLimit(limit), HANDLER_MAX), Clamp(ParseLimit(limit), pageMax);
      var end := if |rows| - i <= size then |rows| else i + size;
      ListPending(rows, pageMax, limit, List([Stamp(stamp), Int(id)]), false)
        == Listed(rows[i..end], if end - i >= k then CursorAt(rows, end) else None)
  {
    i := BeforeIsTail(rows, Cursor(stamp, id));
    ResentIsRead(rows, pageMax, limit, Some(Cursor(stamp, id)));
    hide Before, Listing, ListPending, Descending, Older;
    ListingOfTail(rows, pageMax, limit, Some(Cursor(stamp, id)), i);
  }

  /** An infinite limit is the one whose error gets past the handler, whatever the rest of the request. */
  lemma RaisesIff(rows: seq<Row>, pageMax: nat, limit: RawLimit, before: RawCursor, failing: bool)
    requires pageMax >= 1
    ensures ListPending(rows, pageMax, limit, before, failing) == Raised <==> limit == Infinite
  {
  }
}

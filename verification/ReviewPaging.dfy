/** Listing open reviews page by page, filtered by reason, skipping reviews whose errand has moved on. */
module ReviewPaging {
  import opened Prelude
  import opened Errands

  const MAX_PAGE_SIZE := 100

  /** An open review. IDs are positive and given in order. */
  datatype Row = Row(id: int, errandId: string, reason: ReviewReason)

  /** One page, and the cursor to pass for the following one; a cursor of 0 ends the list. */
  datatype Page = Page(items: seq<Row>, next: int)

  /** `reason` is NoReview when the list is not filtered. */
  datatype Query = Query(after: int, limit: int, reason: ReviewReason)

  ghost predicate InOrder(rows: seq<Row>) {
    && (forall i, j :: 0 <= i < j < |rows| ==> rows[i].id < rows[j].id)
    && (forall i :: 0 <= i < |rows| ==> rows[i].id > 0)
  }

  predicate Matches(row: Row, reason: ReviewReason) {
    reason == NoReview || row.reason == reason
  }

  /** The review belongs on the list. */
  predicate Wanted(row: Row, reason: ReviewReason, store: map<string, Status>) {
    Matches(row, reason) && row.errandId in store && store[row.errandId] == ReviewRequired
  }

  /** What the list should show of some rows. */
  function Listed(rows: seq<Row>, reason: ReviewReason, store: map<string, Status>): (items: seq<Row>) {
    if rows == [] then []
    else
      var n := |rows| - 1;
      Listed(rows[..n], reason, store) + if Wanted(rows[n], reason, store) then [rows[n]] else []
  }

  /** The rows after an ID. */
  function After(rows: seq<Row>, id: int): (rest: seq<Row>) {
    if rows == [] then [] else if rows[0].id > id then rows else After(rows[1..], id)
  }

  // ---------------------------------------------------------------- facts about rows

  lemma {:induction false} ListedConcat(a: seq<Row>, b: seq<Row>, reason: ReviewReason, store: map<string, Status>)
    ensures Listed(a + b, reason, store) == Listed(a, reason, store) + Listed(b, reason, store)
    decreases |b|
  {
    hide Wanted;
    if b == [] {
      assert a + b == a;
    } else {
      var n := |b| - 1;
      ListedConcat(a, b[..n], reason, store);
      assert (a + b)[..|a + b| - 1] == a + b[..n] && (a + b)[|a + b| - 1] == b[n];
      var last, x, y := (if Wanted(b[n], reason, store) then [b[n]] else []), Listed(a, reason, store),
        Listed(b[..n], reason, store);
      assert Listed(b, reason, store) == y + last;
      assert Listed(a + b, reason, store) == x + y + last;
      assert x + y + last == x + (y + last);
    }
  }

  lemma {:induction false} ListedNone(rows: seq<Row>, reason: ReviewReason, store: map<string, Status>)
    requires forall i :: 0 <= i < |rows| ==> !Wanted(rows[i], reason, store)
    ensures Listed(rows, reason, store) == []
  {
    if rows != [] {
      ListedNone(rows[..|rows| - 1], reason, store);
    }
  }

  /** The list shows exactly the wanted reviews, each once, in ID order. */
  lemma {:induction false} ListedExact(rows: seq<Row>, reason: ReviewReason, store: map<string, Status>)
    requires InOrder(rows)
    ensures InOrder(Listed(rows, reason, store))
    ensures forall row :: row in Listed(rows, reason, store) <==>
      && row in rows && (reason == NoReview || row.reason == reason)
      && row.errandId in store && store[row.errandId] == ReviewRequired
    decreases |rows|
  {
    if rows != [] {
      var n := |rows| - 1;
      var before := Listed(rows[..n], reason, store);
      ListedExact(rows[..n], reason, store);
      assert rows == rows[..n] + [rows[n]];
      forall i | 0 <= i < |before|
        ensures before[i].id < rows[n].id
      {
        assert before[i] in rows[..n];
      }
    }
  }

  /** Rows after the k-th are those after its ID. */
  lemma {:induction false} AfterRow(rows: seq<Row>, k: nat)
    requires InOrder(rows) && k < |rows|
    ensures After(rows, rows[k].id) == rows[k + 1..]
    decreases k
  {
    if k == 0 {
      if |rows| > 1 {
        assert After(rows[1..], rows[0].id) == rows[1..];
      }
    } else {
      AfterRow(rows[1..], k - 1);
    }
  }

  lemma {:induction false} AfterIsSuffix(rows: seq<Row>, id: int)
    requires InOrder(rows)
    ensures |After(rows, id)| <= |rows| && After(rows, id) == rows[|rows| - |After(rows, id)|..]
    ensures InOrder(After(rows, id)) && forall i :: 0 <= i < |After(rows, id)| ==> After(rows, id)[i].id > id
  {
    if rows != [] && rows[0].id <= id {
      AfterIsSuffix(rows[1..], id);
    }
  }

  /** Reading on from a row of the rest gives the rest after it. */
  lemma AfterAfter(rows: seq<Row>, id: int, k: nat)
    requires InOrder(rows) && k < |After(rows, id)|
    ensures After(rows, After(rows, id)[k].id) == After(rows, id)[k + 1..]
  {
    hide After;
    AfterIsSuffix(rows, id);
    var rest := After(rows, id);
    var start := |rows| - |rest|;
    assert rest[k] == rows[start + k];
    AfterRow(rows, start + k);
  }

  /** A batch of open reviews after an ID: SELECT ... WHERE id > after ORDER BY id LIMIT n. */
  function ListOpen(rows: seq<Row>, after: int, n: nat): (batch: seq<Row>) {
    var rest := After(rows, after);
    if |rest| > n then rest[..n] else rest
  }

  // ---------------------------------------------------------------- one page

  /** How far a page has read: the rows `rest[..p]`, of which `items` are listed. */
  ghost predicate ReadTo(rows: seq<Row>, q: Query, store: map<string, Status>, p: nat, after: int, items: seq<Row>,
                         last: int) {
    var rest := After(rows, q.after);
    && p <= |rest| && After(rows, after) == rest[p..]
    && items == Listed(rest[..p], q.reason, store) && |items| <= q.limit
    && (items == [] ==> last == 0)
    && (items != [] ==> exists k: nat :: LastAt(rows, q, store, p, k) && last == rest[k].id)
  }

  /** The last listed row of `rest[..p]` is the k-th. */
  ghost predicate LastAt(rows: seq<Row>, q: Query, store: map<string, Status>, p: nat, k: nat) {
    var rest := After(rows, q.after);
    k < p <= |rest| && Wanted(rest[k], q.reason, store) && forall i :: k < i < p ==> !Wanted(rest[i], q.reason, store)
  }

  lemma ReadOne(rows: seq<Row>, q: Query, store: map<string, Status>, p: nat, after: int, items: seq<Row>, last: int)
    requires InOrder(rows) && ReadTo(rows, q, store, p, after, items, last) && p < |After(rows, q.after)|
    ensures var row := After(rows, q.after)[p];
      if Wanted(row, q.reason, store)
      then |items| < q.limit ==> ReadTo(rows, q, store, p + 1, row.id, items + [row], row.id)
      else ReadTo(rows, q, store, p + 1, row.id, items, last)
  {
    hide After, InOrder, Wanted;
    var rest := After(rows, q.after);
    assert rest[..p + 1][..p] == rest[..p];
    AfterAfter(rows, q.after, p);
    if Wanted(rest[p], q.reason, store) {
      assert LastAt(rows, q, store, p + 1, p);
    } else if items != [] {
      var k: nat :| LastAt(rows, q, store, p, k) && last == rest[k].id;
      assert LastAt(rows, q, store, p + 1, k);
    }
  }

  /** Whatever comes after the last listed row is what comes after everything read. */
  lemma ResumeAtLast(rows: seq<Row>, q: Query, store: map<string, Status>, p: nat, after: int, items: seq<Row>,
                     last: int)
    requires InOrder(rows) && ReadTo(rows, q, store, p, after, items, last) && items != []
    ensures items + Listed(After(rows, last), q.reason, store) == Listed(After(rows, q.after), q.reason, store)
    ensures last > q.after && last > 0 && |After(rows, last)| < |After(rows, q.after)|
  {
    hide After, Wanted, Listed;
    var rest := After(rows, q.after);
    var k: nat :| LastAt(rows, q, store, p, k) && last == rest[k].id;
    AfterAfter(rows, q.after, k);
    AfterIsSuffix(rows, q.after);
    var gap := rest[k + 1..p];
    ListedNone(gap, q.reason, store);
    assert rest[k + 1..] == gap + rest[p..];
    ListedConcat(gap, rest[p..], q.reason, store);
    assert rest == rest[..p] + rest[p..];
    ListedConcat(rest[..p], rest[p..], q.reason, store);
  }

  /** Every matching review's errand can be read. */
  ghost predicate Readable(rows: seq<Row>, reason: ReviewReason, store: map<string, Status>) {
    forall i :: 0 <= i < |rows| && Matches(rows[i], reason) ==> rows[i].errandId in store
  }

  /** One page continues the list exactly: it shows the next reviews, and says where the rest begins or that there is
      none. */
  ghost predicate PageFits(rows: seq<Row>, q: Query, store: map<string, Status>, page: Page) {
    var rest := Listed(After(rows, q.after), q.reason, store);
    && |page.items| <= q.limit
    && (page.next == 0 ==> page.items == rest)
    && (page.next != 0 ==>
          && |page.items| == q.limit && page.items != [] && page.next == page.items[|page.items| - 1].id > q.after
          && page.items + Listed(After(rows, page.next), q.reason, store) == rest
          && |After(rows, page.next)| < |After(rows, q.after)|)
  }

  lemma LastIsLast(rows: seq<Row>, q: Query, store: map<string, Status>, p: nat, after: int, items: seq<Row>, last: int)
    requires ReadTo(rows, q, store, p, after, items, last) && items != []
    ensures last == items[|items| - 1].id
  {
    hide After, Wanted;
    var rest := After(rows, q.after);
    var k: nat :| LastAt(rows, q, store, p, k) && last == rest[k].id;
    assert rest[..p] == rest[..k + 1] + rest[k + 1..p];
    ListedConcat(rest[..k + 1], rest[k + 1..p], q.reason, store);
    ListedNone(rest[k + 1..p], q.reason, store);
    assert rest[..k + 1][..k] == rest[..k];
  }

  method List(rows: seq<Row>, store: map<string, Status>, q: Query) returns (r: Outcome<Page>)
    requires InOrder(rows)
    ensures !(1 <= q.limit <= 100) ==> r == Fail(InvalidArgument)
    ensures 1 <= q.limit <= 100 && Readable(rows, q.reason, store) ==> r.Ok?
    ensures 1 <= q.limit <= 100 && r.Fail? ==> r.code == ErrandNotFound
    ensures r.Ok? ==> PageFits(rows, q, store, r.value)
  {
    hide After, InOrder, Listed, ReadTo, Wanted;
    if q.limit < 1 || q.limit > MAX_PAGE_SIZE {
      return Fail(InvalidArgument);
    }
    var batchSize := q.limit + 1;
    var items: seq<Row> := [];
    var last := 0;
    var after := q.after;
    ghost var rest := After(rows, q.after);
    ghost var p := 0;
    StartReading(rows, q, store);
    var done := false;
    while !done
      invariant ReadTo(rows, q, store, p, after, items, last) && p <= |rest| && After(rows, after) == rest[p..]
        && |items| <= q.limit
      invariant done ==> p == |rest|
      decreases !done, |rest| - p
    {
      var batch := ListOpen(rows, after, batchSize);
      ghost var start := p;
      var i := 0;
      while i < |batch|
        invariant 0 <= i <= |batch| && p == start + i <= |rest| && start + |batch| <= |rest|
          && batch == rest[start..start + |batch|]
        invariant ReadTo(rows, q, store, p, after, items, last) && After(rows, after) == rest[p..] && |items| <= q.limit
      {
        var open := batch[i];
        assert open == rest[p];
        ReadOne(rows, q, store, p, after, items, last);
        if !Matches(open, q.reason) {
          assert !Wanted(open, q.reason, store) by { NotMatching(open, q.reason, store); }
        } else {
          if |items| == q.limit {
            ResumeAtLast(rows, q, store, p, after, items, last);
            LastIsLast(rows, q, store, p, after, items, last);
            return Ok(Page(items, last));
          }
          if open.errandId !in store {
            NotReadable(rows, q, store, p);
            return Fail(ErrandNotFound);
          }
          if store[open.errandId] == ReviewRequired {
            assert Wanted(open, q.reason, store) by { MatchingAndOpen(open, q.reason, store); }
            items := items + [open];
            last := open.id;
          } else {
            assert !Wanted(open, q.reason, store) by { NotUnderReview(open, q.reason, store); }
          }
        }
        after := open.id;
        p := p + 1;
        i := i + 1;
        ReadParts(rows, q, store, p, after, items, last);
      }
      done := |batch| < batchSize;
    }
    ReadAll(rows, q, store, p, after, items, last);
    r := Ok(Page(items, 0));
  }

  /** A page holds, in ID order, exactly the wanted reviews after the cursor and up to its own; the last page all of
      them after the cursor. */
  lemma PageExact(rows: seq<Row>, q: Query, store: map<string, Status>, page: Page)
    requires InOrder(rows) && PageFits(rows, q, store, page)
    ensures InOrder(page.items)
    ensures forall row :: row in page.items <==>
      && row in rows && q.after < row.id && (page.next == 0 || row.id <= page.next)
      && (q.reason == NoReview || row.reason == q.reason)
      && row.errandId in store && store[row.errandId] == ReviewRequired
  {
    hide After, Listed, InOrder;
    AfterExact(rows, q.after);
    ListedExact(After(rows, q.after), q.reason, store);
    if page.next != 0 {
      AfterExact(rows, page.next);
      ListedExact(After(rows, page.next), q.reason, store);
      PrefixInOrder(page.items, Listed(After(rows, page.next), q.reason, store));
    }
  }

  lemma AfterExact(rows: seq<Row>, id: int)
    requires InOrder(rows)
    ensures InOrder(After(rows, id)) && forall row :: row in After(rows, id) <==> row in rows && row.id > id
  {
    hide After;
    AfterIsSuffix(rows, id);
    AfterKeeps(rows, id);
  }

  lemma {:induction false} AfterKeeps(rows: seq<Row>, id: int)
    ensures forall row :: row in rows && row.id > id ==> row in After(rows, id)
  {
    if rows != [] && rows[0].id <= id {
      AfterKeeps(rows[1..], id);
      assert rows == [rows[0]] + rows[1..];
    }
  }

  lemma PrefixInOrder(a: seq<Row>, b: seq<Row>)
    requires InOrder(a + b) && a != []
    ensures InOrder(a) && forall i :: 0 <= i < |a| ==> a[i].id <= a[|a| - 1].id
  {
    assert forall i :: 0 <= i < |a| ==> (a + b)[i] == a[i];
  }

  lemma StartReading(rows: seq<Row>, q: Query, store: map<string, Status>)
    requires q.limit >= 1
    ensures ReadTo(rows, q, store, 0, q.after, [], 0)
  {
    hide After;
    assert After(rows, q.after)[0..] == After(rows, q.after);
  }

  lemma ReadParts(rows: seq<Row>, q: Query, store: map<string, Status>, p: nat, after: int, items: seq<Row>, last: int)
    requires ReadTo(rows, q, store, p, after, items, last)
    ensures After(rows, after) == After(rows, q.after)[p..] && |items| <= q.limit
  {
    hide After;
  }

  lemma ReadAll(rows: seq<Row>, q: Query, store: map<string, Status>, p: nat, after: int, items: seq<Row>, last: int)
    requires ReadTo(rows, q, store, p, after, items, last) && p == |After(rows, q.after)|
    ensures PageFits(rows, q, store, Page(items, 0))
  {
    hide After, Listed;
    assert After(rows, q.after)[..p] == After(rows, q.after);
  }

  lemma NotMatching(row: Row, reason: ReviewReason, store: map<string, Status>)
    requires !Matches(row, reason)
    ensures !Wanted(row, reason, store)
  {
  }

  lemma MatchingAndOpen(row: Row, reason: ReviewReason, store: map<string, Status>)
    requires Matches(row, reason) && row.errandId in store && store[row.errandId] == ReviewRequired
    ensures Wanted(row, reason, store)
  {
  }

  lemma NotUnderReview(row: Row, reason: ReviewReason, store: map<string, Status>)
    requires row.errandId in store && store[row.errandId] != ReviewRequired
    ensures !Wanted(row, reason, store)
  {
  }

  lemma NotReadable(rows: seq<Row>, q: Query, store: map<string, Status>, p: nat)
    requires InOrder(rows) && p < |After(rows, q.after)|
    requires var row := After(rows, q.after)[p]; Matches(row, q.reason) && row.errandId !in store
    ensures !Readable(rows, q.reason, store)
  {
    hide After;
    AfterIsSuffix(rows, q.after);
    assert After(rows, q.after)[p] == rows[|rows| - |After(rows, q.after)| + p];
  }

  // ---------------------------------------------------------------- finding one errand's review

  const MAX_BATCH := 200

  /** The errand's open review, or that it has none. */
  method FindOpen(rows: seq<Row>, errandId: string) returns (r: Outcome<Row>)
    requires InOrder(rows)
    ensures r.Ok? ==> r.value in rows && r.value.errandId == errandId
    ensures r.Fail? ==> r.code == ErrandUnavailable && forall i :: 0 <= i < |rows| ==> rows[i].errandId != errandId
  {
    hide After, InOrder;
    var after := 0;
    ghost var p := 0;
    FromTheStart(rows);
    var more := true;
    while more
      invariant p <= |rows| && After(rows, after) == rows[p..]
      invariant forall i :: 0 <= i < p ==> rows[i].errandId != errandId
      invariant !more ==> p == |rows|
      decreases more, |rows| - p
    {
      var batch := ListOpen(rows, after, MAX_BATCH);
      ghost var start := p;
      var i := 0;
      while i < |batch|
        invariant 0 <= i <= |batch| && p == start + i && start + |batch| <= |rows|
          && batch == rows[start..start + |batch|]
        invariant After(rows, after) == rows[p..]
        invariant forall j :: 0 <= j < p ==> rows[j].errandId != errandId
      {
        assert batch[i] == rows[p];
        if batch[i].errandId == errandId {
          return Ok(batch[i]);
        }
        AfterRow(rows, p);
        after := batch[i].id;
        p := p + 1;
        i := i + 1;
      }
      more := !(|batch| < MAX_BATCH);
    }
    r := Fail(ErrandUnavailable);
  }

  // ---------------------------------------------------------------- all pages

  /** Following Next from the first page ends, and the pages together list every wanted review once, in ID order. */
  method ListAll(rows: seq<Row>, store: map<string, Status>, reason: ReviewReason, limit: int) returns (items: seq<Row>)
    requires InOrder(rows) && 1 <= limit <= MAX_PAGE_SIZE && Readable(rows, reason, store)
    ensures items == Listed(rows, reason, store)
  {
    hide Listed, Readable, After, InOrder, PageFits;
    var q := Query(0, limit, reason);
    FromTheStart(rows);
    items := [];
    var more := true;
    while more
      invariant q == Query(q.after, limit, reason)
      invariant more ==> items + Listed(After(rows, q.after), reason, store) == Listed(rows, reason, store)
      invariant !more ==> items == Listed(rows, reason, store)
      decreases more, |After(rows, q.after)|
    {
      var r := List(rows, store, q);
      var page := r.value;
      Continue(rows, q, store, page, items);
      items := items + page.items;
      more := page.next != 0;
      q := q.(after := page.next);
    }
  }

  lemma Continue(rows: seq<Row>, q: Query, store: map<string, Status>, page: Page, items: seq<Row>)
    requires PageFits(rows, q, store, page)
    ensures var all := items + Listed(After(rows, q.after), q.reason, store);
      if page.next == 0 then items + page.items == all
      else
        && items + page.items + Listed(After(rows, page.next), q.reason, store) == all
        && |After(rows, page.next)| < |After(rows, q.after)|
  {
    hide Listed, After;
    if page.next != 0 {
      var tail := Listed(After(rows, page.next), q.reason, store);
      assert items + page.items + tail == items + (page.items + tail);
    }
  }

  lemma FromTheStart(rows: seq<Row>)
    requires InOrder(rows)
    ensures After(rows, 0) == rows
  {
  }
}

/** The page arithmetic of `listRooms` and `getMessages`. */
module Pagination {

  /** At most `limit` rows from the `offset`-th on. */
  function Slice<T>(rows: seq<T>, offset: nat, limit: nat): seq<T> {
    if offset >= |rows| then []
    else if offset + limit >= |rows| then rows[offset..]
    else rows[offset..offset + limit]
  }

  function Page<T>(rows: seq<T>, page: nat, limit: nat): seq<T>
    requires page >= 1
  {
    Slice(rows, (page - 1) * limit, limit)
  }

  /** The quotient rounded up. */
  function TotalPages(count: nat, limit: nat): nat
    requires limit >= 1
  {
    (count + limit - 1) / limit
  }

  function Reverse<T>(s: seq<T>): (r: seq<T>)
    ensures |r| == |s|
    ensures forall i :: 0 <= i < |s| ==> r[i] == s[|s| - 1 - i]
  {
    if s == [] then [] else Reverse(s[1..]) + [s[0]]
  }

  function Min(a: nat, b: nat): nat { if a <= b then a else b }

  lemma MulGrows(a: int, b: int, c: nat)
    requires a <= b
    ensures a * c <= b * c
  {
  }

  lemma TotalPagesBounds(count: nat, limit: nat)
    requires limit >= 1
    ensures count <= TotalPages(count, limit) * limit < count + limit
  {
    var total := TotalPages(count, limit);
    assert count + limit - 1 == total * limit + (count + limit - 1) % limit;
  }

  /** The first row of a page exists exactly up to `totalPages`; before the last, all of it does. */
  lemma PageStart(count: nat, page: nat, limit: nat)
    requires page >= 1 && limit >= 1
    ensures (page - 1) * limit < count <==> page <= TotalPages(count, limit)
    ensures page < TotalPages(count, limit) ==> (page - 1) * limit + limit <= count
  {
    var total := TotalPages(count, limit);
    TotalPagesBounds(count, limit);
    if page > total {
      MulGrows(total, page - 1, limit);
    } else {
      MulGrows(page, total, limit);
      assert page * limit == (page - 1) * limit + limit;
      if page < total {
        MulGrows(page + 1, total, limit);
        assert (page + 1) * limit == page * limit + limit;
      }
    }
  }

  /** A page is empty exactly outside `1..totalPages`, and only the last can be short. */
  lemma PageSize<T>(rows: seq<T>, page: nat, limit: nat)
    requires page >= 1 && limit >= 1
    ensures Page(rows, page, limit) != [] <==> page <= TotalPages(|rows|, limit)
    ensures page < TotalPages(|rows|, limit) ==> |Page(rows, page, limit)| == limit
  {
    PageStart(|rows|, page, limit);
  }

  // ---- room list: pages forward ----

  function Forward<T>(rows: seq<T>, limit: nat, pages: nat): seq<T> {
    if pages == 0 then [] else Forward(rows, limit, pages - 1) + Page(rows, pages, limit)
  }

  lemma {:induction false} ForwardIsPrefix<T>(rows: seq<T>, limit: nat, pages: nat)
    ensures Forward(rows, limit, pages) == rows[..Min(|rows|, pages * limit)]
  {
    if pages > 0 {
      ForwardIsPrefix(rows, limit, pages - 1);
      assert pages * limit == (pages - 1) * limit + limit;
    }
  }

  /** All pages in order are the whole list. */
  lemma ListRoundTrip<T>(rows: seq<T>, limit: nat)
    requires limit >= 1
    ensures Forward(rows, limit, TotalPages(|rows|, limit)) == rows
  {
    ForwardIsPrefix(rows, limit, TotalPages(|rows|, limit));
    TotalPagesBounds(|rows|, limit);
  }

  // ---- messages: newest page first, each page oldest first ----

  datatype Message = Message(id: nat, createdAt: int)

  ghost predicate OldestFirst(s: seq<Message>) {
    forall i, j :: 0 <= i < j < |s| ==> s[i].createdAt < s[j].createdAt
  }

  ghost predicate NewestFirst(s: seq<Message>) {
    forall i, j :: 0 <= i < j < |s| ==> s[i].createdAt > s[j].createdAt
  }

  /** `getMessages`, given the room's messages in the order of the query. */
  function GetMessages(newestFirst: seq<Message>, page: nat, limit: nat): seq<Message>
    requires page >= 1
  {
    Reverse(Page(newestFirst, page, limit))
  }

  lemma SameFirst(a: seq<Message>, b: seq<Message>)
    requires OldestFirst(a) && OldestFirst(b) && a != [] && b != [] && a[0] in b && b[0] in a
    ensures a[0] == b[0]
  {
    var j :| 0 <= j < |b| && b[j] == a[0];
    var i :| 0 <= i < |a| && a[i] == b[0];
  }

  lemma {:induction false} OrderIsUnique(a: seq<Message>, b: seq<Message>)
    requires OldestFirst(a) && OldestFirst(b) && multiset(a) == multiset(b)
    ensures a == b
  {
    assert |a| == |multiset(a)| && |b| == |multiset(b)|;
    if a != [] {
      assert a[0] in multiset(b) && b[0] in multiset(a);
      SameFirst(a, b);
      assert a == [a[0]] + a[1..] && b == [b[0]] + b[1..];
      assert multiset(a[1..]) == multiset(a) - multiset{a[0]};
      assert multiset(b[1..]) == multiset(b) - multiset{a[0]};
      OrderIsUnique(a[1..], b[1..]);
    }
  }

  lemma {:induction false} ReverseKeepsElements<T>(s: seq<T>)
    ensures multiset(Reverse(s)) == multiset(s)
  {
    if s != [] {
      ReverseKeepsElements(s[1..]);
      assert s == [s[0]] + s[1..];
    }
  }

  /** `ORDER BY createdAt DESC` of a strictly ordered history is that history backwards. */
  lemma QueryIsHistoryBackwards(history: seq<Message>, rows: seq<Message>)
    requires OldestFirst(history) && NewestFirst(rows) && multiset(rows) == multiset(history)
    ensures rows == Reverse(history)
  {
    ReverseKeepsElements(rows);
    OrderIsUnique(Reverse(rows), history);
    assert Reverse(rows) == history;
    assert forall i :: 0 <= i < |rows| ==> rows[i] == Reverse(rows)[|rows| - 1 - i];
  }

  function Backfill(newestFirst: seq<Message>, limit: nat, pages: nat): seq<Message> {
    if pages == 0 then [] else GetMessages(newestFirst, pages, limit) + Backfill(newestFirst, limit, pages - 1)
  }

  lemma ReverseConcat<T>(a: seq<T>, b: seq<T>)
    ensures Reverse(a + b) == Reverse(b) + Reverse(a)
  {
  }

  lemma {:induction false} BackfillIsForwardReversed(newestFirst: seq<Message>, limit: nat, pages: nat)
    ensures Backfill(newestFirst, limit, pages) == Reverse(Forward(newestFirst, limit, pages))
  {
    if pages > 0 {
      BackfillIsForwardReversed(newestFirst, limit, pages - 1);
      assert Backfill(newestFirst, limit, pages) == GetMessages(newestFirst, pages, limit) + Backfill(newestFirst, limit, pages - 1);
      assert Forward(newestFirst, limit, pages) == Forward(newestFirst, limit, pages - 1) + Page(newestFirst, pages, limit);
      ReverseConcat(Forward(newestFirst, limit, pages - 1), Page(newestFirst, pages, limit));
    }
  }

  /** Fetching the pages from the last to the first gives the whole history, oldest first. */
  lemma MessagesRoundTrip(history: seq<Message>, rows: seq<Message>, limit: nat)
    requires OldestFirst(history) && NewestFirst(rows) && multiset(rows) == multiset(history) && limit >= 1
    ensures Backfill(rows, limit, TotalPages(|rows|, limit)) == history
    ensures forall page :: page >= 1 ==>
      (GetMessages(rows, page, limit) != [] <==> page <= TotalPages(|rows|, limit))
  {
    QueryIsHistoryBackwards(history, rows);
    ListRoundTrip(rows, limit);
    BackfillIsForwardReversed(rows, limit, TotalPages(|rows|, limit));
    forall page | page >= 1
      ensures GetMessages(rows, page, limit) != [] <==> page <= TotalPages(|rows|, limit)
    {
      PageSize(rows, page, limit);
    }
  }
}

/** The ORM queries the command issues against the ticket table, with the table
    held as its rows in primary-key order. */
module Queries {
  import opened Wrappers
  import opened Models

  function Min(a: int, b: int): int {
    if a <= b then a else b
  }

  /** `Ticket.objects.filter(pk__gt=pk)`: the rows with a larger primary key, in table order.
      This is the order-agnostic reference the index-based queries below are checked against. */
  function Above(t: seq<Ticket>, pk: int): (r: seq<Ticket>)
    ensures |r| <= |t|
    ensures forall j :: 0 <= j < |r| ==> r[j].id > pk && r[j] in t
  {
    if |t| == 0 then []
    else if t[0].id > pk then [t[0]] + Above(t[1..], pk)
    else Above(t[1..], pk)
  }

  /** The search behind `Position`, scanning from index `i`, below which every id is at most `pk`. */
  function PositionFrom(t: seq<Ticket>, pk: int, i: nat): (k: nat)
    requires Ordered(t) && i <= |t|
    requires forall j :: 0 <= j < i ==> t[j].id <= pk
    ensures i <= k <= |t|
    ensures forall j :: 0 <= j < k ==> t[j].id <= pk
    ensures forall j :: k <= j < |t| ==> t[j].id > pk
    decreases |t| - i
  {
    if i == |t| || t[i].id > pk then i else PositionFrom(t, pk, i + 1)
  }

  /** The index of the first row whose primary key exceeds `pk`: the rows before it are
      exactly the ones the filter `pk__gt=pk` drops. */
  function Position(t: seq<Ticket>, pk: int): (k: nat)
    requires Ordered(t)
    ensures k <= |t|
    ensures forall i :: 0 <= i < k ==> t[i].id <= pk
    ensures forall i :: k <= i < |t| ==> t[i].id > pk
  {
    PositionFrom(t, pk, 0)
  }

  /** The split point is fixed by the ids alone: an index with every id before it at most
      `pk` and every id from it on above `pk` is `Position`. */
  lemma PositionUnique(t: seq<Ticket>, pk: int, k: nat)
    requires Ordered(t) && k <= |t|
    requires forall i :: 0 <= i < k ==> t[i].id <= pk
    requires forall i :: k <= i < |t| ==> t[i].id > pk
    ensures Position(t, pk) == k
  {
    var p := Position(t, pk);
    var m := Min(p, k);
    if m < |t| {
      assert t[m].id <= pk <==> m < p;
      assert t[m].id <= pk <==> m < k;
    }
  }

  /** Dropping a first row the filter drops moves the split point back by one. */
  lemma PositionAfterFirst(t: seq<Ticket>, pk: int)
    requires Ordered(t) && 0 < |t| && t[0].id <= pk
    ensures Position(t, pk) == 1 + Position(t[1..], pk)
  {
    PositionUnique(t, pk, 1 + Position(t[1..], pk));
  }

  /** On an ordered table the filter keeps a suffix: the rows from `Position` on. */
  lemma {:induction false} AboveIsSuffix(t: seq<Ticket>, pk: int)
    requires Ordered(t)
    ensures Above(t, pk) == t[Position(t, pk)..]
  {
    if |t| > 0 {
      var rest := t[1..];
      AboveIsSuffix(rest, pk);
      var p := Position(rest, pk);
      if t[0].id > pk {
        assert Position(t, pk) == 0;
        assert t == [t[0]] + rest;
      } else {
        PositionAfterFirst(t, pk);
        assert rest[p..] == t[1 + p..];
      }
    }
  }

  /** `Position` depends on the primary keys only, not on the token column. */
  lemma PositionIgnoresTokens(t: seq<Ticket>, u: seq<Ticket>, pk: int)
    requires Ordered(t) && SameIds(t, u)
    ensures Ordered(u)
    ensures Position(u, pk) == Position(t, pk)
  {
    PositionUnique(u, pk, Position(t, pk));
  }

  /** Every row's own primary key splits the table right after that row. */
  lemma PositionOfId(t: seq<Ticket>, j: int)
    requires Ordered(t) && 0 <= j < |t|
    ensures Position(t, t[j].id) == j + 1
  {
    PositionUnique(t, t[j].id, j + 1);
  }

  /** `Ticket.objects.filter(pk__gt=pk).count()`. */
  function CountAfter(t: seq<Ticket>, pk: int): nat
    requires Ordered(t)
  {
    |t| - Position(t, pk)
  }

  /** `Ticket.objects.filter(pk__gt=pk).order_by("pk")[:limit]`. */
  function ScanAfter(t: seq<Ticket>, pk: int, limit: nat): (c: seq<Ticket>)
    requires Ordered(t)
    ensures |c| == Min(limit, CountAfter(t, pk))
    ensures c == t[Position(t, pk)..Position(t, pk) + |c|]
  {
    var k := Position(t, pk);
    t[k..k + Min(limit, |t| - k)]
  }

  /** The index-based queries agree with the filter: the count is the number of rows the
      filter keeps, and the scan returns the first `limit` of them (the table is already
      in `pk` order, so `order_by("pk")` keeps the filter's order). */
  lemma ScanIsFilteredPrefix(t: seq<Ticket>, pk: int, limit: nat)
    requires Ordered(t)
    ensures CountAfter(t, pk) == |Above(t, pk)|
    ensures ScanAfter(t, pk, limit) == Above(t, pk)[..Min(limit, |Above(t, pk)|)]
  {
    var k := Position(t, pk);
    var a := Above(t, pk);
    AboveIsSuffix(t, pk);
    assert |a| == |t| - k;
    var m := Min(limit, |t| - k);
    assert ScanAfter(t, pk, limit) == t[k..k + m];
    assert a[..m] == t[k..k + m];
  }

  /** An object of `bulk` with primary key `id`, searched for from the front. */
  function Find(bulk: seq<Ticket>, id: int): (r: Option<Ticket>)
    ensures r.Some? ==> r.value.id == id && r.value in bulk
    ensures r.None? ==> forall j :: 0 <= j < |bulk| ==> bulk[j].id != id
  {
    if |bulk| == 0 then None
    else if bulk[0].id == id then Some(bulk[0])
    else Find(bulk[1..], id)
  }

  /** `Ticket.objects.bulk_update(bulk, ["token"])`: every row whose primary key occurs in
      `bulk` takes the token of that object; all other rows keep theirs. */
  function BulkUpdate(t: seq<Ticket>, bulk: seq<Ticket>): (r: seq<Ticket>)
    ensures SameIds(r, t)
  {
    seq(|t|, i requires 0 <= i < |t| =>
      match Find(bulk, t[i].id)
      case Some(b) => t[i].(token := b.token)
      case None => t[i])
  }

  /** `Ticket.objects.bulk_create` of `n` blank tickets, numbered from the auto-increment
      counter `nextId`. When the counter is above every id in the table, the table stays
      in primary-key order. */
  function BulkCreate(t: seq<Ticket>, nextId: int, n: nat): (r: seq<Ticket>)
    ensures |r| == |t| + n && r[..|t|] == t
    ensures forall i :: |t| <= i < |r| ==> r[i] == Ticket(nextId + i - |t|, None)
    ensures Ordered(t) && (|t| == 0 || t[|t| - 1].id < nextId) ==> Ordered(r)
  {
    t + seq(n, j requires 0 <= j < n => Ticket(nextId + j, None))
  }
}

/**
 * The per-user order listing (backend/Orders.Api/OrderService.cs:57-61): a `Where` on the
 * user id followed by LINQ's `OrderByDescending` on the creation time. LINQ's ordering is
 * a stable sort, so orders created at the same instant keep their storage order.
 */
module OrderViews {

  import opened Entities

  /** `Where(o => o.UserId == userId)`: the user's orders, in storage order. */
  function OrdersOf(s: seq<Order>, userId: Ident): seq<Order>
    decreases |s|
  {
    if |s| == 0 then []
    else (if s[0].userId == userId then [s[0]] else []) + OrdersOf(s[1..], userId)
  }

  /** The orders created at instant `t`, in their order in `s`. */
  function AtTime(s: seq<Order>, t: int): seq<Order>
    decreases |s|
  {
    if |s| == 0 then []
    else (if s[0].createdAt == t then [s[0]] else []) + AtTime(s[1..], t)
  }

  /** Newest first: creation times never increase along the list. */
  predicate NewestFirstOrdered(s: seq<Order>)
  {
    forall i, j :: 0 <= i < j < |s| ==> s[i].createdAt >= s[j].createdAt
  }

  /** Puts `x` in front of the first order that is not newer than it. */
  function InsertNewest(x: Order, s: seq<Order>): seq<Order>
    decreases |s|
  {
    if |s| == 0 || s[0].createdAt <= x.createdAt then [x] + s
    else [s[0]] + InsertNewest(x, s[1..])
  }

  /** `OrderByDescending(o => o.CreatedAt)`, as a stable insertion sort. */
  function NewestFirst(s: seq<Order>): seq<Order>
    decreases |s|
  {
    if |s| == 0 then [] else InsertNewest(s[0], NewestFirst(s[1..]))
  }

  /** `GetByUserAsync`'s result for the stored list `all`. */
  function ByUserNewestFirst(all: seq<Order>, userId: Ident): seq<Order>
  {
    NewestFirst(OrdersOf(all, userId))
  }

  /** The filter keeps exactly the user's orders, each as often as it is stored. */
  lemma {:induction false} OrdersOfContents(s: seq<Order>, userId: Ident)
    ensures forall x :: multiset(OrdersOf(s, userId))[x] == if x.userId == userId then multiset(s)[x] else 0
    decreases |s|
  {
    if |s| > 0 {
      OrdersOfContents(s[1..], userId);
      assert s == [s[0]] + s[1..];
    }
  }

  /** Inserting adds exactly `x`. */
  lemma {:induction false} InsertNewestPermutes(x: Order, s: seq<Order>)
    ensures multiset(InsertNewest(x, s)) == multiset(s) + multiset{x}
    decreases |s|
  {
    if |s| > 0 && s[0].createdAt > x.createdAt {
      InsertNewestPermutes(x, s[1..]);
      assert s == [s[0]] + s[1..];
    }
  }

  /** Inserting into a newest-first list keeps it newest first. */
  lemma {:induction false} InsertNewestOrdered(x: Order, s: seq<Order>)
    requires NewestFirstOrdered(s)
    ensures NewestFirstOrdered(InsertNewest(x, s))
    decreases |s|
  {
    if |s| > 0 && s[0].createdAt > x.createdAt {
      var rest := InsertNewest(x, s[1..]);
      InsertNewestOrdered(x, s[1..]);
      InsertNewestPermutes(x, s[1..]);
      forall j | 0 <= j < |rest| ensures s[0].createdAt >= rest[j].createdAt {
        assert rest[j] in multiset(rest);
        if rest[j] != x {
          assert rest[j] in multiset(s[1..]);
          var i :| 0 <= i < |s[1..]| && s[1..][i] == rest[j];
          assert s[i + 1] == rest[j];
        }
      }
    }
  }

  /**
   * Seen from one instant, inserting `x` only puts `x` in front: every order before it
   * in the result is strictly newer.
   */
  lemma {:induction false} InsertNewestAtTime(x: Order, s: seq<Order>, t: int)
    ensures AtTime(InsertNewest(x, s), t) == (if x.createdAt == t then [x] else []) + AtTime(s, t)
    decreases |s|
  {
    if |s| == 0 || s[0].createdAt <= x.createdAt {
      AtTimeCons(x, s, t);
    } else {
      var rest := InsertNewest(x, s[1..]);
      InsertNewestAtTime(x, s[1..], t);
      AtTimeCons(s[0], rest, t);
      AtTimeCons(s[0], s[1..], t);
      assert [s[0]] + s[1..] == s;
    }
  }

  lemma {:induction false} AtTimeCons(a: Order, s: seq<Order>, t: int)
    ensures AtTime([a] + s, t) == (if a.createdAt == t then [a] else []) + AtTime(s, t)
  {
    assert ([a] + s)[1..] == s;
  }

  /** The sort is newest first. */
  lemma {:induction false} NewestFirstIsOrdered(s: seq<Order>)
    ensures NewestFirstOrdered(NewestFirst(s))
    decreases |s|
  {
    if |s| > 0 {
      NewestFirstIsOrdered(s[1..]);
      InsertNewestOrdered(s[0], NewestFirst(s[1..]));
    }
  }

  /** The sort is a permutation. */
  lemma {:induction false} NewestFirstPermutes(s: seq<Order>)
    ensures multiset(NewestFirst(s)) == multiset(s)
    decreases |s|
  {
    if |s| > 0 {
      NewestFirstPermutes(s[1..]);
      InsertNewestPermutes(s[0], NewestFirst(s[1..]));
      assert s == [s[0]] + s[1..];
    }
  }

  /** The sort is stable: the orders of any one instant keep their relative order. */
  lemma {:induction false} NewestFirstStable(s: seq<Order>, t: int)
    ensures AtTime(NewestFirst(s), t) == AtTime(s, t)
    decreases |s|
  {
    if |s| > 0 {
      NewestFirstStable(s[1..], t);
      InsertNewestAtTime(s[0], NewestFirst(s[1..]), t);
    }
  }

  /**
   * The listing holds exactly the user's stored orders, newest first, and orders of
   * the same instant appear in storage order.
   */
  lemma {:induction false} ByUserNewestFirstSpec(all: seq<Order>, userId: Ident)
    ensures NewestFirstOrdered(ByUserNewestFirst(all, userId))
    ensures forall x :: multiset(ByUserNewestFirst(all, userId))[x] == if x.userId == userId then multiset(all)[x] else 0
    ensures forall t :: AtTime(ByUserNewestFirst(all, userId), t) == AtTime(OrdersOf(all, userId), t)
  {
    NewestFirstIsOrdered(OrdersOf(all, userId));
    NewestFirstPermutes(OrdersOf(all, userId));
    OrdersOfContents(all, userId);
    forall t ensures AtTime(ByUserNewestFirst(all, userId), t) == AtTime(OrdersOf(all, userId), t) {
      NewestFirstStable(OrdersOf(all, userId), t);
    }
  }
}

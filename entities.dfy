/**
 * The records and enums of the back end (backend/Orders.Api/Program.cs).
 * Every entity is a value; the fields the source declares `init` never change after
 * construction, and the services rebuild an entity with `.(field := …)` only for the
 * fields the source declares `set` (Product.Name, Product.Quantity, Order.Status).
 */
module Entities {

  import opened Wrappers

  /** C#'s `int`: a 32-bit two's-complement integer. */
  const MinInt32: int := -0x8000_0000
  const MaxInt32: int := 0x7FFF_FFFF
  newtype Int32 = x: int | -0x8000_0000 <= x < 0x8000_0000

  const TwoTo32: int := 0x1_0000_0000

  /**
   * The value of an unchecked C# `int` operation whose exact result is `x`: `x` moved
   * by whole multiples of 2^32 into the 32-bit range.
   */
  function Wrap32(x: int): (r: Int32)
    ensures MinInt32 <= x <= MaxInt32 ==> r as int == x
    decreases if x < MinInt32 then MinInt32 - x else if x > MaxInt32 then x - MaxInt32 else 0
  {
    if x < MinInt32 then Wrap32(x + TwoTo32)
    else if x > MaxInt32 then Wrap32(x - TwoTo32)
    else x as Int32
  }

  /** Adding 2^32 does not change the wrapped value. */
  lemma {:induction false} WrapPeriodic(x: int)
    ensures Wrap32(x + TwoTo32) == Wrap32(x)
    decreases if x < MinInt32 then MinInt32 - x else if x > MaxInt32 then x - MaxInt32 else 0
  {
    if x < MinInt32 {
      WrapPeriodic(x + TwoTo32);
    } else if x > MaxInt32 {
      WrapPeriodic(x - TwoTo32);
    } else if x + TwoTo32 > MaxInt32 {
      assert Wrap32(x + TwoTo32) == Wrap32(x);
    }
  }

  /** The wrapped value differs from the exact one by a whole multiple of 2^32. */
  lemma {:induction false} WrapCongruent(x: int) returns (q: int)
    ensures Wrap32(x) as int == x + TwoTo32 * q
    decreases if x < MinInt32 then MinInt32 - x else if x > MaxInt32 then x - MaxInt32 else 0
  {
    if x < MinInt32 {
      q := WrapCongruent(x + TwoTo32);
      q := q + 1;
    } else if x > MaxInt32 {
      q := WrapCongruent(x - TwoTo32);
      q := q - 1;
    } else {
      q := 0;
    }
  }

  /** Shifting by any whole multiple of 2^32 does not change the wrapped value. */
  lemma {:induction false} WrapShift(x: int, q: int)
    ensures Wrap32(x + TwoTo32 * q) == Wrap32(x)
    decreases if q < 0 then -q else q
  {
    if q > 0 {
      WrapShift(x, q - 1);
      WrapPeriodic(x + TwoTo32 * (q - 1));
    } else if q < 0 {
      WrapShift(x, q + 1);
      WrapPeriodic(x + TwoTo32 * q);
    }
  }

  /** Wrapping twice is wrapping once: an unchecked `-=` applied in steps equals one subtraction of the total. */
  lemma {:induction false} WrapSub(x: int, a: int, b: int)
    ensures Wrap32(Wrap32(x - a) as int - b) == Wrap32(x - (a + b))
  {
    var q := WrapCongruent(x - a);
    assert Wrap32(x - a) as int - b == (x - (a + b)) + TwoTo32 * q;
    WrapShift(x - (a + b), q);
  }

  /**
   * C#'s unchecked `a - b` on two `int`s (the default outside a `checked` context):
   * the exact difference, moved back into range by one multiple of 2^32 on overflow.
   */
  function Sub32(a: Int32, b: Int32): (r: Int32)
    ensures MinInt32 <= a as int - b as int <= MaxInt32 ==> r as int == a as int - b as int
    ensures r as int == a as int - b as int
         || r as int == a as int - b as int + TwoTo32
         || r as int == a as int - b as int - TwoTo32
  {
    var d := a as int - b as int;
    if d < MinInt32 then (d + TwoTo32) as Int32
    else if d > MaxInt32 then (d - TwoTo32) as Int32
    else d as Int32
  }

  /** An unchecked subtraction is the wrapped value of the exact one. */
  lemma {:induction false} Sub32IsWrap(a: Int32, b: Int32)
    ensures Sub32(a, b) == Wrap32(a as int - b as int)
  {
    var d := a as int - b as int;
    if d < MinInt32 {
      assert Wrap32(d) == Wrap32(d + TwoTo32);
    } else if d > MaxInt32 {
      assert Wrap32(d) == Wrap32(d - TwoTo32);
    }
  }

  datatype Role = Admin | User

  /** `Role.ToString()`: the enum member's name. */
  function RoleName(r: Role): (s: string)
    ensures s == "Admin" || s == "User"
  {
    match r
    case Admin => "Admin"
    case User => "User"
  }

  /** Reads a role back from its name; only the two member names are roles. */
  function ParseRole(s: string): (r: Option<Role>)
    ensures r.Some? <==> s == "Admin" || s == "User"
  {
    if s == "Admin" then Some(Admin)
    else if s == "User" then Some(User)
    else None
  }

  lemma {:induction false} RoleNameRoundTrip(r: Role, s: string)
    ensures ParseRole(RoleName(r)) == Some(r)
    ensures ParseRole(s) == Some(r) ==> RoleName(r) == s
  {
    match r
    case Admin =>
    case User =>
  }

  /**
   * The GUID strings the entities are identified by. The services only ever compare
   * them for equality (ordinal string `==`), so they are modelled as values of an
   * abstract type with equality; fresh ones are supplied by the caller.
   */
  type Ident(==, !new)

  datatype UserAccount = UserAccount(id: Ident, login: string, passwordHash: string, role: Role)

  datatype Product = Product(id: Ident, name: string, quantity: Int32)

  /** The body of a product create or update request; `id` is only set on update. */
  datatype ProductDto = ProductDto(id: Option<Ident>, name: string, quantity: Int32)

  datatype OrderStatus = ToDo | ToBeSent | Sent

  datatype OrderItem = OrderItem(productId: Ident, name: string, quantity: Int32)

  datatype Order = Order(id: Ident, userId: Ident, createdAt: int, status: OrderStatus, items: seq<OrderItem>)

  datatype OrderItemRequest = OrderItemRequest(productId: Ident, quantity: Int32)

  /**
   * `new Order { Id = id, UserId = userId, Items = items }` at time `now`: the
   * initialisers of Program.cs give a new order status ToDo and the creation time.
   */
  function NewOrder(id: Ident, userId: Ident, now: int, items: seq<OrderItem>): (o: Order)
    ensures o.status == ToDo && o.createdAt == now
    ensures o.id == id && o.userId == userId && o.items == items
  {
    Order(id, userId, now, ToDo, items)
  }

  /** An order as it may legitimately become later: only the settable Status differs. */
  predicate SameOrderButStatus(o: Order, o': Order)
  {
    o'.id == o.id && o'.userId == o.userId && o'.createdAt == o.createdAt && o'.items == o.items
  }

  /** A product as it may legitimately become later: the init-only Id is kept. */
  predicate SameProductId(p: Product, p': Product)
  {
    p'.id == p.id
  }

  /** Key functions by which the services look entities up. */
  function ProductKey(p: Product): Ident { p.id }
  function OrderKey(o: Order): Ident { o.id }
}

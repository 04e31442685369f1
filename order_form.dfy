/**
 * The order page of the web client (frontend/src/pages/UserOrder.tsx): the quantity
 * inputs, kept in an object keyed by product id, and `submit`, which turns the
 * positive selections into order lines and enforces the client-only rule that the
 * total quantity must be a multiple of 6 before anything is sent.
 */
module OrderForm {

  import opened Wrappers
  import opened Lookup

  /** A JavaScript number as the page holds it: an integer, or NaN from an unparsable input. */
  datatype Num = Int(n: int) | NaN

  /** One property of the `selected` object: product id and chosen quantity. */
  datatype Entry = Entry(productId: string, qty: Num)

  /** One request line `{ productId, quantity }`. */
  datatype Line = Line(productId: string, quantity: int)

  /** `Math.min(stock, Math.max(0, parsed))`; NaN propagates through both. */
  function Clamp(stock: int, parsed: Num): (r: Num)
    ensures parsed.NaN? <==> r.NaN?
    ensures parsed.Int? && stock >= 0 ==> 0 <= r.n <= stock
    ensures parsed.Int? && 0 <= parsed.n <= stock ==> r == parsed
    ensures parsed.Int? && parsed.n < 0 && stock >= 0 ==> r == Int(0)
    ensures parsed.Int? && parsed.n > stock && stock >= 0 ==> r == Int(stock)
  {
    match parsed
    case NaN => NaN
    case Int(n) =>
      var atLeastZero := if n > 0 then n else 0;
      Int(if stock < atLeastZero then stock else atLeastZero)
  }

  /** The keys of the object, in property order. */
  function Keys(s: seq<Entry>): (r: seq<string>)
    ensures |r| == |s| && forall i :: 0 <= i < |s| ==> r[i] == s[i].productId
    decreases |s|
  {
    if |s| == 0 then [] else [s[0].productId] + Keys(s[1..])
  }

  /**
   * Property lookup: the value of the key, if present. Written as its own recursion rather
   * than through `Lookup.FirstIndex` because `PutSpec` reasons about it one entry at a time.
   */
  function Get(s: seq<Entry>, key: string): Option<Num>
    decreases |s|
  {
    if |s| == 0 then None
    else if s[0].productId == key then Some(s[0].qty)
    else Get(s[1..], key)
  }

  /** The property name of an entry; an object has each key once (`DistinctKeys(s, EntryKey)`). */
  function EntryKey(e: Entry): string { e.productId }

  /**
   * `{ ...s, [key]: v }`: an existing key keeps its place and takes the new value; a new
   * key is added last.
   */
  function Put(s: seq<Entry>, key: string, v: Num): seq<Entry>
    decreases |s|
  {
    if |s| == 0 then [Entry(key, v)]
    else if s[0].productId == key then [Entry(key, v)] + s[1..]
    else [s[0]] + Put(s[1..], key, v)
  }

  /**
   * After the update the key reads back the new value, every other key reads as before,
   * the keys keep their order (a new key comes last) and stay distinct.
   */
  lemma {:induction false} PutSpec(s: seq<Entry>, key: string, v: Num)
    requires DistinctKeys(s, EntryKey)
    ensures Get(Put(s, key, v), key) == Some(v)
    ensures forall k :: k != key ==> Get(Put(s, key, v), k) == Get(s, k)
    ensures Keys(Put(s, key, v)) == if key in Keys(s) then Keys(s) else Keys(s) + [key]
    ensures DistinctKeys(Put(s, key, v), EntryKey)
    decreases |s|
  {
    if |s| > 0 && s[0].productId != key {
      var rest := Put(s[1..], key, v);
      PutSpec(s[1..], key, v);
      assert Keys(s) == [s[0].productId] + Keys(s[1..]);
      assert Put(s, key, v) == [s[0]] + rest;
      assert Keys([s[0]] + rest) == [s[0].productId] + Keys(rest);
      assert s[0].productId !in Keys(s[1..]);
      forall j | 0 <= j < |rest| ensures rest[j].productId != s[0].productId {
        assert rest[j].productId == Keys(rest)[j];
      }
    } else if |s| > 0 {
      assert Keys(s) == [s[0].productId] + Keys(s[1..]);
      assert Put(s, key, v) == [Entry(key, v)] + s[1..];
      assert Keys([Entry(key, v)] + s[1..]) == [key] + Keys(s[1..]);
      forall k | k != key ensures Get(Put(s, key, v), k) == Get(s, k) {
        assert ([Entry(key, v)] + s[1..])[1..] == s[1..];
      }
    }
  }

  /**
   * `Object.entries(selected).filter(([, q]) => q > 0).map(...)`: the entries with a
   * positive quantity become lines, in property order; NaN is not positive.
   */
  function LinesOf(s: seq<Entry>): (r: seq<Line>)
    ensures forall l :: l in r ==> l.quantity > 0 && Entry(l.productId, Int(l.quantity)) in s
    ensures forall e :: e in s && e.qty.Int? && e.qty.n > 0 ==> Line(e.productId, e.qty.n) in r
    ensures |r| <= |s|
    decreases |s|
  {
    if |s| == 0 then []
    else
      var rest := LinesOf(s[1..]);
      assert forall e :: e in s ==> e == s[0] || e in s[1..];
      if s[0].qty.Int? && s[0].qty.n > 0 then [Line(s[0].productId, s[0].qty.n)] + rest else rest
  }

  /** `items.reduce((sum, item) => sum + item.quantity, 0)`. */
  function Total(items: seq<Line>): int
    decreases |items|
  {
    if |items| == 0 then 0 else items[0].quantity + Total(items[1..])
  }

  /** Positive lines add up to a positive total. */
  lemma {:induction false} TotalPositive(items: seq<Line>)
    requires |items| > 0
    requires forall l :: l in items ==> l.quantity > 0
    ensures Total(items) > 0
    decreases |items|
  {
    if |items| > 1 {
      assert forall l :: l in items[1..] ==> l in items;
      TotalPositive(items[1..]);
    }
  }

  /** What `submit` does with a selection. */
  datatype Decision = NoOp | BatchError | Send(items: seq<Line>)

  function SubmitDecision(s: seq<Entry>): Decision
  {
    var items := LinesOf(s);
    if |items| == 0 then NoOp
    else if Total(items) % 6 != 0 then BatchError
    else Send(items)
  }

  /**
   * A request is sent only when there is at least one positive line and the total is a
   * positive multiple of 6; a non-empty selection with another total is refused with an
   * error; an empty one is ignored. (The total is positive, so JavaScript's `%` and
   * Dafny's agree.)
   */
  lemma {:induction false} SubmitDecisionSpec(s: seq<Entry>)
    ensures SubmitDecision(s).NoOp? <==> |LinesOf(s)| == 0
    ensures SubmitDecision(s).BatchError? <==> |LinesOf(s)| > 0 && Total(LinesOf(s)) % 6 != 0
    ensures SubmitDecision(s).Send? ==>
      && SubmitDecision(s).items == LinesOf(s)
      && Total(SubmitDecision(s).items) > 0
      && Total(SubmitDecision(s).items) % 6 == 0
  {
    if |LinesOf(s)| > 0 {
      TotalPositive(LinesOf(s));
    }
  }

  datatype MsgKind = SuccessMsg | ErrorMsg
  datatype Message = Message(kind: MsgKind, text: string)

  const BatchErrorText: string := "Łączna ilość zamawianych produktów musi być wielokrotnością 6."
  const PlacedText: string := "Zamówienie złożone"
  const PlaceFailedText: string :=
    "Błąd składania zamówienia. Być może ktoś inny złożył zamówienie na ten produkt. Proszę odświeżyć stronę."

  /**
   * The server's answer to `placeOrder`: success, or a failed request whose response
   * body may carry `message` and `error` fields ("" when absent).
   */
  datatype Reply = Placed | Rejected(message: string, error: string)

  /** The message shown for a failed request: the body's `message`, else its `error`, else the default. */
  function FailureText(message: string, error: string): (t: string)
    ensures t != ""
    ensures message != "" ==> t == message
    ensures message == "" && error != "" ==> t == error
    ensures message == "" && error == "" ==> t == PlaceFailedText
  {
    if message != "" then message else if error != "" then error else PlaceFailedText
  }

  class OrderPage {
    /** `selected`. */
    var selected: seq<Entry>
    /** `msg`. */
    var msg: Option<Message>
    /** The line lists passed to `placeOrder`, oldest first. */
    var requests: seq<seq<Line>>

    predicate Valid()
      reads this
    {
      DistinctKeys(selected, EntryKey)
    }

    constructor ()
      ensures Valid()
      ensures selected == [] && msg.None? && requests == []
    {
      selected := [];
      msg := None;
      requests := [];
    }

    /** The quantity input's `onChange` for a product with `stock` units and the parsed input. */
    method Change(productId: string, stock: int, parsed: Num)
      requires Valid()
      modifies this`selected
      ensures Valid()
      ensures selected == Put(old(selected), productId, Clamp(stock, parsed))
      ensures Get(selected, productId) == Some(Clamp(stock, parsed))
    {
      PutSpec(selected, productId, Clamp(stock, parsed));
      selected := Put(selected, productId, Clamp(stock, parsed));
    }

    /** `submit`, with `reply` the outcome of the request when one is sent. */
    method Submit(reply: Reply)
      requires Valid()
      modifies this`selected, this`msg, this`requests
      ensures Valid()
      ensures SubmitDecision(old(selected)).NoOp? ==>
        selected == old(selected) && msg == old(msg) && requests == old(requests)
      ensures SubmitDecision(old(selected)).BatchError? ==>
        selected == old(selected) && msg == Some(Message(ErrorMsg, BatchErrorText)) && requests == old(requests)
      ensures SubmitDecision(old(selected)).Send? ==>
        && requests == old(requests) + [SubmitDecision(old(selected)).items]
        && (reply.Placed? ==> selected == [] && msg == Some(Message(SuccessMsg, PlacedText)))
        && (reply.Rejected? ==>
              selected == old(selected)
              && msg == Some(Message(ErrorMsg, FailureText(reply.message, reply.error))))
    {
      var items := LinesOf(selected);
      if |items| == 0 {
        return;
      }
      var totalQuantity := Total(items);
      if totalQuantity % 6 != 0 {
        msg := Some(Message(ErrorMsg, BatchErrorText));
        return;
      }
      requests := requests + [items];
      match reply
      case Placed =>
        selected := [];
        msg := Some(Message(SuccessMsg, PlacedText));
      case Rejected(message, error) =>
        var backendMsg := if message != "" then message else if error != "" then error else "";
        if backendMsg != "" {
          msg := Some(Message(ErrorMsg, backendMsg));
        } else {
          msg := Some(Message(ErrorMsg, PlaceFailedText));
        }
    }
  }
}

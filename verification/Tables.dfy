/** The rows orders, stock, coupons, payments and carts are kept in, and the writes
    that one transaction makes to them.  Tables that are never deleted from are
    sequences: a row's id is its position.

    Every write function below is the commit-or-rollback part of one transaction: it
    takes what the caller read earlier as an argument, so that value may be stale. */
module Tables {
  import opened Wrappers
  import opened OrderStatus
  import opened Reservation

  type OrderId = nat
  type PaymentId = nat
  type CartRowId = nat
  type CouponCode = string

  datatype PaymentStatus = Pending | Succeeded | Failed | Refunded

  /** One payment attempt. `started` means the provider returned its reference. */
  datatype Payment = Payment(order: OrderId, cash: bool, amount: real, status: PaymentStatus, started: bool,
    createdAt: int)

  datatype Order = Order(
    status: Status,
    items: seq<Line>,
    coupon: Option<CouponCode>,
    subtotal: real,
    total: real,
    createdAt: int)

  datatype CouponKind = PERCENTAGE | FIXED

  datatype Coupon = Coupon(
    kind: CouponKind,
    value: real,
    active: bool,
    minOrderTotal: Option<real>,
    maxUses: Option<nat>,
    usedCount: int,
    expiresAt: Option<int>)

  datatype CartRow = CartRow(cart: nat, product: ProductId, quantity: nat)

  datatype Rows = Rows(
    products: seq<Product>,
    orders: seq<Order>,
    payments: seq<Payment>,
    coupons: map<CouponCode, Coupon>,
    cart: map<CartRowId, CartRow>)

  /** The money of this attempt arrived, and was possibly sent back later. */
  predicate Claimed(p: Payment) {
    p.status == Succeeded || p.status == Refunded
  }

  /** `Math.round`: halves go up. */
  function Round(x: real): int {
    (x + 0.5).Floor
  }

  // ---------------------------------------------------------------------
  // A status change
  // ---------------------------------------------------------------------

  /** What must commit together with the status change. */
  datatype Extra = NoExtra | ClaimPayment(payment: PaymentId) | ConfirmCash(payment: PaymentId)

  /** How a status change ends.  NotFound, NotAllowed, OutOfStock and AlreadyProcessed are
      errors its caller sees. */
  datatype Outcome = Changed | Unchanged | OutOfStock | AlreadyProcessed | NotFound | NotAllowed

  datatype Written = Written(outcome: Outcome, rows: Rows)

  function WithStatus(payments: seq<Payment>, p: PaymentId, status: PaymentStatus): (r: seq<Payment>)
    requires p < |payments|
    ensures |r| == |payments|
  {
    payments[p := payments[p].(status := status)]
  }

  /** A refund turns the order's successful payments into refunded ones; an order that
      ends unpaid fails its pending attempts. */
  function Settled(p: Payment, order: OrderId, to: Status): Payment {
    if p.order != order then p
    else if to == REFUNDED && p.status == Succeeded then p.(status := Refunded)
    else if to in {EXPIRED, CANCELLED, PAYMENT_FAILED} && p.status == Pending then p.(status := Failed)
    else p
  }

  function Settle(payments: seq<Payment>, order: OrderId, to: Status): (r: seq<Payment>)
    ensures |r| == |payments|
  {
    seq(|payments|, i requires 0 <= i < |payments| => Settled(payments[i], order, to))
  }

  function ReleaseUse(coupons: map<CouponCode, Coupon>, code: CouponCode): map<CouponCode, Coupon> {
    if code in coupons && coupons[code].usedCount > 0
    then coupons[code := coupons[code].(usedCount := coupons[code].usedCount - 1)]
    else coupons
  }

  /** A claim takes only an attempt whose money has not been recorded yet. */
  predicate Claimable(payments: seq<Payment>, p: PaymentId) {
    p < |payments| && (payments[p].status == Pending || payments[p].status == Failed)
  }

  /** The stock after a status change; None when units are missing. */
  function MovedStock(stock: seq<Product>, from: Status, to: Status, lines: seq<Line>): Option<seq<Product>> {
    var released := if ReleasesStock(from, to) then Restock(stock, lines) else stock;
    if ReservesStock(from, to) then Reserve(released, lines) else Some(released)
  }

  function GivenBack(coupons: map<CouponCode, Coupon>, from: Status, to: Status,
      coupon: Option<CouponCode>): map<CouponCode, Coupon> {
    if ReleasesCoupon(from, to) && coupon.Some? then ReleaseUse(coupons, coupon.value) else coupons
  }

  /** The payments after the extra write; None when it refuses.  Confirming cash finds
      its attempt by id alone. */
  function WithExtra(payments: seq<Payment>, extra: Extra): Option<seq<Payment>> {
    match extra
    case NoExtra => Some(payments)
    case ClaimPayment(p) => if Claimable(payments, p) then Some(WithStatus(payments, p, Succeeded)) else None
    case ConfirmCash(p) => if p < |payments| then Some(WithStatus(payments, p, Succeeded)) else None
  }

  /** The writes of a status change, after the order `seen` was read: all of them or
      none.  The first write finds the order only in the status that was read. */
  function ChangeStatus(r: Rows, id: OrderId, seen: Order, to: Status, extra: Extra): (w: Written)
    ensures w.outcome != Changed ==> w.rows == r
  {
    var from := seen.status;
    if id >= |r.orders| || r.orders[id].status != from then Written(Unchanged, r)
    else
      var stock := MovedStock(r.products, from, to, seen.items);
      if stock.None? then Written(OutOfStock, r)
      else
        var payments := WithExtra(Settle(r.payments, id, to), extra);
        if payments.None? then Written(AlreadyProcessed, r)
        else
          Written(Changed, r.(
            orders := r.orders[id := r.orders[id].(status := to)],
            products := stock.value,
            coupons := GivenBack(r.coupons, from, to, seen.coupon),
            payments := payments.value))
  }

  /** A status change whose read and writes happen at one instant. */
  function TransitionNow(r: Rows, id: OrderId, to: Status, actor: Actor, extra: Extra): (w: Written)
    ensures w.outcome != Changed ==> w.rows == r
  {
    if id >= |r.orders| then Written(NotFound, r)
    else if r.orders[id].status == to then Written(Unchanged, r)
    else if !CanTransition(actor, r.orders[id].status, to)
      then Written(if actor == Admin then NotAllowed else Unchanged, r)
    else ChangeStatus(r, id, r.orders[id], to, extra)
  }

  /** The claim made outside a status change. */
  function ClaimAlone(r: Rows, p: PaymentId): Written {
    if Claimable(r.payments, p) then Written(Changed, r.(payments := WithStatus(r.payments, p, Succeeded)))
    else Written(AlreadyProcessed, r)
  }

  /** A failure report fails only an attempt that is still pending. */
  function FailPending(r: Rows, p: PaymentId): Rows {
    if p < |r.payments| && r.payments[p].status == Pending
    then r.(payments := WithStatus(r.payments, p, Failed))
    else r
  }

  // ---------------------------------------------------------------------
  // Checkout
  // ---------------------------------------------------------------------

  /** One cart row as checkout read it, with the price of its product then. */
  datatype Pick = Pick(row: CartRowId, line: Line)

  /** The coupon a checkout read under the code it was given. */
  datatype SeenCoupon = SeenCoupon(code: CouponCode, coupon: Option<Coupon>)

  datatype Refusal = CartEmpty | CheckoutInProgress | StockChanged | CouponRefused | CouponUsedUp | AmountTooLarge

  datatype Placed = Placed(rows: Rows) | Refused(why: Refusal)

  function LinesOf(picks: seq<Pick>): (r: seq<Line>)
    ensures |r| == |picks|
  {
    seq(|picks|, i requires 0 <= i < |picks| => picks[i].line)
  }

  function RowsOf(picks: seq<Pick>): (r: seq<CartRowId>)
    ensures |r| == |picks|
  {
    seq(|picks|, i requires 0 <= i < |picks| => picks[i].row)
  }

  /** How many of the rows a `DELETE ... WHERE id IN (rows)` finds. */
  function Present(cart: map<CartRowId, CartRow>, rows: seq<CartRowId>): (n: nat)
    ensures n <= |rows|
    ensures n == |rows| <==> forall i :: 0 <= i < |rows| ==> rows[i] in cart
  {
    if rows == [] then 0
    else
      var n := Present(cart, rows[1..]);
      assert forall i :: 0 < i < |rows| ==> rows[i] == rows[1..][i - 1];
      assert forall i :: 0 <= i < |rows| - 1 ==> rows[1..][i] == rows[i + 1];
      if rows[0] in cart then n + 1 else n
  }

  /** The discount of a coupon that may be used now; None when it may not. */
  function CheckCoupon(coupon: Option<Coupon>, subtotal: real, now: int): (r: Option<real>)
    ensures r.Some? ==> r.value <= subtotal
  {
    if coupon.None? || !coupon.value.active then None
    else
      var c := coupon.value;
      if c.expiresAt.Some? && c.expiresAt.value < now then None
      else if c.maxUses.Some? && c.usedCount >= c.maxUses.value then None
      else if c.minOrderTotal.Some? && subtotal < c.minOrderTotal.value then None
      else
        var raw := if c.kind == PERCENTAGE then subtotal * c.value / 100.0 else c.value;
        Some(if raw < subtotal then raw else subtotal)
  }

  /** Takes one use, unless the limit that was read is reached by now. */
  function TakeUse(coupons: map<CouponCode, Coupon>, code: CouponCode, seen: Coupon): Option<map<CouponCode, Coupon>> {
    if code !in coupons || (seen.maxUses.Some? && coupons[code].usedCount >= seen.maxUses.value) then None
    else Some(coupons[code := coupons[code].(usedCount := coupons[code].usedCount + 1)])
  }

  /** An amount as its column rounds it: to hundredths, halves away from zero. */
  function Hundredths(x: real): int {
    if x >= 0.0 then Round(x * 100.0) else -Round(-x * 100.0)
  }

  /** Amount columns hold twelve digits, two of them after the point. */
  predicate FitsColumn(x: real) {
    -1_000_000_000_000 < Hundredths(x) < 1_000_000_000_000
  }

  predicate AmountsFit(subtotal: real, discount: real) {
    FitsColumn(subtotal) && FitsColumn(discount) && FitsColumn(subtotal - discount)
  }

  /** The writes of a checkout after the cart and the coupon were read: all or none. */
  function PlaceOrder(r: Rows, picks: seq<Pick>, coupon: Option<SeenCoupon>, now: int): Placed {
    if picks == [] then Refused(CartEmpty)
    else if Present(r.cart, RowsOf(picks)) != |picks| then Refused(CheckoutInProgress)
    else
      var lines := LinesOf(picks);
      var stock := Reserve(r.products, lines);
      if stock.None? then Refused(StockChanged)
      else
        var subtotal := Subtotal(lines);
        var emptied := r.(cart := r.cart - (set p | p in RowsOf(picks)), products := stock.value);
        match coupon
        case None =>
          if !AmountsFit(subtotal, 0.0) then Refused(AmountTooLarge)
          else Placed(emptied.(orders := r.orders + [Order(PAYMENT_PENDING, lines, None, subtotal, subtotal, now)]))
        case Some(seen) =>
          var discount := CheckCoupon(seen.coupon, subtotal, now);
          if discount.None? then Refused(CouponRefused)
          else
            var coupons := TakeUse(r.coupons, seen.code, seen.coupon.value);
            if coupons.None? then Refused(CouponUsedUp)
            else if !AmountsFit(subtotal, discount.value) then Refused(AmountTooLarge)
            else
              var total := subtotal - discount.value;
              Placed(emptied.(
                coupons := coupons.value,
                orders := r.orders + [Order(PAYMENT_PENDING, lines, Some(seen.code), subtotal, total, now)]))
  }

  /** `picks` is what reading all rows of `cart` returns, in some order. */
  ghost predicate IsCartRead(r: Rows, cart: nat, picks: seq<Pick>) {
    && (forall i, j :: 0 <= i < j < |picks| ==> picks[i].row != picks[j].row)
    && (forall i :: 0 <= i < |picks| ==> PickRead(r, cart, picks[i]))
    && (forall row :: row in r.cart && r.cart[row].cart == cart ==> exists i :: 0 <= i < |picks| && picks[i].row == row)
  }

  ghost predicate PickRead(r: Rows, cart: nat, pick: Pick) {
    && pick.row in r.cart
    && r.cart[pick.row].cart == cart
    && r.cart[pick.row].product < |r.products|
    && pick.line == Line(r.cart[pick.row].product, r.cart[pick.row].quantity,
      r.products[r.cart[pick.row].product].price)
  }

  /** Some payment attempt of `order` has the given status. */
  ghost predicate HasPayment(payments: seq<Payment>, order: OrderId, status: PaymentStatus) {
    exists p :: 0 <= p < |payments| && payments[p].order == order && payments[p].status == status
  }
}

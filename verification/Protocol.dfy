/** The order, stock, coupon and payment protocol as a labelled transition system.

    Any number of calls are in flight at once.  Each one is a value that says how far
    it got and remembers what it read, so between its read and its write every other
    call may run.  The write part of a transaction is one step. */
module Protocol {
  import opened Wrappers
  import opened OrderStatus
  import opened Reservation
  import opened Tables

  type CallId = nat

  /** The rows, and beside them the history that properties of whole runs speak of:
      the statuses each order has been through, how often the success of each attempt
      was claimed, the cart rows each order came from, and every cart row id ever used. */
  datatype World = World(
    rows: Rows,
    trails: seq<Trail>,
    claims: seq<nat>,
    origins: seq<seq<CartRowId>>,
    minted: set<CartRowId>)

  /** What a call does once its status change is through. */
  datatype After =
    | Return
    | AfterPaid(payment: PaymentId, depth: nat, since: nat)
    | AfterDisputed(payment: PaymentId, since: nat)

  /** A call in flight.  `since` is the length of the order's trail when the payment
      result arrived. */
  datatype Call =
    | CartSeen(picks: seq<Pick>, code: Option<CouponCode>)
    | CheckoutReady(picks: seq<Pick>, coupon: Option<SeenCoupon>)
    | CashChosen(order: OrderId)
    | OnlineChosen(order: OrderId)
    | AttemptCreated(payment: PaymentId)
    | Intent(order: OrderId, to: Status, actor: Actor, extra: Extra, after: After)
    | StatusSeen(order: OrderId, seen: Order, to: Status, actor: Actor, extra: Extra, after: After)
    | Fetch(payment: PaymentId, depth: nat, since: nat)
    | Claiming(payment: PaymentId, dispute: bool, since: nat)
    | Finished(payment: PaymentId, since: nat)

  datatype State = State(world: World, calls: map<CallId, Call>)

  // ---------------------------------------------------------------------
  // What happens to the rows at one instant
  // ---------------------------------------------------------------------

  datatype Op =
    | Skip
    | SetProduct(p: ProductId, product: Product)
    | SetCoupon(code: CouponCode, coupon: Coupon)
    | SetCart(row: CartRowId, content: Option<CartRow>)
    | Place(picks: seq<Pick>, seenCoupon: Option<SeenCoupon>, now: int)
    | AddPayment(payment: Payment)
    | Start(attempt: PaymentId)
    | Crash(attempt: PaymentId)
    | Fail(attempt: PaymentId)
    | Claim(attempt: PaymentId)
    | Change(order: OrderId, to: Status, actor: Actor, extra: Extra)

  /** The history of a status change that went through. */
  function Logged(w: World, rows: Rows, id: OrderId, to: Status, extra: Extra): World {
    var claims :=
      match extra
      case NoExtra => w.claims
      case ClaimPayment(p) => Bump(w.claims, p)
      case ConfirmCash(p) => Bump(w.claims, p);
    w.(rows := rows, claims := claims, trails := if id < |w.trails|
      then w.trails[id := w.trails[id] + [to]] else w.trails)
  }

  function Bump(claims: seq<nat>, p: PaymentId): (r: seq<nat>)
    ensures |r| == |claims|
  {
    if p < |claims| then claims[p := claims[p] + 1] else claims
  }

  /** The effect of one operation that reads and writes at the same instant. */
  function Atomic(w: World, op: Op): World {
    var r := w.rows;
    match op
    case Skip => w
    case SetProduct(p, product) =>
      w.(rows := r.(products := if p < |r.products| then r.products[p := product] else r.products + [product]))
    case SetCoupon(code, coupon) => w.(rows := r.(coupons := r.coupons[code := coupon]))
    case SetCart(row, None) => w.(rows := r.(cart := r.cart - {row}))
    case SetCart(row, Some(content)) => w.(rows := r.(cart := r.cart[row := content]), minted := w.minted + {row})
    case Place(picks, coupon, now) => (
      match PlaceOrder(r, picks, coupon, now)
      case Refused(_) => w
      case Placed(rows) => w.(rows := rows, trails := w.trails + [[PAYMENT_PENDING]],
        origins := w.origins + [RowsOf(picks)])
    )
    case AddPayment(payment) => w.(rows := r.(payments := r.payments + [payment]), claims := w.claims + [0])
    case Start(p) => if p < |r.payments|
      then w.(rows := r.(payments := r.payments[p := r.payments[p].(started := true)])) else w
    case Crash(p) => if p < |r.payments| then w.(rows := r.(payments := WithStatus(r.payments, p, Failed))) else w
    case Fail(p) => w.(rows := FailPending(r, p))
    case Claim(p) =>
      var written := ClaimAlone(r, p);
      if written.outcome == Changed then w.(rows := written.rows, claims := Bump(w.claims, p)) else w
    case Change(id, to, actor, extra) =>
      var written := TransitionNow(r, id, to, actor, extra);
      if written.outcome == Changed then Logged(w, written.rows, id, to, extra) else w
  }

  // ---------------------------------------------------------------------
  // The steps of the calls
  // ---------------------------------------------------------------------

  datatype Step =
    | EditProduct(p: ProductId, product: Product)
    | EditCoupon(code: CouponCode, coupon: Coupon)
    | EditCart(row: CartRowId, content: Option<CartRow>)
    | BeginCheckout(k: CallId, cart: nat, picks: seq<Pick>, given: Option<CouponCode>)
    | ReadCoupon(k: CallId)
    | CommitCheckout(k: CallId, now: int)
    | ChooseCash(k: CallId, order: OrderId)
    | ChooseOnline(k: CallId, order: OrderId)
    | RecordAttempt(k: CallId, now: int)
    | AttemptStarted(k: CallId)
    | AttemptCrashed(k: CallId)
    | ReportFailed(payment: PaymentId)
    | ReportSuccess(k: CallId, payment: PaymentId, amount: Option<real>)
    | RequestCashConfirmation(k: CallId, payment: PaymentId)
    | RequestStatus(k: CallId, order: OrderId, to: Status, actor: Actor)
    | ReadStatus(k: CallId)
    | CommitStatus(k: CallId)
    | FetchOrder(k: CallId)
    | ClaimPaymentAlone(k: CallId)

  predicate AmountMatches(p: Payment, amount: Option<real>) {
    amount.None? || Round(amount.value) == Round(p.amount)
  }

  predicate HasPendingCash(payments: seq<Payment>, order: OrderId) {
    exists p :: 0 <= p < |payments| && payments[p].order == order && payments[p].cash && payments[p].status == Pending
  }

  ghost predicate Enabled(s: State, step: Step) {
    var r := s.world.rows;
    match step
    case EditProduct(p, product) => p <= |r.products| && product.quantity >= 0
    case EditCoupon(code, coupon) =>
      // A new coupon starts unused; an edit leaves the use counter and the limit alone.
      if code in r.coupons
      then coupon.usedCount == r.coupons[code].usedCount && coupon.maxUses == r.coupons[code].maxUses
      else coupon.usedCount == 0
    case EditCart(row, None) => row in r.cart
    case EditCart(row, Some(content)) => (row in r.cart || row !in s.world.minted) && content.product < |r.products|
    case BeginCheckout(k, cart, picks, code) => k !in s.calls && IsCartRead(r, cart, picks)
    case ReadCoupon(k) => k in s.calls && s.calls[k].CartSeen?
    case CommitCheckout(k, now) => k in s.calls && s.calls[k].CheckoutReady?
    case ChooseCash(k, order) =>
      k !in s.calls && order < |r.orders| && r.orders[order].status == PAYMENT_PENDING &&
        !HasPendingCash(r.payments, order)
    case ChooseOnline(k, order) => k !in s.calls && order < |r.orders| && r.orders[order].status == PAYMENT_PENDING
    case RecordAttempt(k, now) => k in s.calls && (s.calls[k].CashChosen? || s.calls[k].OnlineChosen?) &&
      s.calls[k].order < |r.orders|
    case AttemptStarted(k) => k in s.calls && s.calls[k].AttemptCreated?
    case AttemptCrashed(k) => k in s.calls && s.calls[k].AttemptCreated?
    case ReportFailed(p) => p < |r.payments| && !r.payments[p].cash
    case ReportSuccess(k, p, amount) =>
      k !in s.calls && p < |r.payments| && !r.payments[p].cash && r.payments[p].order < |s.world.trails|
    case RequestCashConfirmation(k, p) =>
      k !in s.calls && p < |r.payments| && r.payments[p].cash && r.payments[p].status == Pending
    case RequestStatus(k, order, to, actor) =>
      k !in s.calls && order < |r.orders| && (actor == Admin || to in {EXPIRED, PAYMENT_FAILED})
    case ReadStatus(k) => k in s.calls && s.calls[k].Intent? && s.calls[k].order < |r.orders|
    case CommitStatus(k) => k in s.calls && s.calls[k].StatusSeen?
    case FetchOrder(k) =>
      k in s.calls && s.calls[k].Fetch? && s.calls[k].payment < |r.payments| &&
        r.payments[s.calls[k].payment].order < |r.orders|
    case ClaimPaymentAlone(k) => k in s.calls && s.calls[k].Claiming? && s.calls[k].payment < |r.payments|
  }

  /** How a call goes on after its status change ended with `outcome`; None when it
      returned to its caller, or ended with an error. */
  function Resume(after: After, outcome: Outcome): Option<Call> {
    match after
    case Return => None
    case AfterDisputed(p, since) => Some(Finished(p, since))
    case AfterPaid(p, depth, since) => (
      match outcome
      case Changed => Some(Finished(p, since))
      case AlreadyProcessed => Some(Finished(p, since))
      case OutOfStock => Some(Claiming(p, true, since))
      case Unchanged => Some(if depth == 0 then Fetch(p, 1, since) else Finished(p, since))
      case NotFound => None
      case NotAllowed => None
    )
  }

  /** What `applyResult` does with the status it read. */
  function AfterFetch(p: PaymentId, order: OrderId, status: Status, depth: nat, since: nat): Call {
    if status == PAYMENT_PENDING || status == EXPIRED
    then Intent(order, PAID, System, ClaimPayment(p), AfterPaid(p, depth, since))
    else Claiming(p, status == CANCELLED || status == PAYMENT_FAILED, since)
  }

  function AfterClaim(r: Rows, p: PaymentId, dispute: bool, since: nat): Call
    requires p < |r.payments|
  {
    if Claimable(r.payments, p) && dispute
    then Intent(r.payments[p].order, DISPUTED, System, NoExtra, AfterDisputed(p, since))
    else Finished(p, since)
  }

  /** The writes of a status change after a read that may be stale. */
  function CommitChange(w: World, c: Call): (World, Outcome)
    requires c.StatusSeen?
  {
    var written := ChangeStatus(w.rows, c.order, c.seen, c.to, c.extra);
    (if written.outcome == Changed then Logged(w, written.rows, c.order, c.to, c.extra) else w, written.outcome)
  }

  function SetCall(calls: map<CallId, Call>, k: CallId, next: Option<Call>): map<CallId, Call> {
    match next
    case None => calls - {k}
    case Some(c) => calls[k := c]
  }

  /** The payment row a chosen payment method creates. */
  function NewPayment(r: Rows, c: Call, now: int): Payment
    requires (c.CashChosen? || c.OnlineChosen?) && c.order < |r.orders|
  {
    Payment(c.order, c.CashChosen?, r.orders[c.order].total, Pending, false, now)
  }

  ghost function Exec(s: State, step: Step): State
    requires Enabled(s, step)
  {
    var w, calls := s.world, s.calls;
    var r := w.rows;
    match step
    case EditProduct(p, product) => State(Atomic(w, SetProduct(p, product)), calls)
    case EditCoupon(code, coupon) => State(Atomic(w, SetCoupon(code, coupon)), calls)
    case EditCart(row, content) => State(Atomic(w, SetCart(row, content)), calls)
    case BeginCheckout(k, cart, picks, code) => State(w, calls[k := CartSeen(picks, code)])
    case ReadCoupon(k) =>
      var seen :=
        match calls[k].code
        case None => None
        case Some(code) => Some(SeenCoupon(code, if code in r.coupons then Some(r.coupons[code]) else None));
      State(w, calls[k := CheckoutReady(calls[k].picks, seen)])
    case CommitCheckout(k, now) => State(Atomic(w, Place(calls[k].picks, calls[k].coupon, now)), calls - {k})
    case ChooseCash(k, order) => State(w, calls[k := CashChosen(order)])
    case ChooseOnline(k, order) => State(w, calls[k := OnlineChosen(order)])
    case RecordAttempt(k, now) =>
      State(Atomic(w, AddPayment(NewPayment(r, calls[k], now))),
             SetCall(calls, k, if calls[k].CashChosen? then None else Some(AttemptCreated(|r.payments|))))
    case AttemptStarted(k) => State(Atomic(w, Start(calls[k].payment)), calls - {k})
    case AttemptCrashed(k) => State(Atomic(w, Crash(calls[k].payment)), calls - {k})
    case ReportFailed(p) => State(Atomic(w, Fail(p)), calls)
    case ReportSuccess(k, p, amount) =>
      State(w, if AmountMatches(r.payments[p], amount)
        then calls[k := Fetch(p, 0, |w.trails[r.payments[p].order]|)] else calls)
    case RequestCashConfirmation(k, p) =>
      State(w, calls[k := Intent(r.payments[p].order, PAID, System, ConfirmCash(p), Return)])
    case RequestStatus(k, order, to, actor) => State(w, calls[k := Intent(order, to, actor, NoExtra, Return)])
    case ReadStatus(k) =>
      var c := calls[k];
      var seen := r.orders[c.order];
      State(w,
             if seen.status == c.to || !CanTransition(c.actor, seen.status, c.to)
             then SetCall(calls, k, Resume(c.after, Unchanged))
             else calls[k := StatusSeen(c.order, seen, c.to, c.actor, c.extra, c.after)])
    case CommitStatus(k) =>
      var (next, outcome) := CommitChange(w, calls[k]);
      State(next, SetCall(calls, k, Resume(calls[k].after, outcome)))
    case FetchOrder(k) =>
      var order := r.payments[calls[k].payment].order;
      State(w, calls[k := AfterFetch(calls[k].payment, order, r.orders[order].status, calls[k].depth, calls[k].since)])
    case ClaimPaymentAlone(k) =>
      State(Atomic(w, Claim(calls[k].payment)),
             calls[k := AfterClaim(r, calls[k].payment, calls[k].dispute, calls[k].since)])
  }

  // ---------------------------------------------------------------------
  // Runs
  // ---------------------------------------------------------------------

  /** The shop opens: products on the shelf and unused coupons, no orders yet. */
  ghost predicate Initial(s: State) {
    var w := s.world;
    && s.calls == map[]
    && NonNegative(w.rows.products)
    && w.rows.orders == [] && w.rows.payments == [] && w.rows.cart == map[]
    && (forall code :: code in w.rows.coupons ==> w.rows.coupons[code].usedCount == 0)
    && w.trails == [] && w.claims == [] && w.origins == [] && w.minted == {}
  }

  /** Every step of the run could be taken where it was taken. */
  ghost predicate Legal(s: State, steps: seq<Step>)
    decreases |steps|, 0
  {
    steps == [] || (Legal(s, steps[..|steps| - 1]) && Enabled(End(s, steps[..|steps| - 1]), steps[|steps| - 1]))
  }

  /** Where the run ends. */
  ghost function End(s: State, steps: seq<Step>): State
    requires Legal(s, steps)
    decreases |steps|, 1
  {
    if steps == [] then s
    else Exec(End(s, steps[..|steps| - 1]), steps[|steps| - 1])
  }
}

/** Stock as the store keeps it, and the two loops that move it: the conditional
    decrements of a reservation and the increments of a release. */
module Reservation {
  import opened Wrappers

  type ProductId = nat

  /** A catalogue row, as far as an order cares.  Its id is its position. */
  datatype Product = Product(quantity: int, price: real)

  /** One line of an order: the price is the one read at checkout. */
  datatype Line = Line(product: ProductId, quantity: nat, unitPrice: real)

  /** `UPDATE ... SET quantity = quantity + delta WHERE id = p`. */
  function Shift(stock: seq<Product>, p: ProductId, delta: int): (r: seq<Product>)
    requires p < |stock|
    ensures |r| == |stock|
  {
    stock[p := stock[p].(quantity := stock[p].quantity + delta)]
  }

  /** The conditional decrements, line after line; None when some line's product is
      missing or has too little left. */
  function Reserve(stock: seq<Product>, lines: seq<Line>): (r: Option<seq<Product>>)
    ensures r.Some? ==> |r.value| == |stock|
    decreases lines
  {
    if lines == [] then Some(stock)
    else
      var l := lines[0];
      if l.product < |stock| && stock[l.product].quantity >= l.quantity
      then Reserve(Shift(stock, l.product, -(l.quantity as int)), lines[1..])
      else None
  }

  /** The increments, line after line. */
  function Restock(stock: seq<Product>, lines: seq<Line>): (r: seq<Product>)
    ensures |r| == |stock|
    decreases lines
  {
    if lines == [] then stock
    else if lines[0].product < |stock|
    then Restock(Shift(stock, lines[0].product, lines[0].quantity), lines[1..])
    else Restock(stock, lines[1..])
  }

  /** The units of product `p` that all lines together ask for. */
  function Demand(lines: seq<Line>, p: ProductId): nat {
    if lines == [] then 0
    else Demand(lines[1..], p) + if lines[0].product == p then lines[0].quantity else 0
  }

  function Amount(l: Line): real {
    l.unitPrice * l.quantity as real
  }

  function Subtotal(lines: seq<Line>): real {
    if lines == [] then 0.0 else Subtotal(lines[..|lines| - 1]) + Amount(lines[|lines| - 1])
  }

  ghost predicate KnownProducts(lines: seq<Line>, n: nat) {
    forall i :: 0 <= i < |lines| ==> lines[i].product < n
  }

  ghost predicate NonNegative(stock: seq<Product>) {
    forall p :: 0 <= p < |stock| ==> stock[p].quantity >= 0
  }

  /** Every product has enough for all the lines together. */
  ghost predicate Covers(stock: seq<Product>, lines: seq<Line>) {
    && KnownProducts(lines, |stock|)
    && forall p :: 0 <= p < |stock| && Demand(lines, p) > 0 ==> Demand(lines, p) <= stock[p].quantity
  }

  /** The stock minus what all lines ask for, product by product. */
  ghost predicate Deducted(before: seq<Product>, after: seq<Product>, lines: seq<Line>) {
    && |after| == |before|
    && forall p :: 0 <= p < |before| ==>
        after[p] == before[p].(quantity := before[p].quantity - Demand(lines, p))
  }

  lemma {:induction false} DemandOfUnknown(lines: seq<Line>, n: nat, p: ProductId)
    requires KnownProducts(lines, n) && n <= p
    ensures Demand(lines, p) == 0
  {
    if lines != [] {
      assert lines[0].product < n;
      assert KnownProducts(lines[1..], n);
      DemandOfUnknown(lines[1..], n, p);
    }
  }

  lemma {:induction false} DemandOfLine(lines: seq<Line>, i: nat)
    requires i < |lines|
    ensures Demand(lines, lines[i].product) >= lines[i].quantity
  {
    if i > 0 {
      assert lines[1..][i - 1] == lines[i];
      DemandOfLine(lines[1..], i - 1);
    }
  }

  /** All or nothing: on a stock that is nowhere negative the loop goes through
      exactly when each product covers the total demand for it, it then takes exactly
      that demand, and no quantity becomes negative. */
  lemma {:induction false} ReserveExactly(stock: seq<Product>, lines: seq<Line>)
    requires NonNegative(stock)
    ensures Reserve(stock, lines).Some? <==> Covers(stock, lines)
    ensures Reserve(stock, lines).Some? ==>
              Deducted(stock, Reserve(stock, lines).value, lines) && NonNegative(Reserve(stock, lines).value)
    decreases lines
  {
    if lines != [] {
      var l, rest := lines[0], lines[1..];
      assert lines == [l] + rest;
      if l.product < |stock| && stock[l.product].quantity >= l.quantity {
        var next := Shift(stock, l.product, -(l.quantity as int));
        ReserveExactly(next, rest);
        assert Covers(next, rest) <==> Covers(stock, lines) by {
          assert KnownProducts(lines, |stock|) <==> KnownProducts(rest, |stock|) by {
            if KnownProducts(lines, |stock|) {
              forall i | 0 <= i < |rest| ensures rest[i].product < |stock| { assert rest[i] == lines[i + 1]; }
            }
          }
          assert forall p :: Demand(lines, p) == Demand(rest, p) + (if l.product == p then l.quantity else 0);
        }
      } else {
        DemandOfLine(lines, 0);
      }
    }
  }

  /** The order of the lines does not matter. */
  lemma ReserveAnyOrder(stock: seq<Product>, lines: seq<Line>, shuffled: seq<Line>)
    requires NonNegative(stock)
    requires multiset(lines) == multiset(shuffled)
    ensures Reserve(stock, lines) == Reserve(stock, shuffled)
  {
    ReserveExactly(stock, lines);
    ReserveExactly(stock, shuffled);
    forall p: ProductId ensures Demand(lines, p) == Demand(shuffled, p) {
      DemandOfMultiset(lines, shuffled, p);
    }
    forall l: Line ensures l in lines <==> l in shuffled {
      assert l in lines <==> l in multiset(lines);
      assert l in shuffled <==> l in multiset(shuffled);
    }
    forall i | 0 <= i < |lines| ensures lines[i] in shuffled {}
    forall i | 0 <= i < |shuffled| ensures shuffled[i] in lines {}
    assert KnownProducts(lines, |stock|) <==> KnownProducts(shuffled, |stock|);
    if Reserve(stock, lines).Some? {
      assert Reserve(stock, lines).value == Reserve(stock, shuffled).value;
    }
  }

  lemma {:induction false} DemandOfMultiset(a: seq<Line>, b: seq<Line>, p: ProductId)
    requires multiset(a) == multiset(b)
    ensures Demand(a, p) == Demand(b, p)
  {
    if a == [] {
      assert |multiset(b)| == 0;
    } else {
      assert a == [a[0]] + a[1..];
      assert a[0] in multiset(b);
      var i :| 0 <= i < |b| && b[i] == a[0];
      WithoutLine(b, i, p);
      assert multiset(a[1..]) == multiset(a) - multiset{a[0]};
      DemandOfMultiset(a[1..], b[..i] + b[i + 1..], p);
    }
  }

  lemma WithoutLine(b: seq<Line>, i: nat, p: ProductId)
    requires i < |b|
    ensures multiset(b[..i] + b[i + 1..]) == multiset(b) - multiset{b[i]}
    ensures Demand(b, p) == Demand(b[..i] + b[i + 1..], p) + if b[i].product == p then b[i].quantity else 0
  {
    var tail := [b[i]] + b[i + 1..];
    assert b == b[..i] + tail && tail[1..] == b[i + 1..];
    DemandOfConcat(b[..i], tail, p);
    DemandOfConcat(b[..i], b[i + 1..], p);
  }

  lemma {:induction false} DemandOfConcat(a: seq<Line>, b: seq<Line>, p: ProductId)
    ensures Demand(a + b, p) == Demand(a, p) + Demand(b, p)
  {
    if a == [] {
      assert a + b == b;
    } else {
      assert (a + b)[1..] == a[1..] + b;
      DemandOfConcat(a[1..], b, p);
    }
  }

  /** A release adds exactly the demand of its lines back. */
  lemma {:induction false} RestockExactly(stock: seq<Product>, lines: seq<Line>)
    requires KnownProducts(lines, |stock|)
    ensures Deducted(Restock(stock, lines), stock, lines)
    decreases lines
  {
    if lines != [] {
      assert lines[0].product < |stock|;
      var next := Shift(stock, lines[0].product, lines[0].quantity);
      assert KnownProducts(lines[1..], |stock|);
      RestockExactly(next, lines[1..]);
    }
  }

  /** Releasing a reservation undoes it. */
  lemma ReleaseUndoesReserve(stock: seq<Product>, lines: seq<Line>)
    requires NonNegative(stock) && Reserve(stock, lines).Some?
    ensures Restock(Reserve(stock, lines).value, lines) == stock
  {
    ReserveExactly(stock, lines);
    RestockExactly(Reserve(stock, lines).value, lines);
  }

  /** And a release can always be reserved again at once. */
  lemma ReserveUndoesRelease(stock: seq<Product>, lines: seq<Line>)
    requires NonNegative(stock) && KnownProducts(lines, |stock|)
    ensures Reserve(Restock(stock, lines), lines) == Some(stock)
  {
    RestockExactly(stock, lines);
    var full := Restock(stock, lines);
    assert NonNegative(full);
    ReserveExactly(full, lines);
    assert Reserve(full, lines).value == stock;
  }

  // ---------------------------------------------------------------------
  // What lines come to
  // ---------------------------------------------------------------------

  /** One line comes to its price times its quantity, and asks for its quantity of its
      product only. */
  lemma SingleLine(product: ProductId, quantity: nat, price: real, p: ProductId)
    ensures Subtotal([Line(product, quantity, price)]) == price * quantity as real
    ensures Demand([Line(product, quantity, price)], p) == if p == product then quantity else 0
  {
    var lines := [Line(product, quantity, price)];
    assert lines[..0] == [] && lines[1..] == [];
    assert Subtotal(lines[..0]) == 0.0;
  }

  /** More lines come to more: what they come to by themselves is added. */
  lemma {:induction false} SubtotalAdds(a: seq<Line>, b: seq<Line>)
    ensures Subtotal(a + b) == Subtotal(a) + Subtotal(b)
  {
    if b == [] {
      assert a + b == a;
    } else {
      var n := |b| - 1;
      SubtotalAdds(a, b[..n]);
      assert (a + b)[..|a + b| - 1] == a + b[..n];
    }
  }

  /** Adding a line adds its price times its quantity, wherever it stands. */
  lemma SubtotalWithLine(a: seq<Line>, l: Line, b: seq<Line>)
    ensures Subtotal(a + [l] + b) == Subtotal(a + b) + Amount(l)
  {
    SubtotalAdds(a + [l], b);
    SubtotalAdds(a, [l]);
    SubtotalAdds(a, b);
    assert [l][..0] == [] && Subtotal([l][..0]) == 0.0;
  }

  /** The order of the lines does not matter. */
  lemma {:induction false} SubtotalAnyOrder(a: seq<Line>, b: seq<Line>)
    requires multiset(a) == multiset(b)
    ensures Subtotal(a) == Subtotal(b)
  {
    if a == [] {
      assert |multiset(b)| == 0;
    } else {
      var i := FindLine(a, b);
      var rest := b[..i] + b[i + 1..];
      SubtotalAnyOrder(a[1..], rest);
      SubtotalWithout(a, 0, a[1..]);
      SubtotalWithout(b, i, rest);
    }
  }

  lemma FindLine(a: seq<Line>, b: seq<Line>) returns (i: nat)
    requires multiset(a) == multiset(b) && a != []
    ensures i < |b| && b[i] == a[0] && multiset(a[1..]) == multiset(b[..i] + b[i + 1..])
  {
    assert a == [a[0]] + a[1..];
    assert a[0] in multiset(b);
    i :| 0 <= i < |b| && b[i] == a[0];
    WithoutLine(b, i, 0);
    assert multiset(a[1..]) == multiset(a) - multiset{a[0]};
  }

  lemma SubtotalWithout(b: seq<Line>, i: nat, rest: seq<Line>)
    requires i < |b| && rest == b[..i] + b[i + 1..]
    ensures Subtotal(b) == Subtotal(rest) + Amount(b[i])
  {
    assert b == b[..i] + [b[i]] + b[i + 1..];
    SubtotalWithLine(b[..i], b[i], b[i + 1..]);
  }

  /** The units of all lines together. */
  function Units(lines: seq<Line>): nat {
    if lines == [] then 0 else Units(lines[..|lines| - 1]) + lines[|lines| - 1].quantity
  }

  /** At one price for all, the subtotal is that price times the number of units. */
  lemma {:induction false} SubtotalAtOnePrice(lines: seq<Line>, price: real)
    requires forall i :: 0 <= i < |lines| ==> lines[i].unitPrice == price
    ensures Subtotal(lines) == price * Units(lines) as real
  {
    if lines != [] {
      var n := |lines| - 1;
      SubtotalAtOnePrice(lines[..n], price);
      PriceDistributes(price, Units(lines[..n]), lines[n].quantity);
    }
  }

  lemma PriceDistributes(price: real, a: nat, b: nat)
    ensures price * (a + b) as real == price * a as real + price * b as real
  {
    assert (a + b) as real == a as real + b as real;
  }
}

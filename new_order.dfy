/** The per-line loop of order creation, as a function of the stock and the
    requested lines: which lines become order lines, which are refused and
    why, and what stock remains. The handler in module Views is proved
    against it. */
module NewOrder {
  import opened Py
  import opened Sums
  import opened Shop

  /** One element of the `productos` list of a new order; moneyOk says
      whether its four monetary values convert to decimals. */
  datatype LineRequest =
    | Malformed
    | Item(productoId: Field, id: Field, cantidad: Field, moneyOk: bool)

  /** A line that passed every check: this many units of this product. */
  datatype Sale = Sale(producto: ProductId, cantidad: int)

  datatype Check = Accept(sale: Sale) | Refuse(error: LineError)

  /** The state of the loop: the stock, the lines created so far and the
      errors collected so far, both in request order. */
  datatype Tally = Tally(stock: map<ProductId, int>, sales: seq<Sale>, errors: seq<LineError>)

  /** The product id of a requested line: `producto_id`, or `id` when that
      is not truthy. */
  function RequestedId(req: LineRequest): Field
    requires req.Item?
  {
    Or(req.productoId, req.id)
  }

  /** The checks of the loop body, in the order the handler makes them. */
  function CheckLine(stock: map<ProductId, int>, req: LineRequest): (r: Check)
    ensures r.Accept? ==> r.sale.producto in stock && stock[r.sale.producto] >= r.sale.cantidad
    ensures r.Accept? ==> req.Item? && req.moneyOk && Truthy(req.cantidad)
                          && IntOf(req.cantidad) == Some(r.sale.cantidad)
                          && IntOf(RequestedId(req)) == Some(r.sale.producto)
    ensures req.Item? && Truthy(RequestedId(req)) && Truthy(req.cantidad)
            && IntOf(req.cantidad).Some? && IntOf(RequestedId(req)).Some?
            && IntOf(RequestedId(req)).value in stock
            && stock[IntOf(RequestedId(req)).value] >= IntOf(req.cantidad).value
            && req.moneyOk
            ==> r == Accept(Sale(IntOf(RequestedId(req)).value, IntOf(req.cantidad).value))
    ensures r == Refuse(MissingId) <==> req.Item? && !Truthy(RequestedId(req))
    ensures r == Refuse(NotEnoughStock) ==>
              req.Item? && IntOf(req.cantidad).Some? && IntOf(RequestedId(req)).Some?
              && IntOf(RequestedId(req)).value in stock
              && stock[IntOf(RequestedId(req)).value] < IntOf(req.cantidad).value
  {
    match req
    case Malformed => Refuse(NotAnObject)
    case Item(_, _, cantidad, moneyOk) =>
      var key := RequestedId(req);
      if !Truthy(key) then Refuse(MissingId)
      else if !Truthy(cantidad) then Refuse(MissingQuantity)
      else if IntOf(cantidad).None? then Refuse(NotAnInteger)
      else if IntOf(key).None? then Refuse(BadProductId)
      else
        var p, q := IntOf(key).value, IntOf(cantidad).value;
        if p !in stock then Refuse(UnknownProduct)
        else if stock[p] < q then Refuse(NotEnoughStock)
        else if !moneyOk then Refuse(BadMoney)
        else Accept(Sale(p, q))
  }

  /** One pass of the loop body: an accepted line takes its units out of
      stock at once, so later lines see the lowered stock. */
  function Step(t: Tally, req: LineRequest): Tally {
    match CheckLine(t.stock, req)
    case Accept(s) =>
      Tally(t.stock[s.producto := t.stock[s.producto] - s.cantidad], t.sales + [s], t.errors)
    case Refuse(e) =>
      Tally(t.stock, t.sales, t.errors + [e])
  }

  /** The loop over all requested lines. */
  function Checkout(stock: map<ProductId, int>, reqs: seq<LineRequest>): Tally
    decreases |reqs|
  {
    if reqs == [] then Tally(stock, [], [])
    else Step(Checkout(stock, reqs[..|reqs| - 1]), reqs[|reqs| - 1])
  }

  /** Units of p in a list of sales. */
  function Sold(sales: seq<Sale>, p: ProductId): int
    decreases |sales|
  {
    if sales == [] then 0
    else
      var s := sales[|sales| - 1];
      Sold(sales[..|sales| - 1], p) + (if s.producto == p then s.cantidad else 0)
  }

  /** Every requested line is either sold or refused, and each product's
      stock drops by exactly the units sold of it. */
  lemma {:induction false} CheckoutAccount(stock: map<ProductId, int>, reqs: seq<LineRequest>)
    ensures Checkout(stock, reqs).stock.Keys == stock.Keys
    ensures |Checkout(stock, reqs).sales| + |Checkout(stock, reqs).errors| == |reqs|
    ensures forall p :: p in stock ==>
              Checkout(stock, reqs).stock[p] == stock[p] - Sold(Checkout(stock, reqs).sales, p)
    decreases |reqs|
  {
    if reqs != [] {
      var t := Checkout(stock, reqs[..|reqs| - 1]);
      CheckoutAccount(stock, reqs[..|reqs| - 1]);
      match CheckLine(t.stock, reqs[|reqs| - 1])
      case Accept(s) =>
        var sales := t.sales + [s];
        assert sales[..|sales| - 1] == t.sales;
      case Refuse(e) =>
    }
  }

  /** Order creation never takes a product's stock below zero: each line is
      admitted only when the stock left covers it. */
  lemma {:induction false} CheckoutNonNegative(stock: map<ProductId, int>, reqs: seq<LineRequest>)
    requires forall p :: p in stock ==> stock[p] >= 0
    ensures forall p :: p in Checkout(stock, reqs).stock ==> Checkout(stock, reqs).stock[p] >= 0
    decreases |reqs|
  {
    if reqs != [] {
      CheckoutNonNegative(stock, reqs[..|reqs| - 1]);
    }
  }

  /** The lines map after the loop: one new line of order o per sale, with
      consecutive ids from base. */
  function Extend(lines: map<LineId, Line>, o: OrderId, base: LineId, sales: seq<Sale>): map<LineId, Line>
    decreases |sales|
  {
    if sales == [] then lines
    else
      var n := |sales| - 1;
      Extend(lines, o, base, sales[..n])[base + n := Line(o, sales[n].producto, sales[n].cantidad)]
  }

  lemma {:induction false} ExtendKeys(lines: map<LineId, Line>, o: OrderId, base: LineId, sales: seq<Sale>)
    ensures forall k :: k in Extend(lines, o, base, sales) <==> k in lines || base <= k < base + |sales|
    ensures forall k :: k in Extend(lines, o, base, sales) && k !in lines ==>
              Extend(lines, o, base, sales)[k].pedido == o
    ensures forall k :: k in lines && !(base <= k < base + |sales|) ==>
              Extend(lines, o, base, sales)[k] == lines[k]
    decreases |sales|
  {
    if sales != [] {
      ExtendKeys(lines, o, base, sales[..|sales| - 1]);
    }
  }

  /** The new lines add exactly the units sold to each product's balance. */
  lemma {:induction false} ExtendCommitted(lines: map<LineId, Line>, o: OrderId, base: LineId,
                                           sales: seq<Sale>, p: ProductId)
    requires forall k :: k in lines ==> k < base
    ensures Committed(Extend(lines, o, base, sales), p) == Committed(lines, p) + Sold(sales, p)
    decreases |sales|
  {
    if sales != [] {
      var n := |sales| - 1;
      var prev := Extend(lines, o, base, sales[..n]);
      ExtendKeys(lines, o, base, sales[..n]);
      ExtendCommitted(lines, o, base, sales[..n], p);
      CommittedInsert(prev, base + n, Line(o, sales[n].producto, sales[n].cantidad), p);
    }
  }

  /** A completed order creation keeps each product's units: what leaves
      the stock arrives in the new lines. */
  lemma CheckoutKeepsUnits(stock: map<ProductId, int>, lines: map<LineId, Line>, o: OrderId,
                           base: LineId, reqs: seq<LineRequest>)
    requires forall k :: k in lines ==> k < base
    ensures Checkout(stock, reqs).stock.Keys == stock.Keys
    ensures forall p :: p in stock ==>
              Checkout(stock, reqs).stock[p] + Committed(Extend(lines, o, base, Checkout(stock, reqs).sales), p)
              == stock[p] + Committed(lines, p)
  {
    var t := Checkout(stock, reqs);
    CheckoutAccount(stock, reqs);
    forall p | p in stock
      ensures t.stock[p] + Committed(Extend(lines, o, base, t.sales), p) == stock[p] + Committed(lines, p)
    {
      ExtendCommitted(lines, o, base, t.sales, p);
    }
  }

  /** Deleting order o with its lines undoes Extend when no earlier line
      belonged to o. */
  lemma {:induction false} ExtendDropped(lines: map<LineId, Line>, o: OrderId, base: LineId, sales: seq<Sale>)
    requires forall k :: k in lines ==> k < base && lines[k].pedido != o
    ensures LinesNotOf(Extend(lines, o, base, sales), o) == lines
    decreases |sales|
  {
    if sales != [] {
      var n := |sales| - 1;
      var prev := Extend(lines, o, base, sales[..n]);
      ExtendDropped(lines, o, base, sales[..n]);
      ExtendKeys(lines, o, base, sales[..n]);
      var l := Line(o, sales[n].producto, sales[n].cantidad);
      assert Extend(lines, o, base, sales) == prev[base + n := l];
      assert LinesNotOf(prev[base + n := l], o) == LinesNotOf(prev, o);
    } else {
      var r := LinesNotOf(lines, o);
      assert forall k :: k in lines ==> k in r;
      assert r.Keys == lines.Keys;
    }
  }
}

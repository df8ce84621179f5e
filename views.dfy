/** The request handlers of the shop's views as operations on one store:
    the product stock, the temporary carts, the orders and their lines.
    Each handler either succeeds or leaves a typed rejection; the comments
    on each say where that rejection stands for an exception. */
module Views {
  import opened Py
  import opened Sums
  import opened Shop
  import opened NewOrder

  /** The user every internal stock movement is booked on. */
  const AdminUser: UserId := 4

  /** The body of a movement request: each of its four required keys, as
      read with `data[key]` (Absent when the key is missing). */
  datatype MovementRequest =
    MovementRequest(productoId: Field, cantidad: Field, tipoSalida: Field, companiaDestino: Field)

  /** The primary key a URL segment names: the segment is text, so the
      lookup raises unless `int()` accepts it. */
  function UrlKey(pk: string): (k: Key)
    ensures !k.NoRow?
    ensures k.Key? <==> ParseInt(pk).Some?
  {
    LookupKey(Text(pk))
  }

  /** id is one of user u's cart entries. */
  predicate OwnEntry(cart: map<CartId, CartEntry>, id: CartId, u: UserId) {
    id in cart && cart[id].usuario == u
  }

  /** The amount a per-product map gives p, 0 when p has none. */
  function AmountOf(m: map<ProductId, int>, p: ProductId): int {
    if p in m then m[p] else 0
  }

  /** The first loop of `limpiar_carrito`: the units per product in a set of
      cart entries, summed into a dictionary. */
  method GroupByProduct(items: map<CartId, CartEntry>) returns (amounts: map<ProductId, int>)
    ensures forall p :: AmountOf(amounts, p) == Reserved(items, p)
  {
    amounts := map[];
    var pending := items.Keys;
    while pending != {}
      invariant pending <= items.Keys
      invariant forall p :: AmountOf(amounts, p) == Reserved(items - pending, p)
      decreases pending
    {
      var k := Choose(pending);
      var e := items[k];
      ghost var before := items - pending;
      if e.producto !in amounts {
        amounts := amounts[e.producto := 0];
      }
      amounts := amounts[e.producto := amounts[e.producto] + e.cantidad];
      pending := pending - {k};
      assert items - pending == before[k := e];
      forall p
        ensures AmountOf(amounts, p) == Reserved(items - pending, p)
      {
        ReservedInsert(before, k, e, p);
      }
    }
    assert items - pending == items;
  }

  /** Every line's product exists. */
  predicate Stocked(lines: map<LineId, Line>, stock: map<ProductId, int>) {
    forall k :: k in lines ==> lines[k].producto in stock
  }

  class Store {
    /** `Producto.cantidad_en_stock` of each existing product. */
    var stock: map<ProductId, int>
    /** The existing users. */
    var users: set<UserId>
    /** The `CarritoTemp` rows. */
    var cart: map<CartId, CartEntry>
    /** The `Pedido` rows. */
    var orders: map<OrderId, Order>
    /** The `PedidoDetalle` rows. */
    var lines: map<LineId, Line>
    /** The next primary key the database hands out, per table. */
    var nextCart: CartId
    var nextOrder: OrderId
    var nextLine: LineId

    /** Keys are below the next key of their table, every line belongs to an
        existing order, and a user has at most one cart entry per product. */
    ghost predicate Valid()
      reads this
    {
      && (forall k :: k in cart ==> k < nextCart)
      && (forall k :: k in orders ==> k < nextOrder)
      && (forall k :: k in lines ==> k < nextLine)
      && (forall k :: k in lines ==> lines[k].pedido in orders)
      && CartUnique(cart)
    }

    /** The units of p the shop accounts for: those in stock plus those sold
        in order lines. */
    ghost function Units(p: ProductId): int
      reads this
      requires p in stock
    {
      stock[p] + Committed(lines, p)
    }

    constructor (stock0: map<ProductId, int>, users0: set<UserId>)
      ensures Valid()
      ensures stock == stock0 && users == users0
      ensures cart == map[] && orders == map[] && lines == map[]
    {
      stock, users := stock0, users0;
      cart, orders, lines := map[], map[], map[];
      nextCart, nextOrder, nextLine := 1, 1, 1;
    }

    // -------------------------------------------------------------------
    // Stock adjustments

    /** `ProductoViewSet.update_stock`: takes `cantidad` units (an unsigned
        decimal in the query string) out of stock, but refuses to leave
        fewer than one unit. The product key is the URL segment pk. */
    method UpdateStock(pk: string, cantidad: Option<string>) returns (r: Outcome<int>)
      modifies this`stock
      ensures UrlKey(pk).BadKey? ==> r == Rejected(Internal)
      ensures UrlKey(pk).Key? && UrlKey(pk).id !in old(stock) ==> r == Rejected(NotFound)
      ensures UrlKey(pk).Key? && UrlKey(pk).id in old(stock)
              && !(cantidad.Some? && IsDigits(cantidad.value)) ==>
                r == Rejected(InvalidQuantity)
      ensures UrlKey(pk).Key? && UrlKey(pk).id in old(stock)
              && cantidad.Some? && IsDigits(cantidad.value) ==>
                var nuevo := old(stock[UrlKey(pk).id]) - DigitsValue(cantidad.value);
                r == if nuevo < 1 then Rejected(InsufficientStock) else Ok(nuevo)
      ensures r.Ok? ==> UrlKey(pk).Key? && r.value >= 1
                        && stock == old(stock)[UrlKey(pk).id := r.value]
      ensures r.Rejected? ==> stock == old(stock)
    {
      var k := UrlKey(pk);
      if k.BadKey? || k.NoRow? {
        return Rejected(Internal);  // get_object_or_404 raises ValueError
      }
      var p := k.id;
      if p !in stock {
        return Rejected(NotFound);  // get_object_or_404
      }
      if cantidad.None? || !IsDigits(cantidad.value) {
        return Rejected(InvalidQuantity);
      }
      var q := ParseInt(cantidad.value).value;
      var nuevo := stock[p] - q;
      if nuevo < 1 {
        return Rejected(InsufficientStock);
      }
      stock := stock[p := nuevo];
      return Ok(nuevo);
    }

    /** `ProductoViewSet.add_update_stock`: adds a signed `cantidad` to the
        stock, refusing a negative result. The guard strips every leading
        minus sign before `isdigit()` while `int()` accepts only one, so
        text such as "--5" passes the guard and then raises. */
    method AddUpdateStock(pk: string, cantidad: Option<string>) returns (r: Outcome<int>)
      modifies this`stock
      ensures UrlKey(pk).BadKey? ==> r == Rejected(Internal)
      ensures UrlKey(pk).Key? && UrlKey(pk).id !in old(stock) ==> r == Rejected(NotFound)
      ensures UrlKey(pk).Key? && UrlKey(pk).id in old(stock)
              && !(cantidad.Some? && SignedDigits(cantidad.value)) ==>
                r == Rejected(InvalidQuantity)
      ensures UrlKey(pk).Key? && UrlKey(pk).id in old(stock)
              && cantidad.Some? && SignedDigits(cantidad.value)
              && LeadingMinus(cantidad.value) >= 2 ==>
                r == Rejected(Internal)
      ensures UrlKey(pk).Key? && UrlKey(pk).id in old(stock)
              && cantidad.Some? && SignedDigits(cantidad.value)
              && ParseInt(cantidad.value).Some? ==>
                var nuevo := old(stock[UrlKey(pk).id]) + ParseInt(cantidad.value).value;
                r == if nuevo < 0 then Rejected(InsufficientStock) else Ok(nuevo)
      ensures r.Ok? ==> UrlKey(pk).Key? && r.value >= 0
                        && stock == old(stock)[UrlKey(pk).id := r.value]
      ensures r.Rejected? ==> stock == old(stock)
    {
      var k := UrlKey(pk);
      if k.BadKey? || k.NoRow? {
        return Rejected(Internal);  // get_object_or_404 raises ValueError
      }
      var p := k.id;
      if p !in stock {
        return Rejected(NotFound);  // get_object_or_404
      }
      if cantidad.None? || !SignedDigits(cantidad.value) {
        return Rejected(InvalidQuantity);
      }
      SignedDigitsParse(cantidad.value);
      var q := ParseInt(cantidad.value);
      if q.None? {
        return Rejected(Internal);  // int() raises ValueError
      }
      var nuevo := stock[p] + q.value;
      if nuevo < 0 {
        return Rejected(InsufficientStock);
      }
      stock := stock[p := nuevo];
      return Ok(nuevo);
    }

    /** `actualizar_stock`: adds `cantidad` (default 0) to the stock with no
        bound at all, so the stock may become negative. */
    method AdjustStock(pk: string, cantidad: Field) returns (r: Outcome<int>)
      modifies this`stock
      ensures UrlKey(pk).BadKey? ==> r == Rejected(Internal)
      ensures UrlKey(pk).Key? && UrlKey(pk).id !in old(stock) ==> r == Rejected(NotFound)
      ensures UrlKey(pk).Key? && UrlKey(pk).id in old(stock)
              && IntOf(GetOr(cantidad, 0)).None? ==>
                r == Rejected(Internal)
      ensures UrlKey(pk).Key? && UrlKey(pk).id in old(stock)
              && IntOf(GetOr(cantidad, 0)).Some? ==>
                r == Ok(old(stock[UrlKey(pk).id]) + IntOf(GetOr(cantidad, 0)).value)
      ensures r.Ok? ==> UrlKey(pk).Key? && stock == old(stock)[UrlKey(pk).id := r.value]
      ensures r.Rejected? ==> stock == old(stock)
    {
      var k := UrlKey(pk);
      if k.BadKey? || k.NoRow? {
        return Rejected(Internal);  // objects.get raises ValueError
      }
      var p := k.id;
      if p !in stock {
        return Rejected(NotFound);  // Producto.DoesNotExist
      }
      var q := IntOf(GetOr(cantidad, 0));
      if q.None? {
        return Rejected(Internal);  // int() raises
      }
      stock := stock[p := stock[p] + q.value];
      return Ok(stock[p]);
    }

    // -------------------------------------------------------------------
    // Temporary carts

    /** `CarritoTempViewSet.create` for user u: adds `cantidad_prod` (default
        1) units of a product to the user's entry for it, or creates the
        entry, as CartAfterAdd describes. Only the stock is checked; the
        stock itself does not change. */
    method CartAdd(u: UserId, producto: Field, cantidad: Field) returns (r: Outcome<CartId>)
      requires Valid()
      modifies this`cart, this`nextCart
      ensures Valid()
      ensures var q, k := IntOf(GetOr(cantidad, 1)), LookupKey(producto);
              if q.None? || k.BadKey? then
                r == Rejected(Internal) && cart == old(cart) && nextCart == old(nextCart)
              else if k.NoRow? || k.id !in stock then
                r == Rejected(NotFound) && cart == old(cart) && nextCart == old(nextCart)
              else
                CartChange(r, cart, nextCart) == CartAfterAdd(old(cart), old(nextCart), u, k.id, q.value, stock[k.id])
    {
      var q := IntOf(GetOr(cantidad, 1));
      if q.None? {
        return Rejected(Internal);  // int() raises
      }
      var k := LookupKey(producto);
      if k.BadKey? {
        return Rejected(Internal);  // the id lookup raises ValueError
      }
      if k.NoRow? || k.id !in stock {
        return Rejected(NotFound);  // Producto.DoesNotExist
      }
      var p := k.id;
      CartAfterAddShape(cart, nextCart, u, p, q.value, stock[p]);
      if id :| id in cart && EntryFor(cart, id, u, p) {  // carrito_existente
        assert EntryOf(cart, u, p) == Some(id);
        var nueva := cart[id].cantidad + q.value;
        if stock[p] < nueva {
          return Rejected(InsufficientStock);
        }
        cart := cart[id := CartEntry(u, p, nueva)];
        return Ok(id);
      }
      assert EntryOf(cart, u, p) == None;
      if stock[p] < q.value {
        return Rejected(InsufficientStock);
      }
      var id := nextCart;  // perform_create
      cart := cart[id := CartEntry(u, p, q.value)];
      nextCart := nextCart + 1;
      return Ok(id);
    }

    /** `CarritoTempViewSet.destroy`: user u deletes one of their own cart
        entries. No stock is returned, as none was taken. */
    method CartRemove(u: UserId, pk: string) returns (r: Outcome<()>)
      requires Valid()
      modifies this`cart
      ensures Valid()
      ensures UrlKey(pk).BadKey? ==> r == Rejected(Internal) && cart == old(cart)
      ensures UrlKey(pk).Key? && OwnEntry(old(cart), UrlKey(pk).id, u) ==>
                r == Ok(()) && cart == old(cart) - {UrlKey(pk).id}
      ensures UrlKey(pk).Key? && !OwnEntry(old(cart), UrlKey(pk).id, u) ==>
                r == Rejected(NotFound) && cart == old(cart)
      ensures r.Ok? ==> UrlKey(pk).Key? && UrlKey(pk).id in old(cart)
                        && forall p :: Reserved(cart, p)
                             == old(Reserved(cart, p)) - CartShare(old(cart)[UrlKey(pk).id], p)
    {
      var k := UrlKey(pk);
      if k.BadKey? || k.NoRow? {
        return Rejected(Internal);  // objects.get raises ValueError
      }
      var id := k.id;
      if !OwnEntry(cart, id, u) {
        return Rejected(NotFound);  // CarritoTemp.DoesNotExist
      }
      ghost var before := cart;
      cart := cart - {id};
      forall p
        ensures Reserved(cart, p) == Reserved(before, p) - CartShare(before[id], p)
      {
        ReservedRemove(before, id, p);
      }
      return Ok(());
    }

    /** `CarritoTempViewSet.limpiar_carrito`: deletes all of user u's cart
        entries and then credits each product that still exists with the
        units the user held of it. Cart additions never took those units
        out of stock, so the credit is new stock. */
    method CartClear(u: UserId) returns (count: nat)
      requires Valid()
      modifies this`cart, this`stock
      ensures Valid()
      ensures cart == NotOwnedBy(old(cart), u)
      ensures count == |OwnedBy(old(cart), u)| == |old(cart)| - |cart|
      ensures stock.Keys == old(stock).Keys
      ensures forall p :: p in stock ==> stock[p] == old(stock[p]) + Holding(old(cart), u, p)
      ensures forall p :: p in stock ==> stock[p] + Reserved(cart, p) == old(stock[p] + Reserved(cart, p))
    {
      var items := OwnedBy(cart, u);
      var toReturn := GroupByProduct(items);
      CartPartitionSize(cart, u);
      ghost var cart0 := cart;
      count := |items|;
      cart := NotOwnedBy(cart, u);
      CreditStock(toReturn);
      forall p | p in stock
        ensures stock[p] + Reserved(cart, p) == old(stock[p] + Reserved(cart, p))
      {
        ReservedSplit(cart0, u, p);
      }
    }

    /** The second loop of `limpiar_carrito`: adds each amount to the stock
        of its product, skipping products that no longer exist. */
    method CreditStock(amounts: map<ProductId, int>)
      modifies this`stock
      ensures stock.Keys == old(stock).Keys
      ensures forall p :: p in stock ==> stock[p] == old(stock[p]) + AmountOf(amounts, p)
    {
      var todo := amounts.Keys;
      while todo != {}
        invariant todo <= amounts.Keys
        invariant stock.Keys == old(stock).Keys
        invariant forall p :: p in stock ==>
                    stock[p] == old(stock[p]) + (if p in amounts && p !in todo then amounts[p] else 0)
        decreases todo
      {
        var id := Choose(todo);
        if id in stock {
          stock := stock[id := stock[id] + amounts[id]];
        }
        todo := todo - {id};
      }
    }

    // -------------------------------------------------------------------
    // Order lines

    /** `PedidoDetalleViewSet.create`: adds a line of `cantidad_prod`
        (default 1) units to an existing order and takes them out of stock,
        provided the stock covers them. moneyOk says whether the four
        monetary values convert to decimals. */
    method LineCreate(pedido: Field, producto: Field, cantidad: Field, moneyOk: bool)
      returns (r: Outcome<LineId>)
      requires Valid()
      modifies this`lines, this`stock, this`nextLine
      ensures Valid()
      ensures var ko, kp, q := LookupKey(pedido), LookupKey(producto), IntOf(GetOr(cantidad, 1));
              if ko.BadKey? then r == Rejected(Internal)
              else if ko.NoRow? || ko.id !in orders then r == Rejected(NotFound)
              else if kp.BadKey? then r == Rejected(Internal)
              else if kp.NoRow? || kp.id !in old(stock) then r == Rejected(NotFound)
              else if q.None? then r == Rejected(Internal)
              else if old(stock[kp.id]) < q.value then r == Rejected(InsufficientStock)
              else if !moneyOk then r == Rejected(Internal)
              else r == Ok(old(nextLine)) && nextLine == old(nextLine) + 1
                   && lines == old(lines)[old(nextLine) := Line(ko.id, kp.id, q.value)]
                   && stock == old(stock)[kp.id := old(stock[kp.id]) - q.value]
      ensures r.Rejected? ==> lines == old(lines) && stock == old(stock) && nextLine == old(nextLine)
      ensures r.Ok? ==> stock[lines[r.value].producto] >= 0
      ensures stock.Keys == old(stock).Keys
      ensures forall p :: p in stock ==> Units(p) == old(Units(p))
    {
      var ko := LookupKey(pedido);
      if ko.BadKey? {
        return Rejected(Internal);  // the id lookup raises ValueError
      }
      if ko.NoRow? || ko.id !in orders {
        return Rejected(NotFound);  // get_object_or_404
      }
      var kp := LookupKey(producto);
      if kp.BadKey? {
        return Rejected(Internal);
      }
      if kp.NoRow? || kp.id !in stock {
        return Rejected(NotFound);  // get_object_or_404
      }
      var p := kp.id;
      var q := IntOf(GetOr(cantidad, 1));
      if q.None? {
        return Rejected(Internal);  // int() raises
      }
      if stock[p] < q.value {
        return Rejected(InsufficientStock);
      }
      if !moneyOk {
        return Rejected(Internal);  // Decimal() raises
      }
      var id := nextLine;
      var l := Line(ko.id, p, q.value);
      ghost var before := lines;
      lines := lines[id := l];
      nextLine := nextLine + 1;
      stock := stock[p := stock[p] - q.value];
      forall pp | pp in stock
        ensures Units(pp) == old(Units(pp))
      {
        CommittedInsert(before, id, l, pp);
      }
      return Ok(id);
    }

    /** `PedidoDetalleViewSet.update`: when the body carries
        `cantidad_prod`, moves the difference between the new and the old
        quantity out of (or back into) stock, provided the stock covers an
        increase. */
    method LineUpdate(id: LineId, cantidad: Field) returns (r: Outcome<()>)
      requires Valid()
      modifies this`lines, this`stock
      ensures Valid()
      ensures id !in old(lines) ==> r == Rejected(NotFound)
      ensures id in old(lines) ==>
                var l, q := old(lines)[id], IntOf(cantidad);
                if cantidad.Absent? then r == Ok(())
                else if q.None? then r == Rejected(Internal)
                else if l.producto !in old(stock) then r == Rejected(NotFound)
                else if old(stock[l.producto]) < q.value - l.cantidad then r == Rejected(InsufficientStock)
                else r == Ok(()) && lines == old(lines)[id := l.(cantidad := q.value)]
                     && stock == old(stock)[l.producto := old(stock[l.producto]) - (q.value - l.cantidad)]
      ensures r.Rejected? || cantidad.Absent? ==> lines == old(lines) && stock == old(stock)
      ensures stock.Keys == old(stock).Keys
      ensures forall p :: p in stock ==> Units(p) == old(Units(p))
    {
      if id !in lines {
        return Rejected(NotFound);  // get_object
      }
      if cantidad.Absent? {
        return Ok(());
      }
      var q := IntOf(cantidad);
      if q.None? {
        return Rejected(Internal);  // int() raises
      }
      var l := lines[id];
      if l.producto !in stock {
        return Rejected(NotFound);  // instance.producto raises DoesNotExist
      }
      var diferencia := q.value - l.cantidad;
      if stock[l.producto] < diferencia {
        return Rejected(InsufficientStock);
      }
      ghost var before := lines;
      stock := stock[l.producto := stock[l.producto] - diferencia];
      lines := lines[id := l.(cantidad := q.value)];
      forall pp | pp in stock
        ensures Units(pp) == old(Units(pp))
      {
        CommittedSet(before, id, q.value, pp);
      }
      return Ok(());
    }

    /** `PedidoDetalleViewSet.destroy`: deletes a line. The statement that
        would return its units to stock is commented out, so those units
        leave the shop's accounts. */
    method LineDestroy(id: LineId) returns (r: Outcome<()>)
      requires Valid()
      modifies this`lines
      ensures Valid()
      ensures id !in old(lines) ==> r == Rejected(NotFound)
      ensures id in old(lines) && old(lines)[id].producto !in stock ==> r == Rejected(NotFound)
      ensures id in old(lines) && old(lines)[id].producto in stock ==>
                r == Ok(()) && lines == old(lines) - {id}
      ensures r.Rejected? ==> lines == old(lines)
      ensures r.Ok? ==> forall p :: p in stock ==> Units(p) == old(Units(p)) - LineShare(old(lines)[id], p)
    {
      if id !in lines {
        return Rejected(NotFound);  // get_object
      }
      if lines[id].producto !in stock {
        return Rejected(NotFound);  // instance.producto raises DoesNotExist
      }
      ghost var before := lines;
      lines := lines - {id};
      forall pp | pp in stock
        ensures Units(pp) == old(Units(pp)) - LineShare(before[id], pp)
      {
        CommittedRemove(before, id, pp);
      }
      return Ok(());
    }

    // -------------------------------------------------------------------
    // Orders

    /** `PedidoViewSet.create`: creates a paid order for an existing user,
        then checks the requested lines one by one, creating each line that
        passes and taking its units out of stock at once. If any line was
        refused, the order and its lines are deleted again, but the stock
        taken for the lines that passed is not returned. */
    method OrderCreate(usuarioId: Field, productos: seq<LineRequest>) returns (r: Outcome<OrderId>)
      requires Valid()
      modifies this`orders, this`lines, this`stock, this`nextOrder, this`nextLine
      ensures Valid()
      ensures |productos| == 0 ==> r == Rejected(NoProducts)
      ensures |productos| > 0 && !Truthy(usuarioId) ==> r == Rejected(MissingUser)
      ensures |productos| > 0 && Truthy(usuarioId) && LookupKey(usuarioId).BadKey? ==>
                r == Rejected(Internal)
      ensures |productos| > 0 && Truthy(usuarioId) && LookupKey(usuarioId).Key?
              && LookupKey(usuarioId).id !in users ==>
                r == Rejected(NotFound)
      ensures r.Rejected? && !r.why.LineErrors? ==>
                orders == old(orders) && lines == old(lines) && stock == old(stock)
                && nextOrder == old(nextOrder) && nextLine == old(nextLine)
      ensures |productos| > 0 && Truthy(usuarioId) && LookupKey(usuarioId).Key?
              && LookupKey(usuarioId).id in users ==>
                var t := Checkout(old(stock), productos);
                stock == t.stock && nextOrder == old(nextOrder) + 1
                && nextLine == old(nextLine) + |t.sales|
                && if t.errors == [] then
                     r == Ok(old(nextOrder))
                     && orders == old(orders)[old(nextOrder) := Order(LookupKey(usuarioId).id, Pagado, false)]
                     && lines == Extend(old(lines), old(nextOrder), old(nextLine), t.sales)
                   else
                     r == Rejected(LineErrors(t.errors)) && orders == old(orders) && lines == old(lines)
      ensures stock.Keys == old(stock).Keys
      ensures r.Ok? ==> forall p :: p in stock ==> Units(p) == old(Units(p))
      ensures r.Rejected? && r.why.LineErrors? ==>
                forall p :: p in stock ==>
                  Units(p) == old(Units(p)) - Sold(Checkout(old(stock), productos).sales, p)
      ensures (forall p :: p in old(stock) ==> old(stock[p]) >= 0) ==>
                forall p :: p in stock ==> stock[p] >= 0
    {
      if |productos| == 0 {
        return Rejected(NoProducts);
      }
      if !Truthy(usuarioId) {
        return Rejected(MissingUser);
      }
      var ku := LookupKey(usuarioId);
      if ku.BadKey? {
        return Rejected(Internal);  // the id lookup raises ValueError
      }
      if ku.id !in users {
        return Rejected(NotFound);  // Usuario.DoesNotExist
      }
      r := PlaceOrder(ku.id, productos);
      CheckoutAccount(old(stock), productos);
      CheckoutKeepsUnits(old(stock), old(lines), old(nextOrder), old(nextLine), productos);
      if forall p :: p in old(stock) ==> old(stock[p]) >= 0 {
        CheckoutNonNegative(old(stock), productos);
      }
    }

    /** The part of `PedidoViewSet.create` after the user is found: creates
        the order, runs the loop over the requested lines and, if any line
        was refused, deletes the order with its lines again. */
    method PlaceOrder(u: UserId, productos: seq<LineRequest>) returns (r: Outcome<OrderId>)
      requires Valid()
      modifies this`orders, this`lines, this`stock, this`nextOrder, this`nextLine
      ensures Valid()
      ensures var t := Checkout(old(stock), productos);
              stock == t.stock && nextOrder == old(nextOrder) + 1
              && nextLine == old(nextLine) + |t.sales|
              && if t.errors == [] then
                   r == Ok(old(nextOrder))
                   && orders == old(orders)[old(nextOrder) := Order(u, Pagado, false)]
                   && lines == Extend(old(lines), old(nextOrder), old(nextLine), t.sales)
                 else
                   r == Rejected(LineErrors(t.errors)) && orders == old(orders) && lines == old(lines)
    {
      var o := nextOrder;
      orders := orders[o := Order(u, Pagado, false)];
      nextOrder := nextOrder + 1;
      ghost var stock0, lines0, base := stock, lines, nextLine;
      var errores: seq<LineError>;
      ghost var sales: seq<Sale>;
      errores, sales := AddLines(o, productos);
      ExtendKeys(lines0, o, base, sales);
      if errores != [] {
        orders := orders - {o};             // pedido.delete()
        lines := LinesNotOf(lines, o);      // its lines are deleted with it
        ExtendDropped(lines0, o, base, sales);
        return Rejected(LineErrors(errores));
      }
      return Ok(o);
    }

    /** The loop of `PedidoViewSet.create` over the requested lines of the
        new order o: each line that passes its checks becomes a line of o
        and takes its units out of stock before the next line is checked. */
    method AddLines(o: OrderId, productos: seq<LineRequest>) returns (errores: seq<LineError>, ghost sales: seq<Sale>)
      modifies this`lines, this`stock, this`nextLine
      ensures Checkout(old(stock), productos) == Tally(stock, sales, errores)
      ensures nextLine == old(nextLine) + |sales|
      ensures lines == Extend(old(lines), o, old(nextLine), sales)
    {
      errores, sales := [], [];
      var i := 0;
      while i < |productos|
        invariant 0 <= i <= |productos|
        invariant Checkout(old(stock), productos[..i]) == Tally(stock, sales, errores)
        invariant nextLine == old(nextLine) + |sales|
        invariant lines == Extend(old(lines), o, old(nextLine), sales)
      {
        assert productos[..i + 1][..i] == productos[..i];
        match CheckLine(stock, productos[i]) {
          case Refuse(e) =>
            errores := errores + [e];
          case Accept(sale) =>
            lines := lines[nextLine := Line(o, sale.producto, sale.cantidad)];  // PedidoDetalle.objects.create
            nextLine := nextLine + 1;
            stock := stock[sale.producto := stock[sale.producto] - sale.cantidad];
            assert (sales + [sale])[..|sales|] == sales;
            sales := sales + [sale];
        }
        i := i + 1;
      }
      assert productos[..i] == productos;
    }

    /** `PedidoViewSet.destroy`: returns the units of every line of the order
        to stock, then deletes the order together with its lines. */
    method OrderDestroy(o: OrderId) returns (r: Outcome<()>)
      requires Valid()
      modifies this`orders, this`lines, this`stock
      ensures Valid()
      ensures o !in old(orders) ==> r == Rejected(NotFound)
      ensures o in old(orders) && !Stocked(LinesOf(old(lines), o), old(stock)) ==> r == Rejected(NotFound)
      ensures o in old(orders) && Stocked(LinesOf(old(lines), o), old(stock)) ==>
                r == Ok(()) && orders == old(orders) - {o} && lines == LinesNotOf(old(lines), o)
      ensures r.Rejected? ==> orders == old(orders) && lines == old(lines) && stock == old(stock)
      ensures stock.Keys == old(stock).Keys
      ensures r.Ok? ==> forall p :: p in stock ==> stock[p] == old(stock[p]) + Committed(LinesOf(old(lines), o), p)
      ensures forall p :: p in stock ==> Units(p) == old(Units(p))
    {
      if o !in orders {
        return Rejected(NotFound);  // get_object
      }
      var mine := LinesOf(lines, o);  // instance.detalles.all()
      if !Stocked(mine, stock) {
        return Rejected(NotFound);  // detalle.producto raises DoesNotExist
      }
      ReturnLines(mine);
      orders := orders - {o};            // perform_destroy
      lines := LinesNotOf(lines, o);     // its lines are deleted with it
      forall p | p in stock
        ensures Units(p) == old(Units(p))
      {
        CommittedSplit(old(lines), o, p);
      }
      return Ok(());
    }

    /** The loop of `PedidoViewSet.destroy`: adds the quantity of each line
        back to the stock of its product. */
    method ReturnLines(mine: map<LineId, Line>)
      requires Stocked(mine, stock)
      modifies this`stock
      ensures stock.Keys == old(stock).Keys
      ensures forall p :: p in stock ==> stock[p] == old(stock[p]) + Committed(mine, p)
    {
      var todo := mine.Keys;
      while todo != {}
        invariant todo <= mine.Keys
        invariant stock.Keys == old(stock).Keys
        invariant forall p :: p in stock ==> stock[p] == old(stock[p]) + Committed(mine - todo, p)
        decreases todo
      {
        var k := Choose(todo);
        var l := mine[k];
        ghost var before := mine - todo;
        stock := stock[l.producto := stock[l.producto] + l.cantidad];
        todo := todo - {k};
        assert mine - todo == before[k := l];
        forall p | p in stock
          ensures stock[p] == old(stock[p]) + Committed(mine - todo, p)
        {
          CommittedInsert(before, k, l, p);
        }
      }
      assert mine - todo == mine;
    }

    /** `PedidoViewSet.actualizar_estado`: sets the state of an order to one
        of the three state names, and refuses anything else. */
    method OrderSetStatus(o: OrderId, estado: Option<string>) returns (r: Outcome<()>)
      requires Valid()
      modifies this`orders
      ensures Valid()
      ensures o !in old(orders) ==> r == Rejected(NotFound)
      ensures o in old(orders) && StatusOf(estado).None? ==> r == Rejected(InvalidStatus)
      ensures o in old(orders) && StatusOf(estado).Some? ==>
                r == Ok(()) && orders == old(orders)[o := old(orders)[o].(estado := StatusOf(estado).value)]
      ensures r.Rejected? ==> orders == old(orders)
    {
      if o !in orders {
        return Rejected(NotFound);  // get_object
      }
      var s := StatusOf(estado);
      if s.None? {
        return Rejected(InvalidStatus);
      }
      orders := orders[o := orders[o].(estado := s.value)];
      return Ok(());
    }

    // -------------------------------------------------------------------
    // Internal movements

    /** `RegistrarMovimientoView.post`: books units leaving the shop as a
        received internal order of the admin user with one line, and takes
        them out of stock, provided the stock covers them. The comparison
        with the stock raises unless `cantidad` is a number. */
    method Movement(m: MovementRequest) returns (r: Outcome<OrderId>)
      requires Valid()
      modifies this`orders, this`lines, this`stock, this`nextOrder, this`nextLine
      ensures Valid()
      ensures AdminUser !in users ==> r == Rejected(Internal)
      ensures AdminUser in users
              && (m.productoId.Absent? || m.cantidad.Absent? || m.tipoSalida.Absent? || m.companiaDestino.Absent?) ==>
                r == Rejected(MissingFields)
      ensures AdminUser in users
              && !(m.productoId.Absent? || m.cantidad.Absent? || m.tipoSalida.Absent? || m.companiaDestino.Absent?) ==>
                var k := LookupKey(m.productoId);
                if k.BadKey? then r == Rejected(Internal)
                else if k.NoRow? || k.id !in old(stock) then r == Rejected(NotFound)
                else if !m.cantidad.Num? then r == Rejected(Internal)
                else if old(stock[k.id]) < m.cantidad.n then r == Rejected(InsufficientStock)
                else r == Ok(old(nextOrder)) && nextOrder == old(nextOrder) + 1 && nextLine == old(nextLine) + 1
                     && orders == old(orders)[old(nextOrder) := Order(AdminUser, Recibido, true)]
                     && lines == old(lines)[old(nextLine) := Line(old(nextOrder), k.id, m.cantidad.n)]
                     && stock == old(stock)[k.id := old(stock[k.id]) - m.cantidad.n]
      ensures r.Rejected? ==>
                orders == old(orders) && lines == old(lines) && stock == old(stock)
                && nextOrder == old(nextOrder) && nextLine == old(nextLine)
      ensures stock.Keys == old(stock).Keys
      ensures forall p :: p in stock ==> Units(p) == old(Units(p))
    {
      if AdminUser !in users {
        return Rejected(Internal);  // Usuario.DoesNotExist is caught as a generic error
      }
      if m.productoId.Absent? || m.cantidad.Absent? || m.tipoSalida.Absent? || m.companiaDestino.Absent? {
        return Rejected(MissingFields);
      }
      var k := LookupKey(m.productoId);
      if k.BadKey? {
        return Rejected(Internal);  // the id lookup raises ValueError
      }
      if k.NoRow? || k.id !in stock {
        return Rejected(NotFound);  // Producto.DoesNotExist
      }
      if !m.cantidad.Num? {
        return Rejected(Internal);  // comparing a number with null or text raises TypeError
      }
      var p, q := k.id, m.cantidad.n;
      if stock[p] < q {
        return Rejected(InsufficientStock);
      }
      var o := nextOrder;
      orders := orders[o := Order(AdminUser, Recibido, true)];
      nextOrder := nextOrder + 1;
      var id := nextLine;
      var l := Line(o, p, q);
      ghost var before := lines;
      lines := lines[id := l];
      nextLine := nextLine + 1;
      stock := stock[p := stock[p] - q];
      forall pp | pp in stock
        ensures Units(pp) == old(Units(pp))
      {
        CommittedInsert(before, id, l, pp);
      }
      return Ok(o);
    }
  }
}

/** The records the shop's request handlers read and write, reduced to the
    fields the handlers touch, and the balances the model keeps track of:
    units held in carts (Reserved) and units sold in order lines
    (Committed). */
module Shop {
  import opened Py
  import opened Sums

  type ProductId = int
  type UserId = int
  type OrderId = int
  type CartId = int
  type LineId = int

  /** A `CarritoTemp` row: who holds how many units of which product. */
  datatype CartEntry = CartEntry(usuario: UserId, producto: ProductId, cantidad: int)

  /** A `PedidoDetalle` row: a quantity of one product in one order. */
  datatype Line = Line(pedido: OrderId, producto: ProductId, cantidad: int)

  /** The `ESTADO_CHOICES` of an order. */
  datatype Status = Pagado | EnCamino | Recibido

  /** A `Pedido` row: its customer, its state and whether it records an
      internal stock movement. */
  datatype Order = Order(usuario: UserId, estado: Status, interno: bool)

  /** Why one requested line of a new order was refused. */
  datatype LineError =
    | NotAnObject       // the line is not a JSON object
    | MissingId         // neither `producto_id` nor `id` is truthy
    | MissingQuantity   // `cantidad` is not truthy
    | NotAnInteger      // `int(cantidad)` raises
    | BadProductId      // the id cannot be used as a key (the lookup raises)
    | UnknownProduct    // no product with that id
    | NotEnoughStock    // stock is below the quantity
    | BadMoney          // a monetary value is not a decimal

  /** The typed rejections of the handlers. */
  datatype Rejection =
    | InvalidQuantity
    | InsufficientStock
    | NotFound
    | InvalidStatus
    | NoProducts
    | MissingUser
    | MissingFields
    | LineErrors(errors: seq<LineError>)
    | Internal          // an exception caught by the handler's catch-all

  datatype Outcome<T> = Ok(value: T) | Rejected(why: Rejection)

  /** What `objects.get(id=value)` makes of a request value: the integer
      key it looks up, no match at all (a missing key or null), or the
      ValueError that non-numeric text raises. */
  datatype Key = Key(id: int) | NoRow | BadKey

  function LookupKey(f: Field): (r: Key)
    ensures r.Key? <==> IntOf(f).Some?
    ensures r.Key? ==> r.id == IntOf(f).value
    ensures r == NoRow <==> f.Absent? || f.Null?
  {
    match f
    case Absent => NoRow
    case Null => NoRow
    case Num(n) => Key(n)
    case Text(t) => if ParseInt(t).Some? then Key(ParseInt(t).value) else BadKey
  }

  /** The stored name of each order state. */
  function StatusName(s: Status): string {
    match s
    case Pagado => "Pagado"
    case EnCamino => "En Camino"
    case Recibido => "Recibido"
  }

  /** `nuevo_estado in dict(Pedido.ESTADO_CHOICES)`, and which state it names. */
  function StatusOf(name: Option<string>): (r: Option<Status>)
    ensures forall s: Status :: name == Some(StatusName(s)) ==> r == Some(s)
    ensures r.Some? ==> name == Some(StatusName(r.value))
  {
    match name
    case None => None
    case Some(n) =>
      if n == "Pagado" then Some(Pagado)
      else if n == "En Camino" then Some(EnCamino)
      else if n == "Recibido" then Some(Recibido)
      else
        assert n != StatusName(Pagado) && n != StatusName(EnCamino) && n != StatusName(Recibido);
        None
  }

  // ---------------------------------------------------------------------
  // Cart balances

  /** At most one cart entry per (user, product). */
  ghost predicate CartUnique(cart: map<CartId, CartEntry>) {
    forall i, j ::
      (i in cart && j in cart && cart[i].usuario == cart[j].usuario && cart[i].producto == cart[j].producto)
      ==> i == j
  }

  /** id is user u's cart entry for product p. */
  predicate EntryFor(cart: map<CartId, CartEntry>, id: CartId, u: UserId, p: ProductId) {
    id in cart && cart[id].usuario == u && cart[id].producto == p
  }

  /** The cart entries of one user (the handlers' `get_queryset`). */
  function OwnedBy(cart: map<CartId, CartEntry>, u: UserId): (r: map<CartId, CartEntry>)
    ensures forall k :: k in r <==> k in cart && cart[k].usuario == u
    ensures forall k :: k in r ==> r[k] == cart[k]
  {
    map k | k in cart && cart[k].usuario == u :: cart[k]
  }

  /** The cart entries of every other user. */
  function NotOwnedBy(cart: map<CartId, CartEntry>, u: UserId): (r: map<CartId, CartEntry>)
    ensures forall k :: k in r <==> k in cart && cart[k].usuario != u
    ensures forall k :: k in r ==> r[k] == cart[k]
  {
    map k | k in cart && cart[k].usuario != u :: cart[k]
  }

  /** Clearing user u's cart splits it in two: the entries that go and the
      entries that stay are disjoint and together are the whole cart. */
  lemma CartPartition(cart: map<CartId, CartEntry>, u: UserId)
    ensures OwnedBy(cart, u).Keys !! NotOwnedBy(cart, u).Keys
    ensures OwnedBy(cart, u) + NotOwnedBy(cart, u) == cart
  {
  }

  /** Every entry belongs either to user u or to somebody else. */
  lemma CartPartitionSize(cart: map<CartId, CartEntry>, u: UserId)
    ensures |OwnedBy(cart, u)| + |NotOwnedBy(cart, u)| == |cart|
  {
    var a, b := OwnedBy(cart, u).Keys, NotOwnedBy(cart, u).Keys;
    assert a + b == cart.Keys && a * b == {};
    assert |a + b| == |a| + |b| - |a * b|;
  }

  function CartQty(cart: map<CartId, CartEntry>, p: ProductId): map<CartId, int> {
    map k | k in cart && cart[k].producto == p :: cart[k].cantidad
  }

  /** Units of p held in carts. */
  ghost function Reserved(cart: map<CartId, CartEntry>, p: ProductId): int {
    Total(CartQty(cart, p))
  }

  /** Units of p held in the cart of user u. */
  ghost function Holding(cart: map<CartId, CartEntry>, u: UserId, p: ProductId): int {
    Reserved(OwnedBy(cart, u), p)
  }

  /** What one cart entry contributes to the balance of p. */
  function CartShare(e: CartEntry, p: ProductId): int {
    if e.producto == p then e.cantidad else 0
  }

  lemma ReservedInsert(cart: map<CartId, CartEntry>, id: CartId, e: CartEntry, p: ProductId)
    requires id !in cart
    ensures Reserved(cart[id := e], p) == Reserved(cart, p) + CartShare(e, p)
  {
    if e.producto == p {
      assert CartQty(cart[id := e], p) == CartQty(cart, p)[id := e.cantidad];
      TotalInsert(CartQty(cart, p), id, e.cantidad);
    } else {
      assert CartQty(cart[id := e], p) == CartQty(cart, p);
    }
  }

  /** Changing the quantity of an entry moves the balance of its product by
      the difference, and no other balance. */
  lemma ReservedSet(cart: map<CartId, CartEntry>, id: CartId, q: int, p: ProductId)
    requires id in cart
    ensures Reserved(cart[id := cart[id].(cantidad := q)], p)
            == Reserved(cart, p) + (if cart[id].producto == p then q - cart[id].cantidad else 0)
  {
    var e := cart[id].(cantidad := q);
    if cart[id].producto == p {
      assert CartQty(cart[id := e], p) == CartQty(cart, p)[id := q];
      TotalUpdate(CartQty(cart, p), id, q);
    } else {
      assert CartQty(cart[id := e], p) == CartQty(cart, p);
    }
  }

  lemma ReservedRemove(cart: map<CartId, CartEntry>, id: CartId, p: ProductId)
    requires id in cart
    ensures Reserved(cart - {id}, p) == Reserved(cart, p) - CartShare(cart[id], p)
  {
    ReservedInsert(cart - {id}, id, cart[id], p);
    assert (cart - {id})[id := cart[id]] == cart;
  }

  /** The units of p in carts are those of user u plus those of everybody
      else. */
  lemma ReservedSplit(cart: map<CartId, CartEntry>, u: UserId, p: ProductId)
    ensures Reserved(cart, p) == Holding(cart, u, p) + Reserved(NotOwnedBy(cart, u), p)
  {
    var q := CartQty(cart, p);
    var mine := OwnedBy(cart, u).Keys;
    TotalSplit(q, mine);
    CartQtySplit(cart, u, p);
  }

  lemma CartQtySplit(cart: map<CartId, CartEntry>, u: UserId, p: ProductId)
    ensures CartQty(OwnedBy(cart, u), p) == Restrict(CartQty(cart, p), OwnedBy(cart, u).Keys)
    ensures CartQty(NotOwnedBy(cart, u), p) == CartQty(cart, p) - OwnedBy(cart, u).Keys
  {
  }

  /** With one entry per (user, product), the units a user holds of p are
      the quantity of that user's entry for p, and 0 when there is none. */
  lemma HoldingUnique(cart: map<CartId, CartEntry>, u: UserId, p: ProductId)
    requires CartUnique(cart)
    ensures forall id :: id in cart && cart[id].usuario == u && cart[id].producto == p
              ==> Holding(cart, u, p) == cart[id].cantidad
    ensures (forall id :: id in cart ==> cart[id].usuario != u || cart[id].producto != p)
              ==> Holding(cart, u, p) == 0
  {
    var q := CartQty(OwnedBy(cart, u), p);
    if id :| id in cart && cart[id].usuario == u && cart[id].producto == p {
      forall k | k in q ensures k == id {
        assert k in OwnedBy(cart, u) && OwnedBy(cart, u)[k].producto == p;
      }
      assert id in OwnedBy(cart, u);
      assert q == map[id := cart[id].cantidad];
      TotalInsert(map[], id, cart[id].cantidad);
      assert map[][id := cart[id].cantidad] == q;
    } else {
      assert forall k :: k !in q;
      assert q == map[];
    }
  }

  // ---------------------------------------------------------------------
  // Adding to a cart

  /** User u's cart entry for p, if there is one. */
  ghost function EntryOf(cart: map<CartId, CartEntry>, u: UserId, p: ProductId): (r: Option<CartId>)
    ensures r.Some? ==> EntryFor(cart, r.value, u, p)
    ensures r.None? ==> forall id :: !EntryFor(cart, id, u, p)
  {
    if exists id :: EntryFor(cart, id, u, p) then
      var id :| EntryFor(cart, id, u, p); Some(id)
    else None
  }

  lemma NoEntry(cart: map<CartId, CartEntry>, u: UserId, p: ProductId)
    requires EntryOf(cart, u, p).None?
    ensures forall k :: k in cart ==> cart[k].usuario != u || cart[k].producto != p
  {
    forall k | k in cart
      ensures cart[k].usuario != u || cart[k].producto != p
    {
      assert !EntryFor(cart, k, u, p);
    }
  }

  /** With one entry per (user, product), the entry found is the only one:
      the row the handler's `first()` returns. */
  lemma EntryOfUnique(cart: map<CartId, CartEntry>, id: CartId, u: UserId, p: ProductId)
    requires CartUnique(cart) && EntryFor(cart, id, u, p)
    ensures EntryOf(cart, u, p) == Some(id)
  {
  }

  /** The result of a cart addition, with the cart and the next free cart
      key after it. */
  datatype CartChange = CartChange(result: Outcome<CartId>, cart: map<CartId, CartEntry>, next: CartId)

  /** User u asks for q more units of p while `available` units are in
      stock: the user's entry for p grows, or a new entry is created under
      the next key, when the stock covers the entry's new quantity. */
  ghost function CartAfterAdd(cart: map<CartId, CartEntry>, next: CartId, u: UserId, p: ProductId,
                              q: int, available: int): CartChange
  {
    match EntryOf(cart, u, p)
    case Some(id) =>
      var nueva := cart[id].cantidad + q;
      if available < nueva then CartChange(Rejected(InsufficientStock), cart, next)
      else CartChange(Ok(id), cart[id := CartEntry(u, p, nueva)], next)
    case None =>
      if available < q then CartChange(Rejected(InsufficientStock), cart, next)
      else CartChange(Ok(next), cart[next := CartEntry(u, p, q)], next + 1)
  }

  /** A cart addition keeps one entry per (user, product) and keeps every
      key below the next free one; a refused one changes nothing. */
  lemma CartAfterAddShape(cart: map<CartId, CartEntry>, next: CartId, u: UserId, p: ProductId,
                          q: int, available: int)
    requires CartUnique(cart)
    requires forall k :: k in cart ==> k < next
    ensures CartUnique(CartAfterAdd(cart, next, u, p, q, available).cart)
    ensures forall k :: k in CartAfterAdd(cart, next, u, p, q, available).cart ==>
              k < CartAfterAdd(cart, next, u, p, q, available).next
    ensures CartAfterAdd(cart, next, u, p, q, available).result.Rejected? ==>
              CartAfterAdd(cart, next, u, p, q, available) == CartChange(Rejected(InsufficientStock), cart, next)
    ensures CartAfterAdd(cart, next, u, p, q, available).result.Ok? ==>
              EntryFor(CartAfterAdd(cart, next, u, p, q, available).cart,
                       CartAfterAdd(cart, next, u, p, q, available).result.value, u, p)
  {
    match EntryOf(cart, u, p)
    case Some(id) =>
      var nueva := cart[id].cantidad + q;
      if available >= nueva {
        var c := cart[id := CartEntry(u, p, nueva)];
        assert c.Keys == cart.Keys;
        assert forall k :: k in cart ==> c[k].usuario == cart[k].usuario && c[k].producto == cart[k].producto;
      }
    case None =>
      if available >= q {
        NoEntry(cart, u, p);
        assert next !in cart;
      }
  }

  /** A cart addition succeeds exactly when the stock covers the user's
      holding of p raised by q, and then the holding is raised by q. */
  lemma CartAfterAddHolding(cart: map<CartId, CartEntry>, next: CartId, u: UserId, p: ProductId,
                            q: int, available: int)
    requires CartUnique(cart)
    requires forall k :: k in cart ==> k < next
    ensures CartAfterAdd(cart, next, u, p, q, available).result.Ok? <==> Holding(cart, u, p) + q <= available
    ensures CartAfterAdd(cart, next, u, p, q, available).result.Ok? ==>
              Holding(CartAfterAdd(cart, next, u, p, q, available).cart, u, p) == Holding(cart, u, p) + q
  {
    var c := CartAfterAdd(cart, next, u, p, q, available);
    HoldingUnique(cart, u, p);
    CartAfterAddShape(cart, next, u, p, q, available);
    match EntryOf(cart, u, p)
    case Some(id) =>
      assert Holding(cart, u, p) == cart[id].cantidad;
      if c.result.Ok? {
        HoldingUnique(c.cart, u, p);
        assert Holding(c.cart, u, p) == c.cart[id].cantidad;
      }
    case None =>
      NoEntry(cart, u, p);
      assert Holding(cart, u, p) == 0;
      if c.result.Ok? {
        HoldingUnique(c.cart, u, p);
        assert Holding(c.cart, u, p) == c.cart[next].cantidad;
      }
  }

  /** A successful cart addition reserves q more units of p and no more of
      any other product. */
  lemma CartAfterAddReserved(cart: map<CartId, CartEntry>, next: CartId, u: UserId, p: ProductId,
                             q: int, available: int, pp: ProductId)
    requires forall k :: k in cart ==> k < next
    ensures Reserved(CartAfterAdd(cart, next, u, p, q, available).cart, pp)
            == Reserved(cart, pp)
               + (if CartAfterAdd(cart, next, u, p, q, available).result.Ok? && pp == p then q else 0)
  {
    match EntryOf(cart, u, p)
    case Some(id) =>
      var nueva := cart[id].cantidad + q;
      if available >= nueva {
        assert cart[id := CartEntry(u, p, nueva)] == cart[id := cart[id].(cantidad := nueva)];
        ReservedSet(cart, id, nueva, pp);
      }
    case None =>
      if available >= q {
        ReservedInsert(cart, next, CartEntry(u, p, q), pp);
      }
  }

  // ---------------------------------------------------------------------
  // Order-line balances

  /** The lines of order o (cascade-deleted with it). */
  function LinesOf(lines: map<LineId, Line>, o: OrderId): (r: map<LineId, Line>)
    ensures forall k :: k in r <==> k in lines && lines[k].pedido == o
    ensures forall k :: k in r ==> r[k] == lines[k]
  {
    map k | k in lines && lines[k].pedido == o :: lines[k]
  }

  /** The lines of every other order. */
  function LinesNotOf(lines: map<LineId, Line>, o: OrderId): (r: map<LineId, Line>)
    ensures forall k :: k in r <==> k in lines && lines[k].pedido != o
    ensures forall k :: k in r ==> r[k] == lines[k]
  {
    map k | k in lines && lines[k].pedido != o :: lines[k]
  }

  /** Deleting order o splits the lines in two: its own lines and those of
      every other order are disjoint and together are all the lines. */
  lemma LinesPartition(lines: map<LineId, Line>, o: OrderId)
    ensures LinesOf(lines, o).Keys !! LinesNotOf(lines, o).Keys
    ensures LinesOf(lines, o) + LinesNotOf(lines, o) == lines
  {
  }

  function LineQty(lines: map<LineId, Line>, p: ProductId): map<LineId, int> {
    map k | k in lines && lines[k].producto == p :: lines[k].cantidad
  }

  /** Units of p sold in order lines. */
  ghost function Committed(lines: map<LineId, Line>, p: ProductId): int {
    Total(LineQty(lines, p))
  }

  /** What one line contributes to the balance of p. */
  function LineShare(l: Line, p: ProductId): int {
    if l.producto == p then l.cantidad else 0
  }

  lemma CommittedInsert(lines: map<LineId, Line>, id: LineId, l: Line, p: ProductId)
    requires id !in lines
    ensures Committed(lines[id := l], p) == Committed(lines, p) + LineShare(l, p)
  {
    if l.producto == p {
      assert LineQty(lines[id := l], p) == LineQty(lines, p)[id := l.cantidad];
      TotalInsert(LineQty(lines, p), id, l.cantidad);
    } else {
      assert LineQty(lines[id := l], p) == LineQty(lines, p);
    }
  }

  /** Changing the quantity of a line moves the balance of its product by
      the difference, and no other balance. */
  lemma CommittedSet(lines: map<LineId, Line>, id: LineId, q: int, p: ProductId)
    requires id in lines
    ensures Committed(lines[id := lines[id].(cantidad := q)], p)
            == Committed(lines, p) + (if lines[id].producto == p then q - lines[id].cantidad else 0)
  {
    var l := lines[id].(cantidad := q);
    if lines[id].producto == p {
      assert LineQty(lines[id := l], p) == LineQty(lines, p)[id := q];
      TotalUpdate(LineQty(lines, p), id, q);
    } else {
      assert LineQty(lines[id := l], p) == LineQty(lines, p);
    }
  }

  lemma CommittedRemove(lines: map<LineId, Line>, id: LineId, p: ProductId)
    requires id in lines
    ensures Committed(lines - {id}, p) == Committed(lines, p) - LineShare(lines[id], p)
  {
    CommittedInsert(lines - {id}, id, lines[id], p);
    assert (lines - {id})[id := lines[id]] == lines;
  }

  /** The units of p sold are those in the lines of order o plus those in
      the lines of every other order. */
  lemma CommittedSplit(lines: map<LineId, Line>, o: OrderId, p: ProductId)
    ensures Committed(lines, p) == Committed(LinesOf(lines, o), p) + Committed(LinesNotOf(lines, o), p)
  {
    TotalSplit(LineQty(lines, p), LinesOf(lines, o).Keys);
    LineQtySplit(lines, o, p);
  }

  lemma LineQtySplit(lines: map<LineId, Line>, o: OrderId, p: ProductId)
    ensures LineQty(LinesOf(lines, o), p) == Restrict(LineQty(lines, p), LinesOf(lines, o).Keys)
    ensures LineQty(LinesNotOf(lines, o), p) == LineQty(lines, p) - LinesOf(lines, o).Keys
  {
  }
}

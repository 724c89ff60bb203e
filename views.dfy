/**
 * The storefront views (productos/views.py): the session cart store, the
 * cart page with its shipping charge, checkout, and the token-guarded order
 * status page.
 *
 * A request is reduced to what the views read: whether it is a POST, its
 * form fields and its query parameters. Template rendering becomes a
 * `Response` value carrying the context the template would receive.
 */
module Views {
  import opened Wrappers
  import opened PyText
  import opened Models
  import opened Cart

  datatype Request = Request(isPost: bool, post: map<string, string>, query: map<string, string>)

  /** `params.get(name, "")`. */
  function Field(params: map<string, string>, name: string): string {
    if name in params then params[name] else ""
  }

  /** The named routes the views redirect to. */
  datatype Route = Catalogo | CartDetail

  datatype Response =
    | Redirect(to: Route)
    | NotFound
    | CartPage(items: seq<Line>, subtotal: Cents, envio: Cents, totalConEnvio: Cents)
    | CheckoutPage(items: seq<Line>, subtotal: Cents, envio: Cents, total: Cents, error: string)
    | Confirmation(pedido: PedidoRow)
    | OrderStatus(pedido: PedidoRow, lines: seq<ItemRow>)

  /** The flat shipping charge, Decimal("6.00"). */
  const Envio: Cents := 600

  const MissingFieldsError: string := "Por favor llena nombre, teléfono y dirección."

  /** The value a `categoria` column holds for each choice. */
  function CategoriaCode(c: Categoria): string {
    match c
    case AGUA => "AGUA"
    case LECHE => "LECHE"
  }

  /**
   * `_filter_by_categoria(nombre)` on the text-column branch:
   * `filter(categoria__iexact=nombre, activo=True)`, in table order.
   */
  function FilterByCategoria(catalog: Catalog, nombre: string): (r: seq<Producto>)
    ensures forall p | p in r :: p in catalog && p.activo && Lower(CategoriaCode(p.categoria)) == Lower(nombre)
    ensures forall p | p in catalog && p.activo && Lower(CategoriaCode(p.categoria)) == Lower(nombre) :: p in r
  {
    if catalog == [] then []
    else
      var p := catalog[|catalog| - 1];
      assert forall q | q in catalog :: q in catalog[..|catalog| - 1] || q == p;
      FilterByCategoria(catalog[..|catalog| - 1], nombre) +
        (if p.activo && Lower(CategoriaCode(p.categoria)) == Lower(nombre) then [p] else [])
  }

  /** The filtered products keep the catalog's increasing id order (`order_by("id")`). */
  lemma {:induction false} FilterByCategoriaOrdered(catalog: Catalog, nombre: string)
    requires forall i, j | 0 <= i < j < |catalog| :: catalog[i].id < catalog[j].id
    ensures forall i, j | 0 <= i < j < |FilterByCategoria(catalog, nombre)| ::
      FilterByCategoria(catalog, nombre)[i].id < FilterByCategoria(catalog, nombre)[j].id
  {
    if catalog != [] {
      var init := catalog[..|catalog| - 1];
      FilterByCategoriaOrdered(init, nombre);
      var r0 := FilterByCategoria(init, nombre);
      forall k | 0 <= k < |r0| ensures r0[k].id < catalog[|catalog| - 1].id {
        assert r0[k] in init;
      }
    }
  }

  /** `catalogo`: the "Agua" section lists exactly the active AGUA products, the "Leche" section the active LECHE ones. */
  lemma CatalogoSections(catalog: Catalog, p: Producto)
    ensures p in FilterByCategoria(catalog, "Agua") <==> p in catalog && p.activo && p.categoria == AGUA
    ensures p in FilterByCategoria(catalog, "Leche") <==> p in catalog && p.activo && p.categoria == LECHE
  {
    assert Lower("Agua") == "agua" == Lower("AGUA");
    assert Lower("Leche") == "leche" == Lower("LECHE");
    assert Lower("AGUA") != Lower("LECHE") by { assert Lower("AGUA")[0] != Lower("LECHE")[0]; }
  }

  /** The visitor's session; only its "cart" key is used by the core. */
  class Session {
    var cart: Option<CartMap>

    constructor ()
      ensures cart == None
    {
      cart := None;
    }
  }

  /** `_get_cart(session)`: the stored cart, or a new empty one that is stored first. */
  method GetCart(session: Session) returns (cart: CartMap)
    modifies session
    ensures old(session.cart).Some? ==> cart == old(session.cart).value
    ensures old(session.cart).None? ==> cart == map[]
    ensures session.cart == Some(cart)
  {
    if session.cart.None? {
      session.cart := Some(map[]);
    }
    cart := session.cart.value;
  }

  /** The cart `_get_cart` yields in a session whose "cart" entry is `stored`. */
  function CartOf(stored: Option<CartMap>): CartMap {
    stored.GetOr(map[])
  }

  /** `add_to_cart`: one more unit of an active product; 404 for an unknown or inactive one. */
  method AddToCart(req: Request, session: Session, catalog: Catalog, productoId: nat) returns (resp: Response)
    requires CatalogValid(catalog)
    modifies session
    ensures !req.isPost ==> resp == Redirect(Catalogo) && session.cart == old(session.cart)
    ensures req.isPost && ActiveProducto(catalog, productoId).None? ==>
      resp == NotFound && session.cart == old(session.cart)
    ensures req.isPost && ActiveProducto(catalog, productoId).Some? ==>
      resp == Redirect(CartDetail) && session.cart == Some(Added(CartOf(old(session.cart)), productoId))
  {
    if !req.isPost {
      return Redirect(Catalogo);
    }
    var producto := ActiveProducto(catalog, productoId);
    if producto.None? {
      return NotFound;
    }
    var cart := GetCart(session);
    var pid := Key(producto.value.id);
    if pid !in cart {
      cart := cart[pid := Entry(Some(1))];
    } else {
      cart := cart[pid := Entry(Some(cart[pid].qty.GetOr(0) + 1))];
    }
    session.cart := Some(cart);
    resp := Redirect(CartDetail);
  }

  /** `cart_detail`: the resolved lines, their subtotal, 6.00 shipping when there is a line, and the total. */
  method CartDetailView(session: Session, catalog: Catalog) returns (resp: Response)
    modifies session
    ensures session.cart == Some(CartOf(old(session.cart)))
    ensures resp.CartPage?
    ensures multiset(resp.items) == multiset(ResolvedLines(CartOf(old(session.cart)), catalog))
    ensures SortedByName(resp.items)
    ensures resp.items == SortByName(ResolvedLines(CartOf(old(session.cart)), catalog))
    ensures resp.subtotal == SumSubtotals(ResolvedLines(CartOf(old(session.cart)), catalog))
    ensures resp.envio == (if ResolvedLines(CartOf(old(session.cart)), catalog) != [] then Envio else 0)
    ensures resp.totalConEnvio == resp.subtotal + resp.envio
  {
    var cart := GetCart(session);
    var items, subtotal := CartItemsAndTotal(cart, catalog);
    assert items == [] <==> ResolvedLines(cart, catalog) == [] by {
      assert |multiset(items)| == |items|;
    }
    var envio := if items != [] then Envio else 0;
    resp := CartPage(items, subtotal, envio, subtotal + envio);
  }

  /** The quantity `cart_update` reads: `int(request.POST.get("qty", "1"))`, or 1 when that fails. */
  function QtyInput(post: map<string, string>): (q: int)
    ensures "qty" !in post ==> q == 1
    ensures "qty" in post && ParseInt(post["qty"]).Some? ==> q == ParseInt(post["qty"]).value
    ensures "qty" in post && ParseInt(post["qty"]).None? ==> q == 1
  {
    KeyParses(1);
    assert Key(1) == "1";
    match ParseInt(if "qty" in post then post["qty"] else "1")
    case Some(n) => n
    case None => 1
  }

  /** `cart_update`: sets the quantity, removing the entry when it is not positive; no catalog check. */
  method CartUpdate(req: Request, session: Session, productoId: nat) returns (resp: Response)
    modifies session
    ensures resp == Redirect(CartDetail)
    ensures !req.isPost ==> session.cart == old(session.cart)
    ensures req.isPost ==> session.cart == Some(Updated(CartOf(old(session.cart)), productoId, QtyInput(req.post)))
  {
    if !req.isPost {
      return Redirect(CartDetail);
    }
    var cart := GetCart(session);
    var pid := Key(productoId);
    var qty := QtyInput(req.post);
    if qty <= 0 {
      cart := cart - {pid};
    } else {
      cart := cart[pid := Entry(Some(qty))];
    }
    session.cart := Some(cart);
    resp := Redirect(CartDetail);
  }

  /** `cart_remove`: drops the product's entry; a missing entry is not an error. */
  method CartRemove(req: Request, session: Session, productoId: nat) returns (resp: Response)
    modifies session
    ensures resp == Redirect(CartDetail)
    ensures !req.isPost ==> session.cart == old(session.cart)
    ensures req.isPost ==> session.cart == Some(Removed(CartOf(old(session.cart)), productoId))
  {
    if !req.isPost {
      return Redirect(CartDetail);
    }
    var cart := GetCart(session);
    cart := cart - {Key(productoId)};
    session.cart := Some(cart);
    resp := Redirect(CartDetail);
  }

  /** The stripped checkout form fields. */
  datatype CheckoutForm = CheckoutForm(nombre: string, telefono: string, direccion: string, mensaje: string)

  /**
   * The checkout form after `.strip()` of every field; None when the name,
   * the phone or the address is blank (the message may be).
   */
  function CleanForm(post: map<string, string>): (r: Option<CheckoutForm>)
    ensures r.None? <==>
      AllSpace(Field(post, "nombre")) || AllSpace(Field(post, "telefono")) || AllSpace(Field(post, "direccion"))
    ensures r.Some? ==>
      && r.value.nombre == Strip(Field(post, "nombre")) && r.value.nombre != ""
      && r.value.telefono == Strip(Field(post, "telefono")) && r.value.telefono != ""
      && r.value.direccion == Strip(Field(post, "direccion")) && r.value.direccion != ""
      && r.value.mensaje == Strip(Field(post, "mensaje"))
  {
    StripBlank(Field(post, "nombre"));
    StripBlank(Field(post, "telefono"));
    StripBlank(Field(post, "direccion"));
    var f := CheckoutForm(
      Strip(Field(post, "nombre")), Strip(Field(post, "telefono")),
      Strip(Field(post, "direccion")), Strip(Field(post, "mensaje")));
    if f.nombre != "" && f.telefono != "" && f.direccion != "" then Some(f) else None
  }

  /** The item row `checkout` stores for one line: the line's name, price, quantity and subtotal. */
  function Snapshot(l: Line, id: nat, pedidoId: nat): ItemRow
    requires l.qty >= 0
  {
    ItemRow(id, pedidoId, l.producto.id, l.producto.nombre, Some(l.producto.precio), l.qty, l.subtotal)
  }

  /** The item rows for `lines`, with consecutive ids from `firstId`. */
  function Snapshots(lines: seq<Line>, pedidoId: nat, firstId: nat): (r: seq<ItemRow>)
    requires forall i | 0 <= i < |lines| :: lines[i].qty >= 0
    ensures |r| == |lines|
  {
    if lines == [] then []
    else Snapshots(lines[..|lines| - 1], pedidoId, firstId) +
         [Snapshot(lines[|lines| - 1], firstId + |lines| - 1, pedidoId)]
  }

  /** The sum of the subtotals of item rows. */
  function SumItemSubtotals(rows: seq<ItemRow>): Cents {
    if rows == [] then 0 else SumItemSubtotals(rows[..|rows| - 1]) + rows[|rows| - 1].subtotal
  }

  /** An order's stored subtotal is the sum of its stored item subtotals. */
  lemma {:induction false} SnapshotsSum(lines: seq<Line>, pedidoId: nat, firstId: nat)
    requires forall i | 0 <= i < |lines| :: lines[i].qty >= 0
    ensures SumItemSubtotals(Snapshots(lines, pedidoId, firstId)) == SumSubtotals(lines)
  {
    if lines != [] {
      var init := lines[..|lines| - 1];
      SnapshotsSum(init, pedidoId, firstId);
      var r := Snapshots(lines, pedidoId, firstId);
      assert r[..|r| - 1] == Snapshots(init, pedidoId, firstId);
    }
  }

  lemma SnapshotsStep(lines: seq<Line>, i: nat, pedidoId: nat, firstId: nat)
    requires i < |lines|
    requires forall k | 0 <= k < |lines| :: lines[k].qty >= 0
    ensures Snapshots(lines[..i + 1], pedidoId, firstId) ==
      Snapshots(lines[..i], pedidoId, firstId) + [Snapshot(lines[i], firstId + i, pedidoId)]
  {
    assert lines[..i + 1][..i] == lines[..i];
  }

  /** Every line the resolver yields has a positive quantity priced at the product's price. */
  lemma ResolvedLinesPositive(lines: seq<Line>, cart: CartMap, catalog: Catalog)
    requires multiset(lines) == multiset(ResolvedLines(cart, catalog))
    ensures forall i | 0 <= i < |lines| :: lines[i].qty > 0 && lines[i].subtotal == lines[i].producto.precio * lines[i].qty
  {
    forall i | 0 <= i < |lines| ensures lines[i].qty > 0 && lines[i].subtotal == lines[i].producto.precio * lines[i].qty {
      assert lines[i] in multiset(ResolvedLines(cart, catalog));
      ResolvedLineIff(cart, catalog, lines[i]);
    }
  }

  /** The order row `checkout` creates: stripped form fields, flat shipping, CONFIRMADO, a fresh token. */
  function NewOrderRow(id: nat, f: CheckoutForm, subtotal: Cents, token: string): (r: PedidoRow)
    ensures r.total == r.subtotal + r.envio && r.envio == Envio
  {
    PedidoRow(id, f.nombre, f.telefono, f.direccion, f.mensaje, subtotal, Envio, subtotal + Envio, CONFIRMADO, token)
  }

  /** The item-creation loop of `checkout`: one `PedidoItem` per line, saved in line order. */
  method SaveItems(db: Db, lines: seq<Line>, pedidoId: nat)
    requires db.Valid() && 1 <= pedidoId <= |db.pedidos|
    requires forall i | 0 <= i < |lines| :: lines[i].qty > 0 && lines[i].subtotal == lines[i].producto.precio * lines[i].qty
    modifies db
    ensures db.Valid()
    ensures db.pedidos == old(db.pedidos)
    ensures db.items == old(db.items) + Snapshots(lines, pedidoId, |old(db.items)| + 1)
  {
    for i := 0 to |lines|
      invariant db.Valid()
      invariant db.pedidos == old(db.pedidos)
      invariant db.items == old(db.items) + Snapshots(lines[..i], pedidoId, |old(db.items)| + 1)
    {
      var l := lines[i];
      var p := l.producto;
      var item := new PedidoItem(pedidoId, Some(p), p.nombre, Some(p.precio), l.qty, l.subtotal);
      ghost var before := db.items;
      item.Save(db);
      assert db.items == before + [Snapshot(l, |before| + 1, pedidoId)];
      SnapshotsStep(lines, i, pedidoId, |old(db.items)| + 1);
    }
    assert lines[..|lines|] == lines;
  }

  /** `Pedido.objects.create(...)` for a complete form, then the order's item rows. */
  method PlaceOrder(db: Db, f: CheckoutForm, lines: seq<Line>, subtotal: Cents, freshToken: string)
    returns (resp: Response)
    requires db.Valid()
    requires IsHexToken(freshToken) && db.TokenFree(freshToken, None)
    requires forall i | 0 <= i < |lines| :: lines[i].qty > 0 && lines[i].subtotal == lines[i].producto.precio * lines[i].qty
    modifies db
    ensures db.Valid()
    ensures db.pedidos == old(db.pedidos) + [NewOrderRow(|old(db.pedidos)| + 1, f, subtotal, freshToken)]
    ensures db.items == old(db.items) + Snapshots(lines, |old(db.pedidos)| + 1, |old(db.items)| + 1)
    ensures resp == Confirmation(db.pedidos[|old(db.pedidos)|])
  {
    var pedido := new Pedido(f.nombre, f.telefono, f.direccion, f.mensaje, subtotal, Envio, subtotal + Envio, CONFIRMADO);
    pedido.Save(db, freshToken);
    SaveItems(db, lines, pedido.id.value);
    resp := Confirmation(pedido.Row());
  }

  /**
   * What `checkout` does for a cart with lines, from the order and item
   * tables before (`p0`, `i0`) to after (`p1`, `i1`): on GET, the form; on a
   * POST with a blank name, phone or address, the form with an error and no
   * write; otherwise one CONFIRMADO order with total = subtotal + 6.00 and
   * the fresh token, then one item row per line in line order.
   */
  ghost predicate CheckoutOutcome(req: Request, lines: seq<Line>, token: string,
                                  p0: seq<PedidoRow>, i0: seq<ItemRow>,
                                  p1: seq<PedidoRow>, i1: seq<ItemRow>, resp: Response)
  {
    if req.isPost && CleanForm(req.post).Some? then
      && (forall i | 0 <= i < |lines| :: lines[i].qty >= 0)
      && p1 == p0 + [NewOrderRow(|p0| + 1, CleanForm(req.post).value, SumSubtotals(lines), token)]
      && i1 == i0 + Snapshots(lines, |p0| + 1, |i0| + 1)
      && resp == Confirmation(p1[|p0|])
    else
      && p1 == p0 && i1 == i0
      && resp == CheckoutPage(lines, SumSubtotals(lines), Envio, SumSubtotals(lines) + Envio,
                              if req.isPost then MissingFieldsError else "")
  }

  /** The form half of `checkout`, for a cart with lines. */
  method Submit(req: Request, db: Db, lines: seq<Line>, subtotal: Cents, freshToken: string)
    returns (resp: Response)
    requires db.Valid()
    requires IsHexToken(freshToken) && db.TokenFree(freshToken, None)
    requires lines != [] && subtotal == SumSubtotals(lines)
    requires forall i | 0 <= i < |lines| :: lines[i].qty > 0 && lines[i].subtotal == lines[i].producto.precio * lines[i].qty
    modifies db
    ensures db.Valid()
    ensures CheckoutOutcome(req, lines, freshToken, old(db.pedidos), old(db.items), db.pedidos, db.items, resp)
  {
    var envio := Envio;
    var total := subtotal + envio;
    if !req.isPost {
      resp := CheckoutPage(lines, subtotal, envio, total, "");
    } else {
      var form := CleanForm(req.post);
      if form.None? {
        resp := CheckoutPage(lines, subtotal, envio, total, MissingFieldsError);
      } else {
        resp := PlaceOrder(db, form.value, lines, subtotal, freshToken);
      }
    }
  }

  /**
   * `checkout`: with no resolved line, back to the catalog with nothing
   * written; otherwise `CheckoutOutcome`, and once the order exists the cart
   * is dropped from the session. `lines` are the resolved lines, in the
   * order the page lists them and the items are created.
   */
  method Checkout(req: Request, session: Session, db: Db, catalog: Catalog, freshToken: string)
    returns (resp: Response, ghost lines: seq<Line>)
    requires db.Valid()
    requires IsHexToken(freshToken) && db.TokenFree(freshToken, None)
    modifies session, db
    ensures db.Valid()
    ensures multiset(lines) == multiset(ResolvedLines(CartOf(old(session.cart)), catalog))
    ensures SortedByName(lines)
    ensures lines == SortByName(ResolvedLines(CartOf(old(session.cart)), catalog))
    ensures lines == [] ==>
      resp == Redirect(Catalogo) && db.pedidos == old(db.pedidos) && db.items == old(db.items)
    ensures lines != [] ==>
      CheckoutOutcome(req, lines, freshToken, old(db.pedidos), old(db.items), db.pedidos, db.items, resp)
    ensures session.cart == if resp.Confirmation? then None else Some(CartOf(old(session.cart)))
  {
    var cart := GetCart(session);
    var items, subtotal := CartItemsAndTotal(cart, catalog);
    lines := items;
    if items == [] {
      resp := Redirect(Catalogo);
    } else {
      ResolvedLinesPositive(items, cart, catalog);
      resp := Submit(req, db, items, subtotal, freshToken);
      if resp.Confirmation? {
        session.cart := None;
      }
    }
  }

  /** `Pedido.objects.get(id=id, token=token)`: the order with that id and that token, if any. */
  function FindPedido(rows: seq<PedidoRow>, id: nat, token: string): (r: Option<PedidoRow>)
    ensures r.Some? ==> r.value in rows && r.value.id == id && r.value.token == token
    ensures r.None? ==> forall i | 0 <= i < |rows| :: rows[i].id != id || rows[i].token != token
  {
    if rows == [] then None
    else if rows[|rows| - 1].id == id && rows[|rows| - 1].token == token then Some(rows[|rows| - 1])
    else FindPedido(rows[..|rows| - 1], id, token)
  }

  /** `PedidoItem.objects.filter(pedido=pedido).order_by("id")`: the order's item rows, in table order. */
  function ItemsOf(rows: seq<ItemRow>, pedidoId: nat): (r: seq<ItemRow>)
    ensures forall x | x in r :: x in rows && x.pedidoId == pedidoId
    ensures forall x | x in rows && x.pedidoId == pedidoId :: x in r
  {
    if rows == [] then []
    else
      var x := rows[|rows| - 1];
      assert forall y | y in rows :: y in rows[..|rows| - 1] || y == x;
      ItemsOf(rows[..|rows| - 1], pedidoId) + (if x.pedidoId == pedidoId then [x] else [])
  }

  /** Item rows come back in increasing id order when the table is. */
  lemma {:induction false} ItemsOfOrdered(rows: seq<ItemRow>, pedidoId: nat)
    requires forall i, j | 0 <= i < j < |rows| :: rows[i].id < rows[j].id
    ensures forall i, j | 0 <= i < j < |ItemsOf(rows, pedidoId)| ::
      ItemsOf(rows, pedidoId)[i].id < ItemsOf(rows, pedidoId)[j].id
  {
    if rows != [] {
      var init := rows[..|rows| - 1];
      ItemsOfOrdered(init, pedidoId);
      var r0 := ItemsOf(init, pedidoId);
      forall k | 0 <= k < |r0| ensures r0[k].id < rows[|rows| - 1].id {
        assert r0[k] in init;
      }
    }
  }

  /**
   * The order access guard: the stored order with id `id` is found exactly
   * when the token presented is its own; a blank token never matches.
   */
  lemma OnlyOwnTokenOpens(db: Db, id: nat, token: string)
    requires db.Valid()
    ensures FindPedido(db.pedidos, id, token).Some? <==>
      1 <= id <= |db.pedidos| && db.pedidos[id - 1].token == token
    ensures FindPedido(db.pedidos, id, token).Some? ==> FindPedido(db.pedidos, id, token).value == db.pedidos[id - 1]
    ensures FindPedido(db.pedidos, id, "").None?
  {
    var r := FindPedido(db.pedidos, id, token);
    if r.Some? {
      var k :| 0 <= k < |db.pedidos| && db.pedidos[k] == r.value;
      assert k == id - 1;
    } else if 1 <= id <= |db.pedidos| {
      assert db.pedidos[id - 1].id == id;
    }
  }

  /** `pedido_detalle`: the order and its items when both the id and the stripped token `t` match; else 404. */
  method PedidoDetalle(req: Request, db: Db, pedidoId: nat) returns (resp: Response)
    requires db.Valid()
    ensures resp.OrderStatus? <==>
      1 <= pedidoId <= |db.pedidos| && db.pedidos[pedidoId - 1].token == Strip(Field(req.query, "t"))
    ensures !resp.OrderStatus? ==> resp == NotFound
    ensures resp.OrderStatus? ==>
      resp.pedido == db.pedidos[pedidoId - 1] && resp.lines == ItemsOf(db.items, pedidoId)
  {
    var token := Strip(Field(req.query, "t"));
    var pedido := FindPedido(db.pedidos, pedidoId, token);
    OnlyOwnTokenOpens(db, pedidoId, token);
    if pedido.None? {
      return NotFound;
    }
    resp := OrderStatus(pedido.value, ItemsOf(db.items, pedidoId));
  }
}

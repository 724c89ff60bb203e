/**
 * The storefront's data model (productos/models.py).
 *
 * Money is a Decimal with two decimal places, modelled exactly as integer
 * cents. `Producto` is read-only for the core and is a value; `Pedido` and
 * `PedidoItem` are classes whose `Save` methods derive fields in place and
 * then persist a row into `Db`, the relational store.
 */
module Models {
  import opened Wrappers

  /** A decimal amount with two places, in hundredths (Decimal("6.00") is 600). */
  type Cents = int

  /** `Producto.categoria` choices; the default is AGUA. */
  datatype Categoria = AGUA | LECHE

  /** `Pedido.estado` choices; the default is CONFIRMADO. */
  datatype Estado = CONFIRMADO | EN_PREPARACION | EN_CAMINO | ENTREGADO | CANCELADO

  /** A catalog product; `id` is the primary key the database assigns. */
  datatype Producto = Producto(
    id: nat,
    nombre: string,
    descripcion: string,
    precio: Cents,
    categoria: Categoria,
    activo: bool)

  /** A product as created with only a name: the field defaults of `Producto`. */
  function NewProducto(id: nat, nombre: string): (p: Producto)
    ensures p.id == id && p.nombre == nombre && p.descripcion == ""
    ensures p.precio == 0 && p.categoria == AGUA && p.activo
  {
    Producto(id, nombre, "", 0, AGUA, true)
  }

  /** The product table: its rows in primary-key order. */
  type Catalog = seq<Producto>

  /** Product ids are primary keys: no two rows share one. */
  ghost predicate CatalogValid(catalog: Catalog) {
    forall i, j | 0 <= i < j < |catalog| :: catalog[i].id != catalog[j].id
  }

  /** The product with primary key `id`, if any (`Producto.objects.filter(id=id).first()`). */
  function FindProducto(catalog: Catalog, id: nat): (r: Option<Producto>)
    ensures r.Some? ==> r.value in catalog && r.value.id == id
    ensures r.None? ==> forall i | 0 <= i < |catalog| :: catalog[i].id != id
  {
    if catalog == [] then None
    else if catalog[|catalog| - 1].id == id then Some(catalog[|catalog| - 1])
    else FindProducto(catalog[..|catalog| - 1], id)
  }

  /** `get_object_or_404(Producto, id=id, activo=True)`: None stands for the 404. */
  function ActiveProducto(catalog: Catalog, id: nat): (r: Option<Producto>)
    requires CatalogValid(catalog)
    ensures r.Some? ==> r.value in catalog && r.value.id == id && r.value.activo
    ensures r.None? ==> forall i | 0 <= i < |catalog| && catalog[i].id == id :: !catalog[i].activo
  {
    match FindProducto(catalog, id)
    case Some(p) =>
      if p.activo then Some(p)
      else
        assert forall i | 0 <= i < |catalog| && catalog[i].id == id :: catalog[i] == p;
        None
    case None => None
  }

  const HexDigits: set<char> := {
    '0', '1', '2', '3', '4', '5', '6', '7', '8', '9', 'a', 'b', 'c', 'd', 'e', 'f'
  }

  /** What `secrets.token_hex(16)` returns: 32 lower-case hexadecimal characters. */
  ghost predicate IsHexToken(t: string) {
    |t| == 32 && forall i | 0 <= i < |t| :: t[i] in HexDigits
  }

  /** A stored `Pedido` row. */
  datatype PedidoRow = PedidoRow(
    id: nat,
    nombre: string,
    telefono: string,
    direccionEnvio: string,
    mensaje: string,
    subtotal: Cents,
    envio: Cents,
    total: Cents,
    estado: Estado,
    token: string)

  /** A stored `PedidoItem` row; `productoId` is the protected reference to the product. */
  datatype ItemRow = ItemRow(
    id: nat,
    pedidoId: nat,
    productoId: nat,
    nombreProducto: string,
    precioUnitario: Option<Cents>,
    cantidad: nat,
    subtotal: Cents)

  /**
   * The relational store for orders: rows in primary-key order, the row at
   * index i having id i + 1 (auto-increment).
   */
  class Db {
    var pedidos: seq<PedidoRow>
    var items: seq<ItemRow>

    /**
     * Table invariants: auto-increment ids, every stored order has a
     * non-empty token, tokens are unique (the column is `unique=True`) and
     * every item references a stored order.
     */
    ghost predicate Valid()
      reads this
    {
      && (forall i | 0 <= i < |pedidos| :: pedidos[i].id == i + 1 && pedidos[i].token != "")
      && (forall i, j | 0 <= i < j < |pedidos| :: pedidos[i].token != pedidos[j].token)
      && (forall i | 0 <= i < |items| :: items[i].id == i + 1 && 1 <= items[i].pedidoId <= |pedidos|)
    }

    /** True when no stored order other than the one with id `except` uses `token`. */
    ghost predicate TokenFree(token: string, except: Option<nat>)
      reads this
    {
      forall i | 0 <= i < |pedidos| && Some(i + 1) != except :: pedidos[i].token != token
    }

    constructor ()
      ensures Valid() && pedidos == [] && items == []
    {
      pedidos := [];
      items := [];
    }
  }

  /** An order. `objects.create(...)` is the constructor followed by `Save`. */
  class Pedido {
    var id: Option<nat>
    var nombre: string
    var telefono: string
    var direccionEnvio: string
    var mensaje: string
    var subtotal: Cents
    var envio: Cents
    var total: Cents
    var estado: Estado
    var token: string

    /** A saved order always carries a token. */
    ghost predicate Valid()
      reads this
    {
      id.Some? ==> token != ""
    }

    /** The row `Save` writes for this order. */
    function Row(): PedidoRow
      reads this
      requires id.Some?
    {
      PedidoRow(id.value, nombre, telefono, direccionEnvio, mensaje, subtotal, envio, total, estado, token)
    }

    /** An unsaved order with every field at its declared default. */
    constructor Blank()
      ensures Valid() && id == None
      ensures nombre == "" && telefono == "" && direccionEnvio == "" && mensaje == ""
      ensures subtotal == 0 && envio == 600 && total == 0
      ensures estado == CONFIRMADO && token == ""
    {
      id := None;
      nombre, telefono, direccionEnvio, mensaje := "", "", "", "";
      subtotal, envio, total := 0, 600, 0;
      estado := CONFIRMADO;
      token := "";
    }

    /** An unsaved order with the given fields and no token yet. */
    constructor (nombre: string, telefono: string, direccionEnvio: string, mensaje: string,
                 subtotal: Cents, envio: Cents, total: Cents, estado: Estado)
      ensures Valid() && id == None && token == ""
      ensures this.nombre == nombre && this.telefono == telefono
      ensures this.direccionEnvio == direccionEnvio && this.mensaje == mensaje
      ensures this.subtotal == subtotal && this.envio == envio && this.total == total
      ensures this.estado == estado
    {
      id := None;
      this.nombre, this.telefono, this.direccionEnvio, this.mensaje := nombre, telefono, direccionEnvio, mensaje;
      this.subtotal, this.envio, this.total := subtotal, envio, total;
      this.estado := estado;
      token := "";
    }

    /**
     * `Pedido.save`: an empty token is replaced by `freshToken` (the value
     * `secrets.token_hex(16)` returned); a non-empty token is kept. Then the
     * row is inserted (no id yet) or updated (saved before).
     */
    method Save(db: Db, freshToken: string)
      requires Valid() && db.Valid()
      requires IsHexToken(freshToken)
      requires id.None? || 1 <= id.value <= |db.pedidos|
      requires db.TokenFree(if token == "" then freshToken else token, id)
      modifies this, db
      ensures Valid() && db.Valid()
      ensures token == (if old(token) == "" then freshToken else old(token))
      ensures old(token) != "" ==> token == old(token)
      ensures id == Some(if old(id).None? then |old(db.pedidos)| + 1 else old(id).value)
      ensures nombre == old(nombre) && telefono == old(telefono)
      ensures direccionEnvio == old(direccionEnvio) && mensaje == old(mensaje)
      ensures subtotal == old(subtotal) && envio == old(envio) && total == old(total)
      ensures estado == old(estado)
      ensures db.pedidos == if old(id).None? then old(db.pedidos) + [Row()]
                            else old(db.pedidos)[id.value - 1 := Row()]
      ensures db.items == old(db.items)
    {
      if token == "" {
        token := freshToken;
      }
      if id.None? {
        id := Some(|db.pedidos| + 1);
        db.pedidos := db.pedidos + [Row()];
      } else {
        db.pedidos := db.pedidos[id.value - 1 := Row()];
      }
    }
  }

  /** The name snapshot `PedidoItem.save` keeps: the product's name back-fills an empty one. */
  function SnapshotNombre(nombre: string, producto: Option<Producto>): (r: string)
    ensures nombre != "" ==> r == nombre
    ensures nombre == "" && producto.Some? && producto.value.id != 0 ==> r == producto.value.nombre
  {
    if nombre == "" && producto.Some? && producto.value.id != 0 then producto.value.nombre else nombre
  }

  /** The price snapshot `PedidoItem.save` keeps: the product's price back-fills None or 0.00. */
  function SnapshotPrecio(precio: Option<Cents>, producto: Option<Producto>): (r: Option<Cents>)
    ensures precio.Some? && precio.value != 0 ==> r == precio
    ensures (precio == None || precio == Some(0)) && producto.Some? && producto.value.id != 0
            ==> r == Some(producto.value.precio)
  {
    if (precio == None || precio == Some(0)) && producto.Some? && producto.value.id != 0
    then Some(producto.value.precio)
    else precio
  }

  /** An order line. `objects.create(...)` is the constructor followed by `Save`. */
  class PedidoItem {
    var id: Option<nat>
    var pedidoId: nat
    var producto: Option<Producto>
    var nombreProducto: string
    var precioUnitario: Option<Cents>
    var cantidad: nat
    var subtotal: Cents

    /** A saved line references a product and its subtotal is price times quantity. */
    ghost predicate Valid()
      reads this
    {
      id.Some? ==> producto.Some? && subtotal == precioUnitario.GetOr(0) * cantidad
    }

    /** The row `Save` writes for this line. */
    function Row(): ItemRow
      reads this
      requires id.Some? && producto.Some?
    {
      ItemRow(id.value, pedidoId, producto.value.id, nombreProducto, precioUnitario, cantidad, subtotal)
    }

    /** An unsaved line with the given fields (cantidad defaults to 1, prices to 0.00 elsewhere). */
    constructor (pedidoId: nat, producto: Option<Producto>, nombreProducto: string,
                 precioUnitario: Option<Cents>, cantidad: nat, subtotal: Cents)
      ensures Valid() && id == None
      ensures this.pedidoId == pedidoId && this.producto == producto
      ensures this.nombreProducto == nombreProducto && this.precioUnitario == precioUnitario
      ensures this.cantidad == cantidad && this.subtotal == subtotal
    {
      id := None;
      this.pedidoId, this.producto := pedidoId, producto;
      this.nombreProducto, this.precioUnitario := nombreProducto, precioUnitario;
      this.cantidad, this.subtotal := cantidad, subtotal;
    }

    /**
     * `PedidoItem.save`: back-fills the name and price snapshots from the
     * product, always recomputes the subtotal (whatever the caller set), then
     * inserts or updates the row.
     */
    method Save(db: Db)
      requires db.Valid() && producto.Some?
      requires 1 <= pedidoId <= |db.pedidos|
      requires id.None? || 1 <= id.value <= |db.items|
      modifies this, db
      ensures Valid() && db.Valid()
      ensures nombreProducto == SnapshotNombre(old(nombreProducto), producto)
      ensures precioUnitario == SnapshotPrecio(old(precioUnitario), producto)
      ensures subtotal == precioUnitario.GetOr(0) * cantidad
      ensures id == Some(if old(id).None? then |old(db.items)| + 1 else old(id).value)
      ensures pedidoId == old(pedidoId) && producto == old(producto) && cantidad == old(cantidad)
      ensures db.items == if old(id).None? then old(db.items) + [Row()]
                          else old(db.items)[id.value - 1 := Row()]
      ensures db.pedidos == old(db.pedidos)
    {
      nombreProducto := SnapshotNombre(nombreProducto, producto);
      precioUnitario := SnapshotPrecio(precioUnitario, producto);
      subtotal := precioUnitario.GetOr(0) * cantidad;
      if id.None? {
        id := Some(|db.items| + 1);
        db.items := db.items + [Row()];
      } else {
        db.items := db.items[id.value - 1 := Row()];
      }
    }
  }

  /** Saving a line twice derives nothing new: the snapshots are already filled in. */
  lemma SnapshotIdempotent(nombre: string, precio: Option<Cents>, producto: Option<Producto>)
    ensures SnapshotNombre(SnapshotNombre(nombre, producto), producto) == SnapshotNombre(nombre, producto)
    ensures SnapshotPrecio(SnapshotPrecio(precio, producto), producto) == SnapshotPrecio(precio, producto)
  {
  }
}

# Storefront cart and checkout, modelled in Dafny

This project models the cart and checkout core of a small Django storefront
that sells water and milk: `productos/views.py` and `productos/models.py`.

The model covers these parts of the storefront:

- **Session cart.** The cart lives in the visitor's session as a map from
  `str(product id)` to `{"qty": n}`. `_get_cart` creates the map when it is
  missing. `add_to_cart`, `cart_update` and `cart_remove` change it.
- **Cart resolver.** `_cart_items_and_total` turns the cart into priced lines.
  - It drops keys that `int()` rejects, unknown or inactive products, and
    quantities that are not positive.
  - Each line costs price × quantity, and the lines are summed into a subtotal.
  - The lines are sorted by lower-cased product name.
- **Cart page.** `cart_detail` charges 6.00 shipping when the cart has a line,
  and 0.00 otherwise.
- **Checkout.** `checkout` redirects an empty cart back to the catalog, and
  re-renders the form when the name, phone or address is blank after
  trimming. Otherwise it:
  1. creates one CONFIRMADO order with total = subtotal + 6.00;
  2. creates one snapshot item per line;
  3. drops the cart from the session.
- **Order status.** `pedido_detalle` shows an order only when both its id and
  its secret token match.
- **Save-time derivations.** `Pedido.save` generates the token once.
  `PedidoItem.save` back-fills the name and price snapshots and always
  recomputes the subtotal.

Modules:

- `Wrappers`: the `Option` type used for "value or None".
- `PyText`: the Python string builtins the views depend on, over `seq<char>`:
  - `str.strip()`;
  - `int(str)`, with the whitespace it skips (narrower than what `strip()`
    removes), its sign and its underscore rules;
  - `str(n)`;
  - `str.lower()`;
  - string ordering.
- `Models`: the models and a relational store.
  - `Producto` is a value and the product table is a sequence of rows.
  - `Pedido` and `PedidoItem` are classes whose `Save` updates fields in place
    and then writes a row into `Db`.
  - Money is integer cents, since every `DecimalField` has two decimal places.
- `Cart`: the cart map and its three updates, stated as functions.
  - The resolver `CartItemsAndTotal` is a method with the source's two loops
    and its sort. It is proved against the reference `ResolvedLines`.
  - Lemmas describe what each cart update does to the resolved lines.
- `Views`: the session as a class, and each view as a method.
  - Responses are values carrying what the template would receive.
  - Checkout is split along the source's own steps: `Checkout`, `Submit`,
    `PlaceOrder` and the item loop `SaveItems`.

Two rules are as simple as the code writes them:

- Shipping is a flat 6.00 in the code (`productos/views.py:126` and
  `productos/views.py:194`). There is no threshold that depends on the subtotal.
- The phone field is only stripped and checked for being non-blank
  (`productos/views.py:204-209`). It is not normalised and its digits are not
  counted.

## Model

| member | source | states |
|---|---|---|
| `PyText.StripBlank` | productos/views.py:203-209 | a stripped field is empty exactly when the input is all Python whitespace, which is what makes a blank form field fail validation |
| `PyText.StripInfix` | productos/views.py:203-206 | `strip()` returns the infix of the input between a whitespace-only prefix and a whitespace-only suffix, and that infix neither starts nor ends with whitespace |
| `PyText.StripLeftSpec` | productos/views.py:203-206 | `lstrip()` is the suffix after the leading whitespace; everything it drops is whitespace and what it keeps does not start with whitespace |
| `PyText.StripRightSpec` | productos/views.py:203-206 | `rstrip()` is the prefix before the trailing whitespace; everything it drops is whitespace and what it keeps does not end with whitespace |
| `PyText.StripUnchanged` | productos/views.py:270 | stripping a string that has no whitespace at either end returns it unchanged |
| `PyText.NatToString` | productos/views.py:46 | `str(n)` of a non-negative id is a non-empty string of decimal digits with no leading zero |
| `PyText.ParseInt` | productos/views.py:36 | `int()` raises ValueError on a string that is empty or holds only the whitespace it skips, and on one that starts with U+001C to U+001F: unlike `strip()`, `int()` does not skip those separators |
| `PyText.ParseIntPadded` | productos/views.py:148 | `int()` skips ASCII space, `\t` to `\r` and the non-ASCII Unicode spaces around the text it reads, so such padding does not change the result |
| `PyText.ParseIntOfNatToString` | productos/views.py:36 | `int()` reads back `str(n)`, with any whitespace `int()` skips around it and an optional `+` or `-` sign: the round trip between cart keys and ids |
| `PyText.DigitsValueOfNatToString` | productos/views.py:36 | the decimal value of the digits of `str(n)` is `n` |
| `PyText.NatToStringInjective` | productos/views.py:46 | distinct ids give distinct cart keys |
| `PyText.LowerIdempotent` | productos/views.py:61 | lower-casing twice is lower-casing once, and the result has no upper-case ASCII letter |
| `PyText.StrLeTotal` | productos/views.py:61 | Python's string comparison orders any two names |
| `PyText.StrLeTransitive` | productos/views.py:61 | Python's string comparison is transitive |
| `PyText.StrLeAntisymmetric` | productos/views.py:61 | two names that each compare no greater than the other are equal |
| `Models.NewProducto` | productos/models.py:12-16 | a new product has an empty description, price 0.00, category AGUA and is active |
| `Models.FindProducto` | productos/views.py:106 | the lookup by primary key finds a row with that id, or reports that no row has it |
| `Models.ActiveProducto` | productos/views.py:106 | `get_object_or_404(..., activo=True)` yields an active row with that id, or a 404 when every row with that id is inactive or there is none |
| `Models.Pedido.Blank` | productos/models.py:36-49 | a new order's defaults: empty text fields, amounts 0.00 except shipping 6.00, status CONFIRMADO, empty token |
| `Models.Pedido.Save` | productos/models.py:51-55 | an empty token is replaced by the fresh 32-hex-digit token and a non-empty one is never replaced; the other fields are kept; the row is inserted with the next id or updated in place; token uniqueness is preserved |
| `Models.SnapshotNombre` | productos/models.py:72-73 | a non-empty name snapshot is kept; an empty one is back-filled from the referenced product |
| `Models.SnapshotPrecio` | productos/models.py:74-75 | a price snapshot other than None or 0.00 is kept; None or 0.00 is back-filled from the referenced product |
| `Models.PedidoItem.Save` | productos/models.py:70-77 | saving applies both snapshots, sets subtotal to price × quantity whatever the caller passed (a missing price counts as 0.00), then inserts or updates the row and leaves the orders untouched |
| `Models.SnapshotIdempotent` | productos/models.py:72-75 | saving a line again changes neither snapshot |
| `Cart.Added` | productos/views.py:109-114 | adding puts the key in the cart with its quantity one higher (a missing quantity counts as 0, an absent key starts at 1) and leaves every other key as it was |
| `Cart.Updated` | productos/views.py:145-158 | a quantity ≤ 0 removes the key, a positive one stores exactly that quantity, and every other key is unchanged |
| `Cart.Removed` | productos/views.py:174-176 | removal takes out only the product's key |
| `Cart.RemoveIdempotent` | productos/views.py:176 | removing twice is removing once, and removing an absent key changes nothing |
| `Cart.UpdateNonPositiveRemoves` | productos/views.py:152-153 | setting a quantity ≤ 0 is the same as removing the product |
| `Cart.KeyParses` | productos/views.py:36 | a product's cart key parses back to its id |
| `Cart.Qty` | productos/views.py:47 | a cart key that is missing, or whose entry has no "qty", reads as quantity 0; a stored quantity reads as itself |
| `Cart.Fetched` | productos/views.py:40 | every row the product query returns is an active catalog row whose id is among the parsed keys |
| `Cart.FetchedIff` | productos/views.py:40 | the product query returns a row exactly when it is an active catalog row whose id is among the parsed keys |
| `Cart.FetchedOrdered` | productos/views.py:40 | the query keeps table order: its rows come in increasing id order when the table's do |
| `Cart.FetchedLines` | productos/views.py:33-58 | filtering the fetched products by cart quantity gives the reference lines `ResolvedLines` |
| `Cart.CartItemsAndTotal` | productos/views.py:27-63 | the returned lines are the reference lines after the stable sort by lower-cased name (so a permutation of them, sorted), and the returned subtotal is the sum of their subtotals |
| `Cart.InsertByNameMultiset` | productos/views.py:61 | insertion adds exactly the one line |
| `Cart.InsertByNameSorted` | productos/views.py:61 | inserting into a name-sorted sequence keeps it sorted |
| `Cart.SortByName` | productos/views.py:61 | the sort returns a permutation of its input that is sorted by lower-cased product name |
| `Cart.InsertByNameStable` | productos/views.py:61 | insertion places a line ahead of every line that has the same key |
| `Cart.SortByNameStable` | productos/views.py:61 | the sort is stable: lines whose lower-cased names are equal keep their relative order |
| `Cart.SumSubtotalsAppend` | productos/views.py:52 | the running subtotal over two runs of lines is the sum of the two subtotals |
| `Cart.SumSubtotalsPermutation` | productos/views.py:52-61 | sorting the lines does not change their subtotal |
| `Cart.ResolvedLineIff` | productos/views.py:40-51 | a line is shown exactly when its product is an active catalog row, its quantity is that product's positive cart quantity, and its subtotal is price × quantity |
| `Cart.ResolvedLinesDistinct` | productos/views.py:40-58 | no product appears on two lines |
| `Cart.NonIntegerKeysResolveToNothing` | productos/views.py:33-38 | keys that `int()` rejects are ignored, so a cart made only of them (or an empty cart) yields no lines and subtotal 0.00 |
| `Cart.ResolvedElsewhereUnchanged` | productos/views.py:45-51 | carts that differ only in one product's key give the same lines for every other product |
| `Cart.ResolvedLinesOf` | productos/views.py:45-51 | the lines for one product are one line at its cart quantity when it is active and that quantity is positive, and none otherwise |
| `Cart.ActiveProductoOf` | productos/views.py:106 | an active product in the catalog is what the 404-guarded lookup returns for its id |
| `Cart.AddThenResolve` | productos/views.py:106-114 | after adding an active product, its line has quantity one higher and every other line is unchanged |
| `Cart.UpdateThenResolve` | productos/views.py:147-158 | after setting an active product's quantity to q, it has exactly one line (q units, subtotal price × q) when q > 0 and none otherwise; every other line is unchanged |
| `Cart.RemoveThenResolve` | productos/views.py:174-176 | after removal the product has no line and every other line is unchanged |
| `Views.FilterByCategoria` | productos/views.py:69-83 | the category filter returns exactly the active catalog products whose category matches the name ignoring case |
| `Views.FilterByCategoriaOrdered` | productos/views.py:80 | the filtered products come in increasing id order |
| `Views.CatalogoSections` | productos/views.py:86-93 | the "Agua" section is exactly the active AGUA products and the "Leche" section exactly the active LECHE products |
| `Views.GetCart` | productos/views.py:12-24 | an existing cart is returned as it is; otherwise an empty cart is stored in the session and returned |
| `Views.AddToCart` | productos/views.py:99-119 | a non-POST request or an unknown or inactive product leaves the session cart untouched (redirect or 404); otherwise the stored cart becomes the `Added` cart |
| `Views.CartDetailView` | productos/views.py:122-134 | the page lists the resolved lines in stable name order with their subtotal; shipping is 6.00 exactly when there is a line and 0.00 otherwise; the grand total is subtotal + shipping |
| `Views.QtyInput` | productos/views.py:147-150 | the quantity is the integer the field parses to; a missing field or one `int()` rejects counts as 1 |
| `Views.CartUpdate` | productos/views.py:137-163 | a POST stores the `Updated` cart with the parsed quantity, with no catalog check; any other method changes nothing |
| `Views.CartRemove` | productos/views.py:166-181 | a POST stores the `Removed` cart; any other method changes nothing |
| `Views.CleanForm` | productos/views.py:202-209 | the form is refused exactly when the name, the phone or the address is all whitespace; an accepted form carries the stripped fields |
| `Views.SnapshotsSum` | productos/views.py:225-244 | the order's subtotal equals the sum of the subtotals of the items created for it |
| `Views.ResolvedLinesPositive` | productos/views.py:48-51 | every line checkout snapshots has a positive quantity and subtotal price × quantity |
| `Views.NewOrderRow` | productos/views.py:194-195 | the order's total is its subtotal plus the flat 6.00 shipping |
| `Views.SaveItems` | productos/views.py:231-244 | one item row per line is appended, in line order, carrying the line's product name, price, quantity and subtotal; the orders are untouched |
| `Views.PlaceOrder` | productos/views.py:219-244 | exactly one CONFIRMADO order is appended, with the stripped fields, total = subtotal + 6.00 and the fresh token, followed by its item rows; the confirmation shows that order |
| `Views.Submit` | productos/views.py:202-263 | a GET or a blank required field shows the form (with the error on POST) and writes nothing; a complete POST places the order |
| `Views.Checkout` | productos/views.py:187-263 | an empty resolved cart redirects to the catalog and writes nothing; otherwise the outcome is the form or the placed order over the resolved lines in stable name order; the session cart is dropped exactly when the order is placed |
| `Views.FindPedido` | productos/views.py:271 | the lookup returns a stored order with both the id and the token, or reports that none has both |
| `Views.ItemsOf` | productos/views.py:272 | the order's items are exactly the stored item rows that reference it |
| `Views.ItemsOfOrdered` | productos/views.py:272 | the items come in increasing id order |
| `Views.OnlyOwnTokenOpens` | productos/views.py:270-271 | an order opens exactly when the presented token is its own, and a blank token never opens one |
| `Views.PedidoDetalle` | productos/views.py:269-277 | the status page shows the order with that id only when the stripped `t` parameter equals its token, together with its items; otherwise it is a 404 |

## Left out

- Template rendering, redirects and the `horarios` display strings are left out. A response is a value carrying the template's context.
- The `session.modified` flag is left out, since it only tells Django to write the session back.
- The cart dictionary is modelled by value. Every view that changes it stores it back into the session, so its aliasing cannot be observed within one request.
- The database is not given an explicit order. `Producto.objects.filter(...)` without `order_by` is taken to return rows in primary-key order, the order of the `Catalog` sequence.
- `Views.FilterByCategoria` models only the text-column branch of `_filter_by_categoria`. The ForeignKey branch is chosen by reflecting on the field type, and `categoria` is a `CharField` (`productos/models.py:15`), so that branch never runs. `iexact` is modelled with ASCII case folding, which is the same thing for the category names "Agua" and "Leche".
- `PyText.ParseInt` models Python's `int()` for ASCII digits only. Non-ASCII decimal digits, which `int()` also accepts, are left out.
- `Views.QtyInput`: the limit recent interpreters put on integer conversion is not modelled. By default it is 4300 digits, and it can be changed through `PYTHONINTMAXSTRDIGITS` or is absent on older interpreters. Where it applies, `int()` raises ValueError on a longer quantity field, so the code uses quantity 1, while the model returns the number.
- `Cart.LineFor` and `Cart.SumSubtotals`: prices and sums are exact integers of cents. The code multiplies and adds `Decimal` values in the default context, which keeps 28 significant digits, so for quantities beyond about 10^25 the code rounds where the model does not.
- `PyText.Lower` models `str.lower()` on ASCII letters only, because full Unicode case mapping is not modelled. The sort key therefore differs from Python's only for product names with non-ASCII capitals.
- A stored quantity that `int()` cannot convert is left out. In the code that raises an error, but only the cart views write quantities, and they always write integers.
- `Models.Pedido.Save` requires that the token it will store is not used by another order. A collision makes the unique constraint raise an IntegrityError, which is not modelled.
- `Views.Checkout` requires the same of its fresh token, for the same reason.
- The fresh token is a parameter standing for `secrets.token_hex(16)`. Only its form is modelled: 32 lower-case hexadecimal characters.
- `Models.PedidoItem.Save` requires a product and an existing order. These are the NOT NULL and foreign-key constraints the database enforces. `on_delete` cascades and PROTECT are not modelled.
- Failures partway through checkout are not modelled. The code runs without a transaction (`productos/views.py:219-248`), so a failure between writes would leave a partial order. The model runs the writes in sequence and none of them fails.
- Column limits (`max_length`, `max_digits`) are not enforced, and neither are Django's choice lists at save time. Status and category are enumerations because the code only ever stores listed values.
- `creado_en` timestamps, `imagen` storage, the admin site, URL routing and settings are framework configuration and are not modelled.
- `Models.Db.Valid` assumes that rows are never deleted and that no insert fails, so the order with id i is the i-th row. The admin site can delete orders, and deletions are not modelled. `Views.PedidoDetalle` relies on this when it states its result through the i-th row.

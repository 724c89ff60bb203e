/**
 * The session cart and its resolution against the catalog
 * (`_cart_items_and_total` and the cart mutations of productos/views.py).
 *
 * The cart is a map from a product id written as a string to an entry
 * `{"qty": n}`. The functions below are the specifications of the in-place
 * mutations the views perform; `CartItemsAndTotal` is the resolver itself.
 */
module Cart {
  import opened Wrappers
  import opened PyText
  import opened Models

  /** A cart entry `{"qty": n}`; an entry without "qty" reads as quantity 0. */
  datatype Entry = Entry(qty: Option<int>)

  type CartMap = map<string, Entry>

  /** The cart key of a product: `str(producto.id)`. */
  function Key(id: nat): string {
    NatToString(id)
  }

  /**
   * `int(cart.get(key, {}).get("qty", 0))`: a missing key and an entry
   * without "qty" both read as 0, a stored quantity reads as itself.
   */
  function Qty(cart: CartMap, key: string): (q: int)
    ensures key !in cart || cart[key].qty.None? ==> q == 0
    ensures key in cart && cart[key].qty.Some? ==> q == cart[key].qty.value
  {
    if key in cart then cart[key].qty.GetOr(0) else 0
  }

  /** The cart after `add_to_cart` of an active product: one more unit of it. */
  function Added(cart: CartMap, id: nat): (r: CartMap)
    ensures Key(id) in r && Qty(r, Key(id)) == Qty(cart, Key(id)) + 1
    ensures Key(id) !in cart ==> r[Key(id)] == Entry(Some(1))
    ensures r - {Key(id)} == cart - {Key(id)}
  {
    var k := Key(id);
    if k !in cart then cart[k := Entry(Some(1))]
    else cart[k := Entry(Some(cart[k].qty.GetOr(0) + 1))]
  }

  /** The cart after `cart_update` with quantity `qty`: removed when qty <= 0, else set to qty. */
  function Updated(cart: CartMap, id: nat, qty: int): (r: CartMap)
    ensures qty <= 0 ==> Key(id) !in r
    ensures qty > 0 ==> Key(id) in r && r[Key(id)] == Entry(Some(qty))
    ensures r - {Key(id)} == cart - {Key(id)}
  {
    var k := Key(id);
    if qty <= 0 then cart - {k} else cart[k := Entry(Some(qty))]
  }

  /** The cart after `cart_remove`: the product's key is gone. */
  function Removed(cart: CartMap, id: nat): (r: CartMap)
    ensures Key(id) !in r
    ensures r - {Key(id)} == cart - {Key(id)}
  {
    cart - {Key(id)}
  }

  /** Removing twice is removing once, and removing an absent key changes nothing. */
  lemma RemoveIdempotent(cart: CartMap, id: nat)
    ensures Removed(Removed(cart, id), id) == Removed(cart, id)
    ensures Key(id) !in cart ==> Removed(cart, id) == cart
  {
  }

  /** An update to a non-positive quantity is a removal. */
  lemma UpdateNonPositiveRemoves(cart: CartMap, id: nat, qty: int)
    requires qty <= 0
    ensures Updated(cart, id, qty) == Removed(cart, id)
  {
  }

  /** A priced cart line: `{"producto": p, "qty": qty, "subtotal": p.precio * qty}`. */
  datatype Line = Line(producto: Producto, qty: int, subtotal: Cents)

  function LineFor(p: Producto, qty: int): (l: Line)
    ensures l.producto == p && l.qty == qty && l.subtotal == p.precio * qty
  {
    Line(p, qty, p.precio * qty)
  }

  /**
   * The lines the resolver yields, in catalog order before sorting: one per
   * active product whose key holds a positive quantity.
   */
  function ResolvedLines(cart: CartMap, catalog: Catalog): seq<Line> {
    if catalog == [] then []
    else
      var p := catalog[|catalog| - 1];
      var qty := Qty(cart, Key(p.id));
      ResolvedLines(cart, catalog[..|catalog| - 1]) + (if p.activo && qty > 0 then [LineFor(p, qty)] else [])
  }

  /** The integers the cart keys parse to; keys `int()` rejects contribute nothing. */
  ghost function ParsedIds(keys: set<string>): set<int> {
    set k | k in keys && ParseInt(k).Some? :: ParseInt(k).value
  }

  /** `Producto.objects.filter(id__in=ids, activo=True)`: the matching rows, in table order. */
  function Fetched(catalog: Catalog, ids: set<int>): (r: seq<Producto>)
    ensures forall p | p in r :: p in catalog && p.activo && p.id in ids
  {
    if catalog == [] then []
    else
      var p := catalog[|catalog| - 1];
      Fetched(catalog[..|catalog| - 1], ids) + (if p.activo && p.id in ids then [p] else [])
  }

  /** The priced lines of the fetched products whose quantity is positive, in order. */
  function LinesOf(cart: CartMap, productos: seq<Producto>): seq<Line> {
    if productos == [] then []
    else
      var p := productos[|productos| - 1];
      var qty := Qty(cart, Key(p.id));
      LinesOf(cart, productos[..|productos| - 1]) + (if qty > 0 then [LineFor(p, qty)] else [])
  }

  /** The sort key of a line: the product name, lower-cased. */
  function NameKey(l: Line): string {
    Lower(l.producto.nombre)
  }

  ghost predicate SortedByName(s: seq<Line>) {
    forall i, j | 0 <= i < j < |s| :: StrLe(NameKey(s[i]), NameKey(s[j]))
  }

  /** The sum of the line subtotals, accumulated left to right. */
  function SumSubtotals(s: seq<Line>): Cents {
    if s == [] then 0 else SumSubtotals(s[..|s| - 1]) + s[|s| - 1].subtotal
  }

  /** Inserts `x` before the first line whose key is not below its own. */
  function InsertByName(x: Line, s: seq<Line>): (r: seq<Line>)
    ensures |r| == |s| + 1
  {
    if s == [] then [x]
    else if StrLe(NameKey(x), NameKey(s[0])) then [x] + s
    else [s[0]] + InsertByName(x, s[1..])
  }

  lemma {:induction false} InsertByNameMultiset(x: Line, s: seq<Line>)
    ensures multiset(InsertByName(x, s)) == multiset(s) + multiset{x}
  {
    if s != [] {
      assert s == [s[0]] + s[1..];
      if !StrLe(NameKey(x), NameKey(s[0])) {
        InsertByNameMultiset(x, s[1..]);
      }
    }
  }

  lemma SortedTail(s: seq<Line>)
    requires s != [] && SortedByName(s)
    ensures SortedByName(s[1..])
  {
    forall i, j | 0 <= i < j < |s| - 1 ensures StrLe(NameKey(s[1..][i]), NameKey(s[1..][j])) {
      assert s[1..][i] == s[i + 1] && s[1..][j] == s[j + 1];
    }
  }

  /** `y` sorts no later than anything in `rest`, so `[y] + rest` is sorted when `rest` is. */
  lemma SortedCons(y: Line, rest: seq<Line>)
    requires SortedByName(rest)
    requires forall j | 0 <= j < |rest| :: StrLe(NameKey(y), NameKey(rest[j]))
    ensures SortedByName([y] + rest)
  {
    var r := [y] + rest;
    forall i, j | 0 <= i < j < |r| ensures StrLe(NameKey(r[i]), NameKey(r[j])) {
      assert r[j] == rest[j - 1];
      if i > 0 {
        assert r[i] == rest[i - 1];
      }
    }
  }

  /** Inserting into a sorted sequence keeps it sorted. */
  lemma {:induction false} InsertByNameSorted(x: Line, s: seq<Line>)
    requires SortedByName(s)
    ensures SortedByName(InsertByName(x, s))
  {
    if s == [] {
    } else if StrLe(NameKey(x), NameKey(s[0])) {
      forall j | 0 <= j < |s| ensures StrLe(NameKey(x), NameKey(s[j])) {
        if j > 0 {
          StrLeTransitive(NameKey(x), NameKey(s[0]), NameKey(s[j]));
        }
      }
      SortedCons(x, s);
    } else {
      var t := s[1..];
      var rest := InsertByName(x, t);
      SortedTail(s);
      InsertByNameSorted(x, t);
      InsertByNameMultiset(x, t);
      StrLeTotal(NameKey(x), NameKey(s[0]));
      forall j | 0 <= j < |rest| ensures StrLe(NameKey(s[0]), NameKey(rest[j])) {
        var y := rest[j];
        assert y in multiset(rest);
        if y != x {
          assert y in multiset(t);
          var k :| 0 <= k < |t| && t[k] == y;
          assert s[k + 1] == y;
        }
      }
      SortedCons(s[0], rest);
    }
  }

  /**
   * `items.sort(key=lambda x: x["producto"].nombre.lower())`: a stable
   * insertion sort by lower-cased product name.
   */
  function SortByName(s: seq<Line>): (r: seq<Line>)
    ensures SortedByName(r)
    ensures multiset(r) == multiset(s)
  {
    if s == [] then []
    else
      var t := SortByName(s[1..]);
      InsertByNameSorted(s[0], t);
      InsertByNameMultiset(s[0], t);
      assert s == [s[0]] + s[1..];
      InsertByName(s[0], t)
  }

  /** The lines of `s` whose sort key is `k`, in order. */
  function WithKey(s: seq<Line>, k: string): (r: seq<Line>)
    ensures |r| <= |s|
  {
    if s == [] then [] else (if NameKey(s[0]) == k then [s[0]] else []) + WithKey(s[1..], k)
  }

  /** Insertion puts `x` ahead of every line with the same key. */
  lemma {:induction false} InsertByNameStable(x: Line, s: seq<Line>, k: string)
    ensures WithKey(InsertByName(x, s), k) == (if NameKey(x) == k then [x] else []) + WithKey(s, k)
  {
    if s == [] {
    } else if StrLe(NameKey(x), NameKey(s[0])) {
      WithKeyCons(x, s, k);
    } else {
      var y, rest := s[0], InsertByName(x, s[1..]);
      StrLeTotal(NameKey(x), NameKey(x));
      assert NameKey(y) != NameKey(x);
      WithKeyCons(y, rest, k);
      InsertByNameStable(x, s[1..], k);
      assert s == [y] + s[1..];
      WithKeyCons(y, s[1..], k);
    }
  }

  lemma WithKeyCons(y: Line, s: seq<Line>, k: string)
    ensures WithKey([y] + s, k) == (if NameKey(y) == k then [y] else []) + WithKey(s, k)
  {
    assert ([y] + s)[1..] == s;
  }

  /**
   * The sort is stable, as Python's `list.sort` is: lines with equal keys
   * keep the order they had.
   */
  lemma {:induction false} SortByNameStable(s: seq<Line>, k: string)
    ensures WithKey(SortByName(s), k) == WithKey(s, k)
  {
    if s != [] {
      SortByNameStable(s[1..], k);
      InsertByNameStable(s[0], SortByName(s[1..]), k);
    }
  }

  lemma {:induction false} SumSubtotalsAppend(a: seq<Line>, b: seq<Line>)
    ensures SumSubtotals(a + b) == SumSubtotals(a) + SumSubtotals(b)
  {
    if b != [] {
      assert (a + b)[..|a + b| - 1] == a + b[..|b| - 1];
      SumSubtotalsAppend(a, b[..|b| - 1]);
    } else {
      assert a + b == a;
    }
  }

  /** The subtotal does not depend on the order of the lines. */
  lemma {:induction false} SumSubtotalsPermutation(a: seq<Line>, b: seq<Line>)
    requires multiset(a) == multiset(b)
    ensures SumSubtotals(a) == SumSubtotals(b)
  {
    if a != [] {
      var x := a[|a| - 1];
      var a' := a[..|a| - 1];
      assert a == a' + [x];
      assert multiset(a') == multiset(a) - multiset{x};
      assert x in multiset(b);
      var j :| 0 <= j < |b| && b[j] == x;
      RemoveAt(b, j);
      SumSubtotalsPermutation(a', b[..j] + b[j + 1..]);
    } else {
      assert b == [] by { assert |multiset(b)| == 0; }
    }
  }

  /** Taking out the line at `j` takes it out of the multiset and its subtotal out of the sum. */
  lemma RemoveAt(b: seq<Line>, j: nat)
    requires j < |b|
    ensures multiset(b[..j] + b[j + 1..]) == multiset(b) - multiset{b[j]}
    ensures SumSubtotals(b) == SumSubtotals(b[..j] + b[j + 1..]) + b[j].subtotal
  {
    MultisetRemoveAt(b, j);
    SumRemoveAt(b, j);
  }

  lemma MultisetRemoveAt(b: seq<Line>, j: nat)
    requires j < |b|
    ensures multiset(b[..j] + b[j + 1..]) == multiset(b) - multiset{b[j]}
  {
    var left, right := b[..j], b[j + 1..];
    assert b == left + [b[j]] + right;
    calc {
      multiset(b);
      multiset(left + [b[j]]) + multiset(right);
      multiset(left) + multiset{b[j]} + multiset(right);
    }
  }

  lemma SumRemoveAt(b: seq<Line>, j: nat)
    requires j < |b|
    ensures SumSubtotals(b) == SumSubtotals(b[..j] + b[j + 1..]) + b[j].subtotal
  {
    var x := b[j];
    assert b == (b[..j] + [x]) + b[j + 1..];
    SumSubtotalsAppend(b[..j] + [x], b[j + 1..]);
    SumSubtotalsAppend(b[..j], [x]);
    SumSubtotalsAppend(b[..j], b[j + 1..]);
    assert [x][..0] == [];
  }

  /** A product's key always parses back to its id, so its lines are never dropped as non-integer. */
  lemma KeyParses(id: nat)
    ensures ParseInt(Key(id)) == Some(id)
  {
    ParseIntOfNatToString(id, "", "", "");
    assert "" + "" + NatToString(id) + "" == NatToString(id);
  }

  lemma ParsedIdsStep(done: set<string>, k: string)
    ensures ParsedIds(done + {k}) ==
      ParsedIds(done) + (if ParseInt(k).Some? then {ParseInt(k).value} else {})
  {
  }

  lemma {:induction false} LinesOfAppend(cart: CartMap, a: seq<Producto>, b: seq<Producto>)
    ensures LinesOf(cart, a + b) == LinesOf(cart, a) + LinesOf(cart, b)
  {
    if b != [] {
      assert (a + b)[..|a + b| - 1] == a + b[..|b| - 1];
      LinesOfAppend(cart, a, b[..|b| - 1]);
    } else {
      assert a + b == a;
    }
  }

  lemma LinesOfStep(cart: CartMap, productos: seq<Producto>, i: nat)
    requires i < |productos|
    ensures LinesOf(cart, productos[..i + 1]) == LinesOf(cart, productos[..i]) +
      (if Qty(cart, Key(productos[i].id)) > 0 then [LineFor(productos[i], Qty(cart, Key(productos[i].id)))] else [])
  {
    assert productos[..i + 1][..i] == productos[..i];
  }

  /**
   * Fetching by the parsed keys and dropping non-positive quantities leaves
   * exactly the resolved lines: the key of every product with a positive
   * quantity parses back to its id.
   */
  lemma {:induction false} FetchedLines(cart: CartMap, catalog: Catalog)
    ensures LinesOf(cart, Fetched(catalog, ParsedIds(cart.Keys))) == ResolvedLines(cart, catalog)
  {
    if catalog != [] {
      var ids := ParsedIds(cart.Keys);
      var init := catalog[..|catalog| - 1];
      var p := catalog[|catalog| - 1];
      FetchedLines(cart, init);
      var tail := if p.activo && p.id in ids then [p] else [];
      LinesOfAppend(cart, Fetched(init, ids), tail);
      if Qty(cart, Key(p.id)) > 0 {
        KeyParses(p.id);
        assert Key(p.id) in cart.Keys;
        assert p.id in ids;
      }
      if tail != [] {
        assert LinesOf(cart, tail) == LinesOf(cart, []) + (if Qty(cart, Key(p.id)) > 0 then [LineFor(p, Qty(cart, Key(p.id)))] else []);
      }
    }
  }

  /** The query returns exactly the active rows whose id is among `ids`. */
  lemma {:induction false} FetchedIff(catalog: Catalog, ids: set<int>, p: Producto)
    ensures p in Fetched(catalog, ids) <==> p in catalog && p.activo && p.id in ids
  {
    if catalog != [] {
      var init := catalog[..|catalog| - 1];
      FetchedIff(init, ids, p);
      assert catalog == init + [catalog[|catalog| - 1]];
    }
  }

  /** The fetched rows keep table order: increasing ids when the table's are. */
  lemma {:induction false} FetchedOrdered(catalog: Catalog, ids: set<int>)
    requires forall i, j | 0 <= i < j < |catalog| :: catalog[i].id < catalog[j].id
    ensures forall i, j | 0 <= i < j < |Fetched(catalog, ids)| ::
      Fetched(catalog, ids)[i].id < Fetched(catalog, ids)[j].id
  {
    if catalog != [] {
      var init := catalog[..|catalog| - 1];
      FetchedOrdered(init, ids);
      var r0 := Fetched(init, ids);
      forall k | 0 <= k < |r0| ensures r0[k].id < catalog[|catalog| - 1].id {
        assert r0[k] in init;
      }
    }
  }

  /**
   * `_cart_items_and_total(cart)`: collects the keys that parse as integers,
   * fetches the active products with those ids, prices each one with a
   * positive quantity, sums the subtotals and sorts the lines by name.
   */
  method CartItemsAndTotal(cart: CartMap, catalog: Catalog) returns (items: seq<Line>, subtotal: Cents)
    ensures multiset(items) == multiset(ResolvedLines(cart, catalog))
    ensures SortedByName(items)
    ensures items == SortByName(ResolvedLines(cart, catalog))
    ensures subtotal == SumSubtotals(items) == SumSubtotals(ResolvedLines(cart, catalog))
  {
    var ids: set<int> := {};
    var keys := cart.Keys;
    ghost var seen: set<string> := {};
    while keys != {}
      invariant seen + keys == cart.Keys
      invariant ids == ParsedIds(seen)
      decreases keys
    {
      var pid :| pid in keys;
      ParsedIdsStep(seen, pid);
      match ParseInt(pid) {
        case Some(n) => ids := ids + {n};
        case None =>
      }
      keys := keys - {pid};
      seen := seen + {pid};
    }

    var productos := Fetched(catalog, ids);
    var acc: seq<Line> := [];
    subtotal := 0;
    for i := 0 to |productos|
      invariant acc == LinesOf(cart, productos[..i])
      invariant subtotal == SumSubtotals(acc)
    {
      var p := productos[i];
      var qty := Qty(cart, Key(p.id));
      LinesOfStep(cart, productos, i);
      if qty > 0 {
        var line := LineFor(p, qty);
        subtotal := subtotal + line.subtotal;
        SumSubtotalsAppend(acc, [line]);
        acc := acc + [line];
      }
    }
    assert productos[..|productos|] == productos;
    FetchedLines(cart, catalog);

    items := SortByName(acc);
    SumSubtotalsPermutation(acc, items);
  }

  /** The lines of `s` whose product id is `id` (keep) or is not `id` (not keep), in order. */
  function Select(s: seq<Line>, id: nat, keep: bool): (r: seq<Line>)
    ensures |r| <= |s|
  {
    if s == [] then []
    else
      var l := s[|s| - 1];
      Select(s[..|s| - 1], id, keep) + (if (l.producto.id == id) == keep then [l] else [])
  }

  lemma {:induction false} SelectAppend(a: seq<Line>, b: seq<Line>, id: nat, keep: bool)
    ensures Select(a + b, id, keep) == Select(a, id, keep) + Select(b, id, keep)
  {
    if b != [] {
      assert (a + b)[..|a + b| - 1] == a + b[..|b| - 1];
      SelectAppend(a, b[..|b| - 1], id, keep);
    } else {
      assert a + b == a;
    }
  }

  /** A line is resolved exactly when it prices an active catalog product at its positive cart quantity. */
  lemma {:induction false} ResolvedLineIff(cart: CartMap, catalog: Catalog, l: Line)
    ensures l in ResolvedLines(cart, catalog) <==>
      && l.producto in catalog
      && l.producto.activo
      && l.qty == Qty(cart, Key(l.producto.id))
      && l.qty > 0
      && l.subtotal == l.producto.precio * l.qty
  {
    if catalog != [] {
      var init := catalog[..|catalog| - 1];
      ResolvedLineIff(cart, init, l);
      assert catalog == init + [catalog[|catalog| - 1]];
    }
  }

  /** No product appears on two resolved lines. */
  lemma {:induction false} ResolvedLinesDistinct(cart: CartMap, catalog: Catalog)
    requires CatalogValid(catalog)
    ensures forall i, j | 0 <= i < j < |ResolvedLines(cart, catalog)| ::
      ResolvedLines(cart, catalog)[i].producto.id != ResolvedLines(cart, catalog)[j].producto.id
  {
    if catalog != [] {
      var init := catalog[..|catalog| - 1];
      var p := catalog[|catalog| - 1];
      var r0 := ResolvedLines(cart, init);
      ResolvedLinesDistinct(cart, init);
      forall i | 0 <= i < |r0| ensures r0[i].producto.id != p.id {
        ResolvedLineIff(cart, init, r0[i]);
        var k :| 0 <= k < |init| && init[k] == r0[i].producto;
      }
    }
  }

  /** A cart whose keys all fail `int()` (in particular an empty cart) resolves to no lines. */
  lemma NonIntegerKeysResolveToNothing(cart: CartMap, catalog: Catalog)
    requires forall k | k in cart :: ParseInt(k).None?
    ensures ResolvedLines(cart, catalog) == []
    ensures SumSubtotals(ResolvedLines(cart, catalog)) == 0
  {
    if ResolvedLines(cart, catalog) != [] {
      var l := ResolvedLines(cart, catalog)[0];
      ResolvedLineIff(cart, catalog, l);
      KeyParses(l.producto.id);
      assert false;
    }
  }

  /** Carts that agree outside the key of `id` resolve to the same lines for every other product. */
  lemma {:induction false} ResolvedElsewhereUnchanged(c1: CartMap, c2: CartMap, catalog: Catalog, id: nat)
    requires c1 - {Key(id)} == c2 - {Key(id)}
    ensures Select(ResolvedLines(c1, catalog), id, false) == Select(ResolvedLines(c2, catalog), id, false)
  {
    if catalog != [] {
      var init := catalog[..|catalog| - 1];
      var p := catalog[|catalog| - 1];
      ResolvedElsewhereUnchanged(c1, c2, init, id);
      var t1 := if p.activo && Qty(c1, Key(p.id)) > 0 then [LineFor(p, Qty(c1, Key(p.id)))] else [];
      var t2 := if p.activo && Qty(c2, Key(p.id)) > 0 then [LineFor(p, Qty(c2, Key(p.id)))] else [];
      SelectAppend(ResolvedLines(c1, init), t1, id, false);
      SelectAppend(ResolvedLines(c2, init), t2, id, false);
      if p.id != id {
        if Key(p.id) == Key(id) { NatToStringInjective(p.id, id); }
        assert Key(p.id) in c1 <==> Key(p.id) in c1 - {Key(id)};
        assert Key(p.id) in c2 <==> Key(p.id) in c2 - {Key(id)};
        assert Qty(c1, Key(p.id)) == Qty(c2, Key(p.id));
      }
    }
  }

  /**
   * The lines the cart page shows for product `id`: one, at its cart
   * quantity, when the product is active and that quantity is positive.
   */
  function ProductLines(cart: CartMap, catalog: Catalog, id: nat): (r: seq<Line>)
    requires CatalogValid(catalog)
    ensures |r| <= 1
  {
    match ActiveProducto(catalog, id)
    case Some(p) => if Qty(cart, Key(id)) > 0 then [LineFor(p, Qty(cart, Key(id)))] else []
    case None => []
  }

  /** The resolved lines of product `id` are exactly `ProductLines`. */
  lemma {:induction false} ResolvedLinesOf(cart: CartMap, catalog: Catalog, id: nat)
    requires CatalogValid(catalog)
    ensures Select(ResolvedLines(cart, catalog), id, true) == ProductLines(cart, catalog, id)
  {
    if catalog != [] {
      var init := catalog[..|catalog| - 1];
      assert CatalogValid(init);
      ResolvedLinesOf(cart, init, id);
      ResolvedLinesOfStep(cart, catalog, id);
    }
  }

  lemma ResolvedLinesOfStep(cart: CartMap, catalog: Catalog, id: nat)
    requires CatalogValid(catalog) && catalog != [] && CatalogValid(catalog[..|catalog| - 1])
    requires Select(ResolvedLines(cart, catalog[..|catalog| - 1]), id, true) ==
      ProductLines(cart, catalog[..|catalog| - 1], id)
    ensures Select(ResolvedLines(cart, catalog), id, true) == ProductLines(cart, catalog, id)
  {
    var init := catalog[..|catalog| - 1];
    var p := catalog[|catalog| - 1];
    var t := if p.activo && Qty(cart, Key(p.id)) > 0 then [LineFor(p, Qty(cart, Key(p.id)))] else [];
    assert ResolvedLines(cart, catalog) == ResolvedLines(cart, init) + t;
    SelectAppend(ResolvedLines(cart, init), t, id, true);
    if p.id == id {
      assert FindProducto(init, id).None?;
      assert FindProducto(catalog, id) == Some(p);
      assert Select(t, id, true) == t;
    } else {
      assert FindProducto(catalog, id) == FindProducto(init, id);
      assert Select(t, id, true) == [];
    }
  }

  /** An active product in the catalog is what `get_object_or_404` finds for its id. */
  lemma ActiveProductoOf(catalog: Catalog, p: Producto)
    requires CatalogValid(catalog) && p in catalog && p.activo
    ensures ActiveProducto(catalog, p.id) == Some(p)
  {
    var k :| 0 <= k < |catalog| && catalog[k] == p;
    var r := FindProducto(catalog, p.id);
    assert r.Some?;
    var j :| 0 <= j < |catalog| && catalog[j] == r.value;
  }

  /** Adding an active product raises its line's quantity by one and leaves every other line as it was. */
  lemma AddThenResolve(cart: CartMap, catalog: Catalog, p: Producto)
    requires CatalogValid(catalog) && p in catalog && p.activo
    ensures Select(ResolvedLines(Added(cart, p.id), catalog), p.id, true) ==
      (if Qty(cart, Key(p.id)) + 1 > 0 then [LineFor(p, Qty(cart, Key(p.id)) + 1)] else [])
    ensures Select(ResolvedLines(Added(cart, p.id), catalog), p.id, false) ==
      Select(ResolvedLines(cart, catalog), p.id, false)
  {
    ActiveProductoOf(catalog, p);
    assert Qty(Added(cart, p.id), Key(p.id)) == (Qty(cart, Key(p.id)) + 1);
    ResolvedLinesOf(Added(cart, p.id), catalog, p.id);
    ResolvedElsewhereUnchanged(Added(cart, p.id), cart, catalog, p.id);
  }

  /**
   * Setting an active product's quantity to q yields exactly one line for it,
   * at quantity q and subtotal price * q, when q > 0, and none otherwise;
   * every other line is unchanged.
   */
  lemma UpdateThenResolve(cart: CartMap, catalog: Catalog, p: Producto, q: int)
    requires CatalogValid(catalog) && p in catalog && p.activo
    ensures Select(ResolvedLines(Updated(cart, p.id, q), catalog), p.id, true) ==
      (if q > 0 then [Line(p, q, p.precio * q)] else [])
    ensures Select(ResolvedLines(Updated(cart, p.id, q), catalog), p.id, false) ==
      Select(ResolvedLines(cart, catalog), p.id, false)
  {
    ActiveProductoOf(catalog, p);
    assert Qty(Updated(cart, p.id, q), Key(p.id)) == (if q > 0 then q else 0);
    ResolvedLinesOf(Updated(cart, p.id, q), catalog, p.id);
    ResolvedElsewhereUnchanged(Updated(cart, p.id, q), cart, catalog, p.id);
  }

  /** After removing a product, no line is left for it and every other line is unchanged. */
  lemma RemoveThenResolve(cart: CartMap, catalog: Catalog, id: nat)
    requires CatalogValid(catalog)
    ensures Select(ResolvedLines(Removed(cart, id), catalog), id, true) == []
    ensures Select(ResolvedLines(Removed(cart, id), catalog), id, false) ==
      Select(ResolvedLines(cart, catalog), id, false)
  {
    assert Qty(Removed(cart, id), Key(id)) == 0;
    ResolvedLinesOf(Removed(cart, id), catalog, id);
    ResolvedElsewhereUnchanged(Removed(cart, id), cart, catalog, id);
  }
}

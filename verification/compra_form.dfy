/** The "Nueva Compra" dialog (src/sections/compra/view/CompraFormData.tsx):
    a purchase cart keyed by `id_producto_calidad`, its add / edit / remove
    handlers, its total, and the checks and payload of its submit button.
    Money is in integer cents; every handler is one atomic transition. */
module CompraForm {
  import opened Wrappers
  import Lists

  /** A purchasable catalogue entry (`ProductoCalidad`): one product in one
      quality, with the names shown on the cart line. */
  datatype Variant = Variant(id: string, nombre: string, marca: string, calidad: string)

  /** A cart line (`CarritoItem`): unit purchase price, quantity and the
      stored subtotal. */
  datatype Line = Line(id: string, nombre: string, marca: string, calidad: string,
                       precio: int, cantidad: int, subtotal: int)

  type Cart = seq<Line>

  function Id(l: Line): string { l.id }
  function Subtotal(l: Line): int { l.subtotal }

  /** What a line is worth at its current quantity and price. */
  function Amount(l: Line): int { l.cantidad * l.precio }

  /** The messages of the dialog's error banner. */
  datatype Error =
    | SelectProduct    // 'Selecciona un producto'
    | InvalidPrice     // 'Ingresa un precio de compra válido'
    | InvalidQuantity  // 'Ingresa una cantidad válida'
    | EmptyCart        // 'Agrega al menos un producto al carrito'
    | SelectSupplier   // 'Selecciona un proveedor'

  /** The dialog's state: the cart plus the inputs of the "Agregar Producto"
      row, the chosen supplier, the search text and the banner. */
  datatype Form = Form(cart: Cart, selected: Option<Variant>, proveedor: Option<string>,
                       cantidad: int, precio: int, busqueda: string, error: Option<Error>)

  /** A line every handler leaves behind: at least one unit, a non-negative
      price, and a subtotal that is exactly quantity times price. */
  predicate ValidLine(l: Line) {
    l.cantidad >= 1 && l.precio >= 0 && l.subtotal == l.cantidad * l.precio
  }

  /** One line per `id_producto_calidad`, every line valid. */
  predicate Valid(cart: Cart) {
    Lists.UniqueKeys(cart, Id) && forall i :: 0 <= i < |cart| ==> ValidLine(cart[i])
  }

  /** `calcularTotal`: the sum of the stored subtotals. Since no handler lets
      a subtotal drift from its line, in a valid cart this is the sum of
      quantity times price. */
  function Total(cart: Cart): (t: int)
    ensures cart == [] ==> t == 0
    ensures Valid(cart) ==> t == Lists.Sum(cart, Amount)
  {
    SubtotalsAgree(cart);
    Lists.Sum(cart, Subtotal)
  }

  lemma SubtotalsAgree(cart: Cart)
    ensures Valid(cart) ==> Lists.Sum(cart, Subtotal) == Lists.Sum(cart, Amount)
  {
    if Valid(cart) {
      Lists.SumPointwise(cart, Subtotal, Amount);
    }
  }

  /** The summand counting the units of `id` in a line. */
  function UnitsOf(id: string): Line -> int {
    (l: Line) => if l.id == id then l.cantidad else 0
  }

  /** How many units of `id` the cart holds, whatever its layout. */
  function QuantityOf(cart: Cart, id: string): int {
    Lists.Sum(cart, UnitsOf(id))
  }

  // ---------------------------------------------------------------------
  // Opening the dialog

  /** The effect run when the dialog opens: empty cart, no product or
      supplier chosen, quantity 1, price 0, no banner. */
  function Open(f: Form): (r: Form)
    ensures r.cart == [] && Valid(r.cart) && Total(r.cart) == 0
    ensures r.selected.None? && r.proveedor.None? && r.error.None?
    ensures r.cantidad == 1 && r.precio == 0 && r.busqueda == f.busqueda
  {
    f.(cart := [], selected := None, proveedor := None, cantidad := 1, precio := 0, error := None)
  }

  // ---------------------------------------------------------------------
  // agregarAlCarrito

  function NewLine(v: Variant, cantidad: int, precio: int): Line {
    Line(v.id, v.nombre, v.marca, v.calidad, precio, cantidad, cantidad * precio)
  }

  /** The rewrite of an existing line on re-add: quantities add up and the
      line is re-priced to the price just entered. */
  function Repriced(cantidad: int, precio: int): Line -> Line {
    (l: Line) => l.(cantidad := l.cantidad + cantidad, precio := precio,
                    subtotal := (l.cantidad + cantidad) * precio)
  }

  /** The cart part of an accepted add: merge into the line with the same id,
      or append a new line at the end. */
  function Merge(cart: Cart, v: Variant, cantidad: int, precio: int): (r: Cart)
    ensures |r| >= |cart|
    ensures forall i :: 0 <= i < |cart| && cart[i].id != v.id ==> r[i] == cart[i]
    ensures Lists.HasKey(cart, Id, v.id) ==>
      && |r| == |cart|
      && forall i :: 0 <= i < |cart| && cart[i].id == v.id ==>
           && r[i].cantidad == cart[i].cantidad + cantidad
           && r[i].precio == precio
           && r[i].subtotal == (cart[i].cantidad + cantidad) * precio
           && r[i].nombre == cart[i].nombre && r[i].marca == cart[i].marca
           && r[i].calidad == cart[i].calidad && r[i].id == v.id
    ensures !Lists.HasKey(cart, Id, v.id) ==>
      && |r| == |cart| + 1 && r[..|cart|] == cart
      && r[|cart|] == Line(v.id, v.nombre, v.marca, v.calidad, precio, cantidad, cantidad * precio)
  {
    if Lists.Find(cart, Id, v.id).Some? then Lists.MapWhere(cart, Id, v.id, Repriced(cantidad, precio))
    else cart + [NewLine(v, cantidad, precio)]
  }

  /** The add button's guard: a product chosen, a positive price and a
      positive quantity. What it lets through is a valid cart line. */
  function AddAccepted(f: Form): (ok: bool)
    ensures ok ==> f.selected.Some? && ValidLine(NewLine(f.selected.value, f.cantidad, f.precio))
    ensures !ok ==> f.selected.None? || f.precio <= 0 || f.cantidad < 1
  {
    f.selected.Some? && f.precio > 0 && f.cantidad > 0
  }

  /** `agregarAlCarrito`. A rejected add only sets the banner; an accepted
      one merges into the cart and resets the input row. */
  function AddToCart(f: Form): (r: Form)
    ensures f.selected.None? ==> r == f.(error := Some(SelectProduct))
    ensures f.selected.Some? && f.precio <= 0 ==> r == f.(error := Some(InvalidPrice))
    ensures f.selected.Some? && f.precio > 0 && f.cantidad <= 0 ==> r == f.(error := Some(InvalidQuantity))
    ensures !AddAccepted(f) ==> r.cart == f.cart && r.error.Some?
    ensures AddAccepted(f) ==>
      && r.cart == Merge(f.cart, f.selected.value, f.cantidad, f.precio)
      && r.selected.None? && r.cantidad == 1 && r.precio == 0 && r.busqueda == ""
      && r.error.None? && r.proveedor == f.proveedor
  {
    if f.selected.None? then f.(error := Some(SelectProduct))
    else if f.precio <= 0 then f.(error := Some(InvalidPrice))
    else if f.cantidad <= 0 then f.(error := Some(InvalidQuantity))
    else
      f.(cart := Merge(f.cart, f.selected.value, f.cantidad, f.precio),
         selected := None, cantidad := 1, precio := 0, busqueda := "", error := None)
  }

  /** Merging a valid line keeps the cart valid: still one line per id. */
  lemma MergeValid(cart: Cart, v: Variant, cantidad: int, precio: int)
    requires Valid(cart)
    requires cantidad >= 1 && precio >= 0
    ensures Valid(Merge(cart, v, cantidad, precio))
  {
    var r := Merge(cart, v, cantidad, precio);
    if Lists.Find(cart, Id, v.id).Some? {
      Lists.MapWhereUnique(cart, Id, v.id, Repriced(cantidad, precio));
    } else {
      forall i | 0 <= i < |cart|
        ensures r[i].id != v.id
      {
        assert r[i] == cart[i];
      }
    }
  }

  /** Every add the guard accepts, from a valid cart, leaves a valid cart. */
  lemma AddToCartValid(f: Form)
    requires Valid(f.cart)
    ensures Valid(AddToCart(f).cart)
  {
    if AddAccepted(f) {
      MergeValid(f.cart, f.selected.value, f.cantidad, f.precio);
    }
  }

  /** Merge by key, seen through per-id quantities: the added units land on
      `v.id`, every other id keeps its quantity. */
  lemma MergeQuantity(cart: Cart, v: Variant, cantidad: int, precio: int, id: string)
    requires Lists.UniqueKeys(cart, Id)
    ensures QuantityOf(Merge(cart, v, cantidad, precio), id)
         == QuantityOf(cart, id) + (if id == v.id then cantidad else 0)
  {
    var g := Repriced(cantidad, precio);
    match Lists.Find(cart, Id, v.id)
    case Some(i) =>
      Lists.MapWhereAt(cart, Id, v.id, g);
      Lists.SumUpdate(cart, i, g(cart[i]), UnitsOf(id));
    case None =>
      Lists.SumAppend(cart, [NewLine(v, cantidad, precio)], UnitsOf(id));
      assert Lists.Sum([NewLine(v, cantidad, precio)], UnitsOf(id))
          == UnitsOf(id)(NewLine(v, cantidad, precio)) + Lists.Sum([], UnitsOf(id));
  }

  /** The total after an accepted add: the merged line's new amount replaces
      its old one, or the new line's amount is added. */
  lemma MergeTotal(cart: Cart, v: Variant, cantidad: int, precio: int)
    ensures Lists.Find(cart, Id, v.id).None? ==>
      Total(Merge(cart, v, cantidad, precio)) == Total(cart) + cantidad * precio
    ensures Lists.UniqueKeys(cart, Id) && Lists.Find(cart, Id, v.id).Some? ==>
      var i := Lists.Find(cart, Id, v.id).value;
      Total(Merge(cart, v, cantidad, precio))
        == Total(cart) - cart[i].subtotal + (cart[i].cantidad + cantidad) * precio
  {
    var r := Merge(cart, v, cantidad, precio);
    assert Total(r) == Lists.Sum(r, Subtotal) && Total(cart) == Lists.Sum(cart, Subtotal);
    match Lists.Find(cart, Id, v.id)
    case Some(i) =>
      if Lists.UniqueKeys(cart, Id) {
        var g := Repriced(cantidad, precio);
        Lists.MapWhereAt(cart, Id, v.id, g);
        Lists.SumUpdate(cart, i, g(cart[i]), Subtotal);
      }
    case None =>
      var l := NewLine(v, cantidad, precio);
      Lists.SumAppend(cart, [l], Subtotal);
      assert Lists.Sum([l], Subtotal) == Subtotal(l) + Lists.Sum([], Subtotal);
  }

  /** One accepted entry of the add row: a quantity and a unit price. */
  datatype Entry = Entry(cantidad: int, precio: int)

  function EntryUnits(e: Entry): int { e.cantidad }

  /** Adding the same variant once per entry, in order. */
  function MergeAll(cart: Cart, v: Variant, entries: seq<Entry>): Cart
    decreases |entries|
  {
    if |entries| == 0 then cart
    else
      var last := entries[|entries| - 1];
      Merge(MergeAll(cart, v, entries[..|entries| - 1]), v, last.cantidad, last.precio)
  }

  /** Repeated adds of one variant into an empty cart give one line whose
      quantity is the sum of the entered quantities and whose price is the
      most recently entered price ("last entry wins"). */
  lemma {:induction false} MergeAllOneLine(v: Variant, entries: seq<Entry>)
    requires |entries| > 0
    ensures var r := MergeAll([], v, entries);
      && |r| == 1 && r[0].id == v.id
      && r[0].cantidad == Lists.Sum(entries, EntryUnits)
      && r[0].precio == entries[|entries| - 1].precio
      && r[0].subtotal == r[0].cantidad * r[0].precio
    decreases |entries|
  {
    var n := |entries|;
    var last := entries[n - 1];
    var init := entries[..n - 1];
    assert entries == init + [last];
    Lists.SumAppend(init, [last], EntryUnits);
    assert Lists.Sum([last], EntryUnits) == last.cantidad + Lists.Sum([], EntryUnits);
    if n == 1 {
      assert MergeAll([], v, init) == [];
    } else {
      MergeAllOneLine(v, init);
      var prev := MergeAll([], v, init);
      assert Lists.HasKey(prev, Id, v.id) by { assert Id(prev[0]) == v.id; }
    }
  }

  // ---------------------------------------------------------------------
  // Editing and removing lines

  /** `eliminarDelCarrito`: filter out the lines with that id. */
  function RemoveLine(cart: Cart, id: string): (r: Cart)
    ensures !Lists.HasKey(r, Id, id)
    ensures !Lists.HasKey(cart, Id, id) ==> r == cart
    ensures forall i :: 0 <= i < |cart| && cart[i].id != id ==> cart[i] in r
    ensures forall i :: 0 <= i < |r| ==> r[i] in cart
  {
    Lists.RemoveKey(cart, Id, id)
  }

  /** In a valid cart, removing a present id deletes exactly its line, keeps
      the others in order, keeps the cart valid and lowers the total by that
      line's subtotal. */
  lemma RemoveLineValid(cart: Cart, id: string)
    requires Valid(cart)
    ensures Valid(RemoveLine(cart, id))
    ensures Lists.Find(cart, Id, id).Some? ==>
      var i := Lists.Find(cart, Id, id).value;
      && RemoveLine(cart, id) == cart[..i] + cart[i + 1..]
      && Total(RemoveLine(cart, id)) == Total(cart) - cart[i].subtotal
  {
    Lists.RemoveKeyUnique(cart, Id, id);
    var r := RemoveLine(cart, id);
    forall i | 0 <= i < |r|
      ensures ValidLine(r[i])
    {
      assert r[i] in cart;
    }
    if Lists.Find(cart, Id, id).Some? {
      Lists.RemoveKeyAt(cart, Id, id);
      Lists.SumRemoveAt(cart, Lists.Find(cart, Id, id).value, Subtotal);
    }
  }

  /** The rewrite `actualizarCantidad` applies to the matching line. */
  function WithQuantity(n: int): Line -> Line {
    (l: Line) => l.(cantidad := n, subtotal := n * l.precio)
  }

  /** `actualizarCantidad`: a quantity below 1 is ignored; otherwise the
      matching line takes the quantity and its subtotal is recomputed at its
      own price. */
  function SetQuantity(cart: Cart, id: string, n: int): (r: Cart)
    ensures n < 1 ==> r == cart
    ensures |r| == |cart|
    ensures forall i :: 0 <= i < |cart| && cart[i].id != id ==> r[i] == cart[i]
    ensures n >= 1 ==> forall i :: 0 <= i < |cart| && cart[i].id == id ==>
      r[i] == cart[i].(cantidad := n, subtotal := n * cart[i].precio)
  {
    if n < 1 then cart else Lists.MapWhere(cart, Id, id, WithQuantity(n))
  }

  /** Quantity edits keep the cart valid, and the total moves by exactly the
      edited line's change. */
  lemma SetQuantityValid(cart: Cart, id: string, n: int)
    requires Valid(cart)
    ensures Valid(SetQuantity(cart, id, n))
    ensures n >= 1 && Lists.Find(cart, Id, id).Some? ==>
      var i := Lists.Find(cart, Id, id).value;
      Total(SetQuantity(cart, id, n)) == Total(cart) - cart[i].subtotal + n * cart[i].precio
  {
    if n >= 1 {
      Lists.MapWhereUnique(cart, Id, id, WithQuantity(n));
      Lists.MapWhereAt(cart, Id, id, WithQuantity(n));
      if Lists.Find(cart, Id, id).Some? {
        var i := Lists.Find(cart, Id, id).value;
        Lists.SumUpdate(cart, i, WithQuantity(n)(cart[i]), Subtotal);
      }
    }
  }

  /** The rewrite `actualizarPrecio` applies to the matching line. */
  function WithPrice(p: int): Line -> Line {
    (l: Line) => l.(precio := p, subtotal := l.cantidad * p)
  }

  /** `actualizarPrecio`: a negative price is ignored; otherwise the matching
      line takes the price and its subtotal is recomputed at its own
      quantity. */
  function SetPrice(cart: Cart, id: string, p: int): (r: Cart)
    ensures p < 0 ==> r == cart
    ensures |r| == |cart|
    ensures forall i :: 0 <= i < |cart| && cart[i].id != id ==> r[i] == cart[i]
    ensures p >= 0 ==> forall i :: 0 <= i < |cart| && cart[i].id == id ==>
      r[i] == cart[i].(precio := p, subtotal := cart[i].cantidad * p)
  {
    if p < 0 then cart else Lists.MapWhere(cart, Id, id, WithPrice(p))
  }

  /** Price edits keep the cart valid, and the total moves by exactly the
      edited line's change. */
  lemma SetPriceValid(cart: Cart, id: string, p: int)
    requires Valid(cart)
    ensures Valid(SetPrice(cart, id, p))
    ensures p >= 0 && Lists.Find(cart, Id, id).Some? ==>
      var i := Lists.Find(cart, Id, id).value;
      Total(SetPrice(cart, id, p)) == Total(cart) - cart[i].subtotal + cart[i].cantidad * p
  {
    if p >= 0 {
      Lists.MapWhereUnique(cart, Id, id, WithPrice(p));
      Lists.MapWhereAt(cart, Id, id, WithPrice(p));
      if Lists.Find(cart, Id, id).Some? {
        var i := Lists.Find(cart, Id, id).value;
        Lists.SumUpdate(cart, i, WithPrice(p)(cart[i]), Subtotal);
      }
    }
  }

  /** The "Vaciar" button: the cart empties, nothing else changes. */
  function Clear(f: Form): (r: Form)
    ensures r.cart == [] && Valid(r.cart) && Total(r.cart) == 0
    ensures r.(cart := f.cart) == f
  {
    f.(cart := [])
  }

  // ---------------------------------------------------------------------
  // handleSubmit

  /** One element of `detalles`. */
  datatype Detail = Detail(idProductoCalidad: string, cantidad: int, precioCompra: int)

  /** The body posted to `/compras`; `idUsuario` is what local storage holds
      under 'id_usuario', if anything. */
  datatype Payload = Payload(estado: string, idProveedor: string, idUsuario: Option<string>,
                             detalles: seq<Detail>)

  /** The status every new purchase is created with. */
  const Completado := "Completado"

  function DetailOf(l: Line): Detail {
    Detail(l.id, l.cantidad, l.precio)
  }

  function DetailAmount(d: Detail): int { d.cantidad * d.precioCompra }

  function Details(cart: Cart): (r: seq<Detail>)
    ensures |r| == |cart|
    ensures forall i :: 0 <= i < |cart| ==> r[i] == DetailOf(cart[i])
  {
    seq(|cart|, i requires 0 <= i < |cart| => DetailOf(cart[i]))
  }

  /** The validation part of `handleSubmit` and the payload it would post:
      an empty cart is refused first, then a missing supplier; otherwise one
      detail per line, in cart order. */
  function Submit(f: Form, idUsuario: Option<string>): (r: Result<Payload, Error>)
    ensures r.Success? <==> |f.cart| > 0 && f.proveedor.Some?
    ensures |f.cart| == 0 ==> r == Failure(EmptyCart)
    ensures |f.cart| > 0 && f.proveedor.None? ==> r == Failure(SelectSupplier)
    ensures r.Success? ==>
      && r.value.estado == Completado
      && r.value.idProveedor == f.proveedor.value
      && r.value.idUsuario == idUsuario
      && |r.value.detalles| == |f.cart|
      && forall i :: 0 <= i < |f.cart| ==>
           r.value.detalles[i] == Detail(f.cart[i].id, f.cart[i].cantidad, f.cart[i].precio)
  {
    if |f.cart| == 0 then Failure(EmptyCart)
    else if f.proveedor.None? then Failure(SelectSupplier)
    else Success(Payload(Completado, f.proveedor.value, idUsuario, Details(f.cart)))
  }

  lemma {:induction false} DetailsAmount(cart: Cart)
    ensures Lists.Sum(Details(cart), DetailAmount) == Lists.Sum(cart, Amount)
  {
    if |cart| > 0 {
      assert Details(cart)[1..] == Details(cart[1..]);
      DetailsAmount(cart[1..]);
    }
  }

  /** What the posted details are worth is the total the dialog displays. */
  lemma SubmitMatchesTotal(f: Form, idUsuario: Option<string>)
    requires Valid(f.cart)
    requires Submit(f, idUsuario).Success?
    ensures Lists.Sum(Submit(f, idUsuario).value.detalles, DetailAmount) == Total(f.cart)
  {
    DetailsAmount(f.cart);
  }
}

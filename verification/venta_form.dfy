/** The "Nueva Venta" dialog (src/sections/venta/view/VentaFormData.tsx):
    the catalogue flattened to one entry per product and quality and cut down
    to what is in stock, a sale cart whose lines never exceed the stock they
    were taken from, its total, and the payload of its submit button.
    Money is in integer cents; every handler is one atomic transition. */
module VentaForm {
  import opened Wrappers
  import Lists

  // ---------------------------------------------------------------------
  // The catalogue, as `/productos` returns it and as the dialog lists it

  datatype Marca = Marca(id: string, nombre: string)

  datatype Calidad = Calidad(id: string, nombre: string)

  /** One element of a product's `calidades` array. */
  datatype Offer = Offer(idProductoCalidad: string, precioVenta: int, stock: int, calidad: Calidad)

  datatype Producto = Producto(id: string, nombre: string, marca: Marca, calidades: seq<Offer>)

  /** A flattened catalogue entry (`ProductoCalidad`): a product in one
      quality, with that quality's sale price and stock. */
  datatype Variant = Variant(id: string, precioVenta: int, stock: int,
                             idProducto: string, nombre: string, marca: Marca, calidad: Calidad)

  /** The entry pushed for product `p` and its quality `o`. */
  function Entry(p: Producto, o: Offer): Variant {
    Variant(o.idProductoCalidad, o.precioVenta, o.stock, p.id, p.nombre, p.marca, o.calidad)
  }

  function Entries(p: Producto): (r: seq<Variant>)
    ensures |r| == |p.calidades|
    ensures forall k :: 0 <= k < |p.calidades| ==> r[k] == Entry(p, p.calidades[k])
  {
    seq(|p.calidades|, k requires 0 <= k < |p.calidades| => Entry(p, p.calidades[k]))
  }

  /** The nested `forEach` of `obtenerProductos`: every quality of every
      product, products in order and qualities in order within each. */
  function Flatten(ps: seq<Producto>): (r: seq<Variant>)
    ensures |r| == PairCount(ps)
  {
    if |ps| == 0 then [] else Entries(ps[0]) + Flatten(ps[1..])
  }

  /** How many (product, quality) pairs the response holds. */
  function PairCount(ps: seq<Producto>): nat {
    if |ps| == 0 then 0 else |ps[0].calidades| + PairCount(ps[1..])
  }

  /** Flattening yields exactly one entry per (product, quality) pair, and
      the pair (i, k) sits after all the pairs of the products before i. */
  lemma {:induction false} FlattenIndex(ps: seq<Producto>, i: nat, k: nat)
    requires i < |ps| && k < |ps[i].calidades|
    ensures |Flatten(ps)| == PairCount(ps)
    ensures PairCount(ps[..i]) + k < |Flatten(ps)|
    ensures Flatten(ps)[PairCount(ps[..i]) + k] == Entry(ps[i], ps[i].calidades[k])
  {
    if i > 0 {
      assert ps[..i][1..] == ps[1..][..i - 1];
      assert PairCount(ps[..i]) == |ps[0].calidades| + PairCount(ps[1..][..i - 1]);
      FlattenIndex(ps[1..], i - 1, k);
    } else {
      assert PairCount(ps[..0]) == 0;
    }
  }

  /** Conversely, every flattened entry comes from some (product, quality)
      pair of the response. */
  lemma {:induction false} FlattenCovers(ps: seq<Producto>, n: nat)
    requires n < |Flatten(ps)|
    ensures exists i, k :: 0 <= i < |ps| && 0 <= k < |ps[i].calidades|
                        && Flatten(ps)[n] == Entry(ps[i], ps[i].calidades[k])
  {
    var head := Entries(ps[0]);
    if n < |head| {
      assert Flatten(ps)[n] == Entry(ps[0], ps[0].calidades[n]);
    } else {
      FlattenCovers(ps[1..], n - |head|);
      var i, k :| 0 <= i < |ps[1..]| && 0 <= k < |ps[1..][i].calidades|
               && Flatten(ps[1..])[n - |head|] == Entry(ps[1..][i], ps[1..][i].calidades[k]);
      assert Flatten(ps)[n] == Entry(ps[i + 1], ps[i + 1].calidades[k]);
    }
  }

  lemma {:induction false} FlattenAppend(ps: seq<Producto>, qs: seq<Producto>)
    ensures Flatten(ps + qs) == Flatten(ps) + Flatten(qs)
  {
    if |ps| == 0 {
      assert ps + qs == qs;
    } else {
      assert (ps + qs)[1..] == ps[1..] + qs;
      FlattenAppend(ps[1..], qs);
    }
  }

  function InStock(v: Variant): bool { v.stock > 0 }

  /** The list the product picker offers: the flattened catalogue without the
      entries whose stock is not positive. */
  function Catalogue(ps: seq<Producto>): (r: seq<Variant>)
    ensures forall n :: 0 <= n < |r| ==> r[n].stock > 0 && r[n] in Flatten(ps)
    ensures forall n :: 0 <= n < |Flatten(ps)| && Flatten(ps)[n].stock > 0 ==> Flatten(ps)[n] in r
  {
    Lists.Filter(Flatten(ps), InStock)
  }

  /** The catalogue of a concatenated response is the concatenation of the
      catalogues: products keep their order, and so do their qualities. */
  lemma CatalogueAppend(ps: seq<Producto>, qs: seq<Producto>)
    ensures Catalogue(ps + qs) == Catalogue(ps) + Catalogue(qs)
  {
    FlattenAppend(ps, qs);
    Lists.FilterAppend(Flatten(ps), Flatten(qs), InStock);
  }

  // ---------------------------------------------------------------------
  // The cart

  /** A cart line (`CarritoItem`): the sale price and stock are those of the
      catalogue entry the line was created from. */
  datatype Line = Line(id: string, nombre: string, marca: string, calidad: string,
                       precio: int, cantidad: int, stock: int, subtotal: int)

  type Cart = seq<Line>

  function Id(l: Line): string { l.id }
  function Subtotal(l: Line): int { l.subtotal }
  function Amount(l: Line): int { l.cantidad * l.precio }

  /** The messages of the dialog's error banner. */
  datatype Error =
    | StockInsuficiente(disponible: int)  // 'Stock insuficiente. Disponible: <n>'
    | EmptyCart                           // 'Agrega al menos un producto al carrito'
    | LoadProducts                        // 'Error al cargar productos'

  datatype Form = Form(productos: seq<Variant>, cart: Cart, selected: Option<Variant>,
                       tecnico: Option<string>, cantidad: int, busqueda: string,
                       error: Option<Error>)

  /** The stock guard: between one unit and the recorded stock, and a
      subtotal that is exactly quantity times price. */
  predicate ValidLine(l: Line) {
    1 <= l.cantidad <= l.stock && l.subtotal == l.cantidad * l.precio
  }

  predicate Valid(cart: Cart) {
    Lists.UniqueKeys(cart, Id) && forall i :: 0 <= i < |cart| ==> ValidLine(cart[i])
  }

  /** The lines for `v`'s id recorded the stock `v` now shows: they were
      taken from the same catalogue entry. */
  predicate StockAgrees(cart: Cart, v: Variant) {
    forall i :: 0 <= i < |cart| && cart[i].id == v.id ==> cart[i].stock == v.stock
  }

  /** `calcularTotal`: the sum of the stored subtotals, which in a valid
      cart is the sum of quantity times price. */
  function Total(cart: Cart): (t: int)
    ensures cart == [] ==> t == 0
    ensures Valid(cart) ==> t == Lists.Sum(cart, Amount)
  {
    SubtotalsAgree(cart);
    Lists.Sum(cart, Subtotal)
  }

  lemma SubtotalsAgree(cart: Cart)
    ensures Valid(cart) ==> Lists.Sum(cart, Subtotal) == Lists.Sum(cart, Amount)
  {
    if Valid(cart) {
      Lists.SumPointwise(cart, Subtotal, Amount);
    }
  }

  function UnitsOf(id: string): Line -> int {
    (l: Line) => if l.id == id then l.cantidad else 0
  }

  /** How many units of `id` the cart holds. */
  function QuantityOf(cart: Cart, id: string): int {
    Lists.Sum(cart, UnitsOf(id))
  }

  // ---------------------------------------------------------------------
  // Opening the dialog and loading the catalogue

  /** The effect run when the dialog opens. */
  function Open(f: Form): (r: Form)
    ensures r.cart == [] && Valid(r.cart) && Total(r.cart) == 0
    ensures r.selected.None? && r.tecnico.None? && r.cantidad == 1 && r.error.None?
    ensures r.productos == f.productos && r.busqueda == f.busqueda
  {
    f.(cart := [], selected := None, tecnico := None, cantidad := 1, error := None)
  }

  /** The completion of the `/productos` request: the in-stock catalogue, or
      the load error. */
  function ProductsLoaded(f: Form, response: Option<seq<Producto>>): (r: Form)
    ensures response.Some? ==> r == f.(productos := Catalogue(response.value))
    ensures response.Some? ==> forall n :: 0 <= n < |r.productos| ==> r.productos[n].stock > 0
    ensures response.None? ==> r == f.(error := Some(LoadProducts))
  {
    match response
    case Some(ps) => f.(productos := Catalogue(ps))
    case None => f.(error := Some(LoadProducts))
  }

  // ---------------------------------------------------------------------
  // agregarAlCarrito

  function NewLine(v: Variant, cantidad: int): Line {
    Line(v.id, v.nombre, v.marca.nombre, v.calidad.nombre, v.precioVenta, cantidad, v.stock,
         cantidad * v.precioVenta)
  }

  /** The rewrite applied to the lines of the re-added id: the new quantity,
      and a subtotal at the line's own price (no re-pricing). */
  function Restocked(nueva: int): Line -> Line {
    (l: Line) => l.(cantidad := nueva, subtotal := nueva * l.precio)
  }

  /** The stock check of `agregarAlCarrito`: the merged quantity, or the new
      line's quantity, against the selected entry's stock. With one line per
      id, that is: the units already in the cart plus the entered ones fit. */
  function Fits(cart: Cart, v: Variant, cantidad: int): (ok: bool)
    ensures Lists.UniqueKeys(cart, Id) ==> (ok <==> QuantityOf(cart, v.id) + cantidad <= v.stock)
  {
    FitsByQuantity(cart, v.id);
    match Lists.Find(cart, Id, v.id)
    case Some(i) => cart[i].cantidad + cantidad <= v.stock
    case None => cantidad <= v.stock
  }

  lemma FitsByQuantity(cart: Cart, id: string)
    ensures Lists.UniqueKeys(cart, Id) ==>
      QuantityOf(cart, id) == match Lists.Find(cart, Id, id)
                              case Some(i) => cart[i].cantidad
                              case None => 0
  {
    if Lists.UniqueKeys(cart, Id) {
      Lists.SumAtKey(cart, Id, id, UnitsOf(id));
    }
  }

  /** The cart part of an accepted add. The new quantity is computed from
      the first line with the id, as `find` does. */
  function Merge(cart: Cart, v: Variant, cantidad: int): (r: Cart)
    ensures |r| >= |cart|
    ensures forall i :: 0 <= i < |cart| && cart[i].id != v.id ==> r[i] == cart[i]
    ensures Lists.Find(cart, Id, v.id).Some? ==>
      var j := Lists.Find(cart, Id, v.id).value;
      && |r| == |cart|
      && forall i :: 0 <= i < |cart| && cart[i].id == v.id ==>
           && r[i].cantidad == cart[j].cantidad + cantidad
           && r[i].precio == cart[i].precio && r[i].stock == cart[i].stock
           && r[i].subtotal == r[i].cantidad * cart[i].precio
           && r[i].id == cart[i].id && r[i].nombre == cart[i].nombre
           && r[i].marca == cart[i].marca && r[i].calidad == cart[i].calidad
    ensures Lists.Find(cart, Id, v.id).None? ==>
      && |r| == |cart| + 1 && r[..|cart|] == cart
      && r[|cart|] == Line(v.id, v.nombre, v.marca.nombre, v.calidad.nombre, v.precioVenta,
                           cantidad, v.stock, cantidad * v.precioVenta)
  {
    match Lists.Find(cart, Id, v.id)
    case Some(j) => Lists.MapWhere(cart, Id, v.id, Restocked(cart[j].cantidad + cantidad))
    case None => cart + [NewLine(v, cantidad)]
  }

  /** `agregarAlCarrito`. With no product chosen nothing happens; an add that
      would exceed the stock only sets the banner; otherwise the cart takes
      the merge and the input row resets. */
  function AddToCart(f: Form): (r: Form)
    ensures f.selected.None? ==> r == f
    ensures f.selected.Some? && !Fits(f.cart, f.selected.value, f.cantidad) ==>
      r == f.(error := Some(StockInsuficiente(f.selected.value.stock)))
    ensures f.selected.Some? && Fits(f.cart, f.selected.value, f.cantidad) ==>
      && r.cart == Merge(f.cart, f.selected.value, f.cantidad)
      && r.selected.None? && r.cantidad == 1 && r.busqueda == "" && r.error.None?
      && r.tecnico == f.tecnico && r.productos == f.productos
  {
    match f.selected
    case None => f
    case Some(v) =>
      if !Fits(f.cart, v, f.cantidad) then f.(error := Some(StockInsuficiente(v.stock)))
      else f.(cart := Merge(f.cart, v, f.cantidad), selected := None, cantidad := 1,
              busqueda := "", error := None)
  }

  /** The stock guard holds after every add: from a valid cart, with the
      quantity input at least 1 (it is clamped so) and the selected entry
      showing the stock its lines recorded, the cart stays valid. */
  lemma AddToCartValid(f: Form)
    requires Valid(f.cart)
    requires f.cantidad >= 1
    requires f.selected.Some? ==> StockAgrees(f.cart, f.selected.value)
    ensures Valid(AddToCart(f).cart)
  {
    if f.selected.Some? && Fits(f.cart, f.selected.value, f.cantidad) {
      var v := f.selected.value;
      var r := Merge(f.cart, v, f.cantidad);
      match Lists.Find(f.cart, Id, v.id)
      case Some(j) =>
        Lists.MapWhereUnique(f.cart, Id, v.id, Restocked(f.cart[j].cantidad + f.cantidad));
        Lists.FindUnique(f.cart, Id, v.id);
      case None =>
        forall i | 0 <= i < |f.cart|
          ensures r[i].id != v.id
        {
          assert r[i] == f.cart[i];
        }
    }
  }

  /** An accepted add puts exactly the entered units on the selected id and
      leaves every other id's quantity alone. */
  lemma MergeQuantity(cart: Cart, v: Variant, cantidad: int, id: string)
    requires Lists.UniqueKeys(cart, Id)
    ensures QuantityOf(Merge(cart, v, cantidad), id)
         == QuantityOf(cart, id) + (if id == v.id then cantidad else 0)
  {
    match Lists.Find(cart, Id, v.id)
    case Some(j) =>
      var g := Restocked(cart[j].cantidad + cantidad);
      Lists.MapWhereAt(cart, Id, v.id, g);
      Lists.SumUpdate(cart, j, g(cart[j]), UnitsOf(id));
    case None =>
      Lists.SumAppend(cart, [NewLine(v, cantidad)], UnitsOf(id));
      assert Lists.Sum([NewLine(v, cantidad)], UnitsOf(id))
          == UnitsOf(id)(NewLine(v, cantidad)) + Lists.Sum([], UnitsOf(id));
  }

  // ---------------------------------------------------------------------
  // Editing and removing lines

  /** `actualizarCantidad`. Below 1, or for an id not in the cart, nothing
      happens; above the line's recorded stock only the banner is set;
      otherwise the matching line takes the quantity and the banner clears. */
  function SetQuantity(f: Form, id: string, n: int): (r: Form)
    ensures n < 1 || Lists.Find(f.cart, Id, id).None? ==> r == f
    ensures n >= 1 && Lists.Find(f.cart, Id, id).Some? ==>
      var item := f.cart[Lists.Find(f.cart, Id, id).value];
      && (n > item.stock ==> r == f.(error := Some(StockInsuficiente(item.stock))))
      && (n <= item.stock ==>
            && r == f.(cart := r.cart, error := None)
            && |r.cart| == |f.cart|
            && (forall i :: 0 <= i < |f.cart| && f.cart[i].id != id ==> r.cart[i] == f.cart[i])
            && (forall i :: 0 <= i < |f.cart| && f.cart[i].id == id ==>
                  r.cart[i] == f.cart[i].(cantidad := n, subtotal := n * f.cart[i].precio)))
  {
    if n < 1 then f
    else
      match Lists.Find(f.cart, Id, id)
      case None => f
      case Some(j) =>
        if n > f.cart[j].stock then f.(error := Some(StockInsuficiente(f.cart[j].stock)))
        else f.(cart := Lists.MapWhere(f.cart, Id, id, Restocked(n)), error := None)
  }

  /** Quantity edits keep the stock guard, and the total moves by exactly the
      edited line's change. */
  lemma SetQuantityValid(f: Form, id: string, n: int)
    requires Valid(f.cart)
    ensures Valid(SetQuantity(f, id, n).cart)
    ensures n >= 1 && Lists.Find(f.cart, Id, id).Some? ==>
      var i := Lists.Find(f.cart, Id, id).value;
      n <= f.cart[i].stock ==>
        Total(SetQuantity(f, id, n).cart) == Total(f.cart) - f.cart[i].subtotal + n * f.cart[i].precio
  {
    if n >= 1 && Lists.Find(f.cart, Id, id).Some? {
      var i := Lists.Find(f.cart, Id, id).value;
      if n <= f.cart[i].stock {
        Lists.MapWhereUnique(f.cart, Id, id, Restocked(n));
        Lists.MapWhereAt(f.cart, Id, id, Restocked(n));
        Lists.SumUpdate(f.cart, i, Restocked(n)(f.cart[i]), Subtotal);
      }
    }
  }

  /** `eliminarDelCarrito`: filter out the lines with that id. */
  function RemoveLine(cart: Cart, id: string): (r: Cart)
    ensures !Lists.HasKey(r, Id, id)
    ensures !Lists.HasKey(cart, Id, id) ==> r == cart
    ensures forall i :: 0 <= i < |cart| && cart[i].id != id ==> cart[i] in r
    ensures forall i :: 0 <= i < |r| ==> r[i] in cart
  {
    Lists.RemoveKey(cart, Id, id)
  }

  /** Removing a present id deletes exactly its line, keeps the others in
      order and keeps the stock guard; the total drops by that subtotal. */
  lemma RemoveLineValid(cart: Cart, id: string)
    requires Valid(cart)
    ensures Valid(RemoveLine(cart, id))
    ensures Lists.Find(cart, Id, id).Some? ==>
      var i := Lists.Find(cart, Id, id).value;
      && RemoveLine(cart, id) == cart[..i] + cart[i + 1..]
      && Total(RemoveLine(cart, id)) == Total(cart) - cart[i].subtotal
  {
    Lists.RemoveKeyUnique(cart, Id, id);
    var r := RemoveLine(cart, id);
    forall i | 0 <= i < |r|
      ensures ValidLine(r[i])
    {
      assert r[i] in cart;
    }
    if Lists.Find(cart, Id, id).Some? {
      Lists.RemoveKeyAt(cart, Id, id);
      Lists.SumRemoveAt(cart, Lists.Find(cart, Id, id).value, Subtotal);
    }
  }

  /** The "Vaciar" button. */
  function Clear(f: Form): (r: Form)
    ensures r.cart == [] && Valid(r.cart) && Total(r.cart) == 0
    ensures r.(cart := f.cart) == f
  {
    f.(cart := [])
  }

  // ---------------------------------------------------------------------
  // handleSubmit

  datatype Detail = Detail(idProductoCalidad: string, cantidad: int, precioUnitario: int)

  /** The body posted to `/ventas`: `idTecnico` is null without a technician. */
  datatype Payload = Payload(detalles: seq<Detail>, idTecnico: Option<string>,
                             idUsuario: Option<string>)

  function DetailOf(l: Line): Detail {
    Detail(l.id, l.cantidad, l.precio)
  }

  function DetailAmount(d: Detail): int { d.cantidad * d.precioUnitario }

  function Details(cart: Cart): (r: seq<Detail>)
    ensures |r| == |cart|
    ensures forall i :: 0 <= i < |cart| ==> r[i] == DetailOf(cart[i])
  {
    seq(|cart|, i requires 0 <= i < |cart| => DetailOf(cart[i]))
  }

  /** The validation part of `handleSubmit` and the payload it would post:
      only an empty cart is refused; the technician is optional. */
  function Submit(f: Form, idUsuario: Option<string>): (r: Result<Payload, Error>)
    ensures r.Failure? <==> |f.cart| == 0
    ensures r.Failure? ==> r.error == EmptyCart
    ensures r.Success? ==>
      && r.value.idTecnico == f.tecnico
      && r.value.idUsuario == idUsuario
      && |r.value.detalles| == |f.cart|
      && forall i :: 0 <= i < |f.cart| ==>
           r.value.detalles[i] == Detail(f.cart[i].id, f.cart[i].cantidad, f.cart[i].precio)
  {
    if |f.cart| == 0 then Failure(EmptyCart)
    else Success(Payload(Details(f.cart), f.tecnico, idUsuario))
  }

  lemma {:induction false} DetailsAmount(cart: Cart)
    ensures Lists.Sum(Details(cart), DetailAmount) == Lists.Sum(cart, Amount)
  {
    if |cart| > 0 {
      assert Details(cart)[1..] == Details(cart[1..]);
      DetailsAmount(cart[1..]);
    }
  }

  /** What the posted details are worth is the total the dialog displays. */
  lemma SubmitMatchesTotal(f: Form, idUsuario: Option<string>)
    requires Valid(f.cart)
    requires Submit(f, idUsuario).Success?
    ensures Lists.Sum(Submit(f, idUsuario).value.detalles, DetailAmount) == Total(f.cart)
  {
    DetailsAmount(f.cart);
  }
}

/** The "assign qualities to a product" dialog
    (src/sections/product/view/ProductoFormData.tsx): an append-only list of
    (quality, sale price, stock) rows with at most one row per quality, its
    remove button, its submit checks and payload, and the reset on close. */
module ProductoForm {
  import opened Wrappers
  import Lists

  datatype Marca = Marca(id: string, nombre: string)

  datatype Producto = Producto(id: string, nombre: string, marca: Marca)

  datatype Calidad = Calidad(id: string, nombre: string)

  /** One assigned row (`CalidadAsignada`). */
  datatype Asignada = Asignada(calidad: Calidad, precioVenta: int, stock: int)

  function CalidadId(a: Asignada): string { a.calidad.id }

  /** The messages the dialog raises with `alert`. */
  datatype Alert =
    | SelectCalidad   // 'Debe seleccionar una calidad'
    | AlreadyAdded    // 'Esta calidad ya fue agregada'
    | SelectProducto  // 'Debe seleccionar un producto'
    | NoCalidades     // 'Debe agregar al menos una calidad'

  datatype Form = Form(producto: Option<Producto>, asignadas: seq<Asignada>,
                       seleccionada: Option<Calidad>, precioVenta: int, stock: int)

  /** A handler's result: the new state and the alert it raised, if any. */
  datatype Step = Step(form: Form, alert: Option<Alert>)

  /** No quality is assigned twice. */
  predicate Valid(f: Form) {
    Lists.UniqueKeys(f.asignadas, CalidadId)
  }

  /** `handleAgregarCalidad`. Without a selected quality, or with one already
      in the list, the list stays as it is and an alert is raised; otherwise
      one row is appended at the end and the inputs reset. */
  function AddCalidad(f: Form): (r: Step)
    ensures f.seleccionada.None? ==> r == Step(f, Some(SelectCalidad))
    ensures f.seleccionada.Some? && Lists.HasKey(f.asignadas, CalidadId, f.seleccionada.value.id) ==>
      r == Step(f, Some(AlreadyAdded))
    ensures f.seleccionada.Some? && !Lists.HasKey(f.asignadas, CalidadId, f.seleccionada.value.id) ==>
      && r.alert.None?
      && r.form.asignadas == f.asignadas + [Asignada(f.seleccionada.value, f.precioVenta, f.stock)]
      && r.form == Form(f.producto, r.form.asignadas, None, 0, 0)
  {
    match f.seleccionada
    case None => Step(f, Some(SelectCalidad))
    case Some(c) =>
      if Lists.HasKey(f.asignadas, CalidadId, c.id) then Step(f, Some(AlreadyAdded))
      else Step(Form(f.producto, f.asignadas + [Asignada(c, f.precioVenta, f.stock)], None, 0, 0), None)
  }

  /** The uniqueness guard does its job: quality ids stay pairwise distinct
      after every add. */
  lemma AddCalidadValid(f: Form)
    requires Valid(f)
    ensures Valid(AddCalidad(f).form)
  {
    var r := AddCalidad(f).form;
    if f.seleccionada.Some? && !Lists.HasKey(f.asignadas, CalidadId, f.seleccionada.value.id) {
      forall i | 0 <= i < |f.asignadas|
        ensures CalidadId(r.asignadas[i]) != f.seleccionada.value.id
      {
        assert r.asignadas[i] == f.asignadas[i];
      }
    }
  }

  /** `handleEliminarCalidad`: filter out the row with that quality id. */
  function RemoveCalidad(f: Form, idCalidad: string): (r: Form)
    ensures r == f.(asignadas := r.asignadas)
    ensures !Lists.HasKey(r.asignadas, CalidadId, idCalidad)
    ensures !Lists.HasKey(f.asignadas, CalidadId, idCalidad) ==> r == f
    ensures forall i :: 0 <= i < |f.asignadas| && CalidadId(f.asignadas[i]) != idCalidad ==>
      f.asignadas[i] in r.asignadas
    ensures forall i :: 0 <= i < |r.asignadas| ==> r.asignadas[i] in f.asignadas
  {
    f.(asignadas := Lists.RemoveKey(f.asignadas, CalidadId, idCalidad))
  }

  /** Removing keeps quality ids distinct; a present id loses exactly its
      row and the other rows keep their order. */
  lemma RemoveCalidadValid(f: Form, idCalidad: string)
    requires Valid(f)
    ensures Valid(RemoveCalidad(f, idCalidad))
    ensures Lists.Find(f.asignadas, CalidadId, idCalidad).Some? ==>
      var i := Lists.Find(f.asignadas, CalidadId, idCalidad).value;
      RemoveCalidad(f, idCalidad).asignadas == f.asignadas[..i] + f.asignadas[i + 1..]
  {
    Lists.RemoveKeyUnique(f.asignadas, CalidadId, idCalidad);
    if Lists.Find(f.asignadas, CalidadId, idCalidad).Some? {
      Lists.RemoveKeyAt(f.asignadas, CalidadId, idCalidad);
    }
  }

  /** One element of the posted `calidades`. */
  datatype Assignment = Assignment(idCalidad: string, precioVenta: int, stock: int)

  /** The request `handleSubmit` sends: to
      `/productos/<idProducto>/asignar-calidades`, with this body. */
  datatype Request = Request(idProducto: string, calidades: seq<Assignment>)

  function AssignmentOf(a: Asignada): Assignment {
    Assignment(a.calidad.id, a.precioVenta, a.stock)
  }

  /** The validation part of `handleSubmit` and the request it would send: a
      product must be chosen, then at least one quality assigned; the body
      lists every row, in order. */
  function Submit(f: Form): (r: Result<Request, Alert>)
    ensures r.Success? <==> f.producto.Some? && |f.asignadas| > 0
    ensures f.producto.None? ==> r == Failure(SelectProducto)
    ensures f.producto.Some? && |f.asignadas| == 0 ==> r == Failure(NoCalidades)
    ensures r.Success? ==>
      && r.value.idProducto == f.producto.value.id
      && |r.value.calidades| == |f.asignadas|
      && forall i :: 0 <= i < |f.asignadas| ==>
           r.value.calidades[i] == Assignment(f.asignadas[i].calidad.id,
                                              f.asignadas[i].precioVenta, f.asignadas[i].stock)
  {
    if f.producto.None? then Failure(SelectProducto)
    else if |f.asignadas| == 0 then Failure(NoCalidades)
    else
      Success(Request(f.producto.value.id,
        seq(|f.asignadas|, i requires 0 <= i < |f.asignadas| => AssignmentOf(f.asignadas[i]))))
  }

  /** In a valid form the posted quality ids are pairwise distinct too. */
  lemma SubmitDistinct(f: Form)
    requires Valid(f)
    requires Submit(f).Success?
    ensures forall i, j :: 0 <= i < j < |Submit(f).value.calidades| ==>
      Submit(f).value.calidades[i].idCalidad != Submit(f).value.calidades[j].idCalidad
  {
  }

  /** The effect run when the dialog closes: everything entered is dropped. */
  function Close(f: Form): (r: Form)
    ensures r.producto.None? && r.asignadas == [] && r.seleccionada.None?
    ensures r.precioVenta == 0 && r.stock == 0
    ensures Valid(r)
  {
    Form(None, [], None, 0, 0)
  }
}

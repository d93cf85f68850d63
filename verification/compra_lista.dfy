/** The status helpers of the purchase list (src/sections/compra/lista.tsx):
    a chip colour and a label per purchase status, matched ignoring case. */
module CompraLista {
  import Text
  import CompraForm
  import opened Chip

  const Completado := "completado"
  const Pendiente := "pendiente"
  const Cancelado := "cancelado"

  /** The statuses the helpers know, in the lower-case form they match. */
  predicate Known(estado: string) {
    var e := Text.Lower(estado);
    e == Completado || e == Pendiente || e == Cancelado
  }

  /** `getEstadoColor`: the status, lower-cased, picks the colour. */
  function EstadoColor(estado: string): (c: Color)
    ensures c == Success <==> Text.Lower(estado) == Completado
    ensures c == Warning <==> Text.Lower(estado) == Pendiente
    ensures c == Error <==> Text.Lower(estado) == Cancelado
    ensures c == Default <==> !Known(estado)
  {
    var e := Text.Lower(estado);
    if e == Completado then Success
    else if e == Pendiente then Warning
    else if e == Cancelado then Error
    else Default
  }

  /** `getEstadoTexto`: the known statuses get their fixed upper-case
      label, any other status is shown upper-cased. The fixed labels are
      exactly what upper-casing gives, so every label is the status in
      upper case. */
  function EstadoTexto(estado: string): (t: string)
    ensures t == Text.Upper(estado)
    ensures Text.Lower(estado) == Completado ==> t == "COMPLETADO"
    ensures Text.Lower(estado) == Pendiente ==> t == "PENDIENTE"
    ensures Text.Lower(estado) == Cancelado ==> t == "CANCELADO"
  {
    Text.UpperOfLower(estado);
    FixedLabels();
    var e := Text.Lower(estado);
    if e == Completado then "COMPLETADO"
    else if e == Pendiente then "PENDIENTE"
    else if e == Cancelado then "CANCELADO"
    else Text.Upper(estado)
  }

  /** The fixed labels are the upper-case forms of the known statuses. */
  lemma FixedLabels()
    ensures Text.Upper(Completado) == "COMPLETADO"
    ensures Text.Upper(Pendiente) == "PENDIENTE"
    ensures Text.Upper(Cancelado) == "CANCELADO"
  {
  }

  /** The status a new purchase is created with shows as a green
      "COMPLETADO" chip. */
  lemma NewPurchaseStatus()
    ensures EstadoColor(CompraForm.Completado) == Success
    ensures EstadoTexto(CompraForm.Completado) == "COMPLETADO"
  {
    assert Text.Lower(CompraForm.Completado) == Completado;
  }
}

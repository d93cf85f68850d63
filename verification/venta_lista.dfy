/** The status helper and the status filter of the sales list
    (src/sections/venta/lista.tsx). Unlike the purchase list, the match is
    exact (case-sensitive) and the spellings are feminine. */
module VentaLista {
  import opened Chip
  import CompraLista

  /** `getEstadoColor`: an exact match on the three sale statuses. */
  function EstadoColor(estado: string): (c: Color)
    ensures c == Success <==> estado == "completada"
    ensures c == Warning <==> estado == "pendiente"
    ensures c == Error <==> estado == "cancelada"
    ensures c == Default <==> estado != "completada" && estado != "pendiente" && estado != "cancelada"
  {
    if estado == "completada" then Success
    else if estado == "pendiente" then Warning
    else if estado == "cancelada" then Error
    else Default
  }

  /** The two lists disagree on spelling and case: a capitalised sale status
      is not recognised, and the purchase helper does not know the feminine
      forms. */
  lemma HelpersDisagree()
    ensures EstadoColor("Completada") == Default
    ensures EstadoColor("completado") == Default
    ensures CompraLista.EstadoColor("completada") == Default
    ensures CompraLista.EstadoColor("Pendiente") == Warning && EstadoColor("Pendiente") == Default
  {
    assert "Completada" != "completada";
    assert "Pendiente" != "pendiente";
    assert CompraLista.Text.Lower("completada") == "completada";
    assert CompraLista.Text.Lower("Pendiente") == "pendiente";
  }

  /** The values of the "Filtrar por estado" select. */
  const Opciones := ["todos", "pendiente", "completada", "cancelada"]

  /** The query parameters of `obtenerVentas`: none for 'todos', otherwise
      `estado` set to the filter value. */
  function QueryParams(filtro: string): (params: map<string, string>)
    ensures filtro == "todos" <==> params == map[]
    ensures filtro != "todos" ==> params.Keys == {"estado"} && params["estado"] == filtro
  {
    if filtro != "todos" then
      var params := map["estado" := filtro];
      assert "estado" in params;
      params
    else map[]
  }

  /** Every status the filter can ask for is one the colour helper knows. */
  lemma FilterOptionsColored(k: nat)
    requires 1 <= k < |Opciones|
    ensures "estado" in QueryParams(Opciones[k])
    ensures EstadoColor(QueryParams(Opciones[k])["estado"]) != Default
  {
  }
}

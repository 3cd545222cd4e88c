/** The outcome report that `EjecutarProceso` mails at the end of a run
    (ProcesarItemGastoPIPSG/Program.cs): the error row of a unit, the three-way
    classification of the run and the HTML body. All of it is pure text building. */
module Reporte {
  import opened Textos

  /** Why a unit gets an error row: one reason per failing branch of the per-unit loop. */
  datatype Motivo = SinRegistros | NoEliminados | NoRegistrados | NoActualizado

  const MensajeSinRegistros := "La unidad ejecutora no posee registros para el año configurado"
  const MensajeNoEliminados := "No se han podido eliminar la informacion previa de los items para la unidad ejecutora"
  const MensajeNoRegistrados := "No se han podido registrar los items de la unidad ejecutora"
  const MensajeNoActualizado := "No se ha podido actualizar el estado de la unidad ejecutora, se debe volver a procesar"

  /** The message the source writes in the row for each reason. */
  function Mensaje(m: Motivo): string
  {
    match m
    case SinRegistros => MensajeSinRegistros
    case NoEliminados => MensajeNoEliminados
    case NoRegistrados => MensajeNoRegistrados
    case NoActualizado => MensajeNoActualizado
  }

  // Classification texts.
  const TextoExito := "Los items de gasto de las unidades ejecutoras se han registrado correctamente"
  const TextoFallido := "No se han procesado los items de gasto, por favor revisar el proceso ETL configurado"
  const TextoParcial := "Los items de gasto se han procesado parcialmente, sin embargo existen algunas observaciones:"

  /** The message header; the source writes it as one literal, here it is kept in
      pieces (the title, the text before the placeholder, the placeholder, the text
      after it). */
  const Titulo := "Proceso de carga de Items de Gasto"
  const PlantillaAntes := "<h3>" + Titulo + "</h3><p>"
  const Marcador := "mensaje_respuesta"
  const PlantillaDespues := "</p>"
  const Plantilla := PlantillaAntes + Marcador + PlantillaDespues

  const TablaAntes := "<table><thead><tr><th>Ejecutora</th><th>Mensaje de Error</th></tr></thead><tbody>"
  const TablaDespues := "</tbody></table>"

  const Asunto := "Proceso de Carga Masiva de Datos de Proyectos"

  /** A failing unit, as the loop records it: its executing unit code and the reason.
      `FilaError` renders it as the HTML row the source appends. */
  datatype Observacion = Observacion(secEjec: string, motivo: Motivo)

  /** The HTML row recorded for a failing unit: a `tr` whose first cell holds the
      unit's code and whose second cell holds the reason's message. */
  function FilaError(obs: Observacion): (fila: string)
    ensures |fila| == |obs.secEjec| + |Mensaje(obs.motivo)| + 27
    ensures fila[..8] == "<tr><td>" && fila[|fila| - 10..] == "</td></tr>"
    ensures fila[8..8 + |obs.secEjec|] == obs.secEjec
    ensures fila[8 + |obs.secEjec|..17 + |obs.secEjec|] == "</td><td>"
    ensures fila[17 + |obs.secEjec|..|fila| - 10] == Mensaje(obs.motivo)
  {
    "<tr><td>" + obs.secEjec + "</td><td>" + Mensaje(obs.motivo) + "</td></tr>"
  }

  /** The rows of a list of failing units, in order. */
  function FilasHtml(obs: seq<Observacion>): (filas: seq<string>)
    ensures |filas| == |obs|
    ensures forall k :: 0 <= k < |obs| ==> filas[k] == FilaError(obs[k])
  {
    if obs == [] then [] else [FilaError(obs[0])] + FilasHtml(obs[1..])
  }

  /** The four row messages are pairwise different. */
  lemma {:induction false} MensajeInyectivo(a: Motivo, b: Motivo)
    ensures Mensaje(a) == Mensaje(b) <==> a == b
  {
    assert |MensajeSinRegistros| == 62 && |MensajeNoEliminados| == 85;
    assert |MensajeNoRegistrados| == 59 && |MensajeNoActualizado| == 86;
  }

  /** The rows of one unit differ for different reasons, so the report tells the
      failing step apart (in particular a failed delete from a failed register). */
  lemma {:induction false} FilasDistinguibles(secEjec: string, a: Motivo, b: Motivo)
    ensures FilaError(Observacion(secEjec, a)) == FilaError(Observacion(secEjec, b)) <==> a == b
  {
    var p := "<tr><td>" + secEjec + "</td><td>";
    var q := "</td></tr>";
    assert FilaError(Observacion(secEjec, a)) == p + Mensaje(a) + q;
    assert FilaError(Observacion(secEjec, b)) == p + Mensaje(b) + q;
    if p + Mensaje(a) + q == p + Mensaje(b) + q {
      assert Mensaje(a) == (p + Mensaje(a) + q)[|p|..|p| + |Mensaje(a)|];
      assert Mensaje(b) == (p + Mensaje(b) + q)[|p|..|p| + |Mensaje(b)|];
    }
    MensajeInyectivo(a, b);
  }

  /** The run's three-way classification. */
  datatype Clasificacion = TodoCorrecto | TodoFallido | Parcial

  /** The classification, checked in the source's order: no rows first (so an empty
      unit list is a success), then as many rows as units, then the partial case. */
  function Clasificar(errados: nat, total: nat): (c: Clasificacion)
    ensures c == TodoCorrecto <==> errados == 0
    ensures c == TodoFallido <==> errados != 0 && errados == total
    ensures c == Parcial <==> errados != 0 && errados != total
  {
    if errados == 0 then TodoCorrecto
    else if errados == total then TodoFallido
    else Parcial
  }

  /** The text that replaces the placeholder for a classification. */
  function Texto(c: Clasificacion): string
  {
    match c
    case TodoCorrecto => TextoExito
    case TodoFallido => TextoFallido
    case Parcial => TextoParcial
  }

  /** The three classification texts differ, so the mailed text names the classification. */
  lemma {:induction false} TextoInyectivo(c: Clasificacion, d: Clasificacion)
    ensures Texto(c) == Texto(d) <==> c == d
  {
    assert |TextoExito| == 77 && |TextoFallido| == 84 && |TextoParcial| == 92;
  }

  /** `detalle` of the source: the classification text for the row and unit counts. */
  function Detalle(errados: nat, total: nat): string
  {
    Texto(Clasificar(errados, total))
  }

  /** The body: the header with its placeholder replaced, then the table whose
      tbody holds the rows joined with one space. */
  function Cuerpo(detalle: string, obs: seq<Observacion>): (r: string)
    ensures r == PlantillaAntes + detalle + PlantillaDespues + Tabla(obs)
  {
    EncabezadoForma(detalle);
    ReplaceAll(Plantilla, Marcador, detalle) + Tabla(obs)
  }

  /** `listadoDetalle`: the table of rows, joined with one space inside tbody. It
      always opens with the header row; with no rows the tbody is empty. */
  function Tabla(obs: seq<Observacion>): (t: string)
    ensures obs == [] ==> t == TablaAntes + TablaDespues
    ensures TablaAntes <= t
  {
    TablaAntes + Join(FilasHtml(obs), ' ') + TablaDespues
  }

  /** The placeholder occurs nowhere before its own position in the header: its
      underscore occurs neither in the text before it nor earlier in the placeholder. */
  lemma {:induction false} MarcadorUnico()
    ensures forall i: nat :: i < |PlantillaAntes| ==> !MatchesAt(Plantilla, Marcador, i)
  {
    assert Marcador[7] == '_' && Marcador[..7] == "mensaje";
    assert '_' !in PlantillaAntes;
    NoMatchBefore(PlantillaAntes, Marcador, PlantillaDespues, 7);
  }

  /** The header after the replacement is the text before the placeholder, the
      classification text, and the text after it: the placeholder is replaced exactly
      once, and the text put in its place is not scanned again. */
  lemma {:induction false} EncabezadoForma(detalle: string)
    ensures ReplaceAll(Plantilla, Marcador, detalle) == PlantillaAntes + detalle + PlantillaDespues
  {
    MarcadorUnico();
    ReplaceFirst(PlantillaAntes, Marcador, PlantillaDespues, detalle);
    assert |PlantillaDespues| < |Marcador|;
  }

  /** The whole body: the header around the classification text, then the table. */
  lemma {:induction false} CuerpoForma(detalle: string, obs: seq<Observacion>)
    ensures Cuerpo(detalle, obs) ==
              PlantillaAntes + detalle + PlantillaDespues + TablaAntes + Join(FilasHtml(obs), ' ') + TablaDespues
  {
    var filas := Join(FilasHtml(obs), ' ');
    assert Tabla(obs) == TablaAntes + filas + TablaDespues;
    Reagrupar(PlantillaAntes + detalle + PlantillaDespues, TablaAntes, filas, TablaDespues);
  }

  /** Concatenation regrouped, kept apart so that the literals above stay folded. */
  lemma {:induction false} Reagrupar(a: string, b: string, c: string, d: string)
    ensures a + (b + c + d) == a + b + c + d
  {
  }
}

/** The run (ProcesarItemGastoPIPSG/Program.cs): `Main` resolves the settings, and
    `EjecutarProceso` lists the pending units, takes each one in turn through fetch,
    delete, bulk register and update, collects one error row per failing unit and mails
    the report. The outcome of every external step is an oracle indexed by the unit's
    position in the listing; a step may return true, return false or throw, so every
    branch of the loop is reachable in the model, including the ones the repository as
    written never takes (see `ConRepositorio`). */
module Programa {
  import opened Resultados
  import opened Textos
  import opened Respuesta
  import opened Repositorio
  import opened Reporte

  /** One call a run makes, in the order made. */
  datatype Llamada =
    | Listar
    | Obtener(unidad: nat)
    | Eliminar(unidad: nat)
    | Registrar(unidad: nat, filas: seq<Item>)
    | Actualizar(unidad: nat)
    | Notificar(mail: Mail, asunto: string, cuerpo: string)

  /** How the external steps turn out: the listing, and per unit position the items the
      fetch returns and the outcome of delete and update; the bulk register's outcome
      depends on the unit and on the rows it is given. */
  datatype Oraculos = Oraculos(
    listado: Outcome<seq<WebServiceEjecutar>>,
    items: nat -> seq<Item>,
    eliminar: nat -> Outcome<bool>,
    registrar: (nat, seq<Item>) -> Outcome<bool>,
    actualizar: nat -> Outcome<bool>)

  /** What one unit adds to the run: nothing, one error row, or an exception that ends the run. */
  datatype Aporte = Limpio | Fila(motivo: Motivo) | Aborto(mensaje: string)

  /** The calls one unit makes and what it adds. */
  datatype Unidad = Unidad(llamadas: seq<Llamada>, aporte: Aporte)

  /** The four steps of a unit, in order; the bulk register is given the fetched items. */
  function Pasos(i: nat, items: seq<Item>): seq<Llamada>
  {
    [Obtener(i), Eliminar(i), Registrar(i, items), Actualizar(i)]
  }

  /** One pass of the loop body for the unit at position `i`: the calls it makes and
      what it adds to the report. The steps' outcomes are indexed by position, so the
      unit itself is not needed here; `Avanzar` attaches its code to a row. */
  function ProcesarUnidad(i: nat, o: Oraculos): (r: Unidad)
    ensures 1 <= |r.llamadas| && r.llamadas <= Pasos(i, o.items(i))
    ensures r.aporte == Limpio ==> r.llamadas == Pasos(i, o.items(i))
  {
    if |o.items(i)| <= 0 then
      Unidad([Obtener(i)], Fila(SinRegistros))
    else
      match o.eliminar(i)
      case Threw(m) => Unidad([Obtener(i), Eliminar(i)], Aborto(m))
      case Returned(hanSidoEliminados) =>
        if !hanSidoEliminados then Unidad([Obtener(i), Eliminar(i)], Fila(NoEliminados))
        else
          match o.registrar(i, o.items(i))
          case Threw(m) => Unidad([Obtener(i), Eliminar(i), Registrar(i, o.items(i))], Aborto(m))
          case Returned(hanSidoRegistrados) =>
            if !hanSidoRegistrados then
              Unidad([Obtener(i), Eliminar(i), Registrar(i, o.items(i))], Fila(NoRegistrados))
            else
              match o.actualizar(i)
              case Threw(m) => Unidad(Pasos(i, o.items(i)), Aborto(m))
              case Returned(haSidoActualizado) =>
                if !haSidoActualizado then Unidad(Pasos(i, o.items(i)), Fila(NoActualizado))
                else Unidad(Pasos(i, o.items(i)), Limpio)
  }

  /** The calls of one unit are a non-empty prefix of fetch, delete, register, update:
      a step runs only after the previous one returned true, and the register is given
      exactly the items the fetch returned. A unit adds no row exactly
      when all four steps succeed; a unit without items gets the "no records" row and
      nothing else is called for it; an exception from a step that runs ends the run
      with that exception's message. */
  lemma {:induction false} PasosDeUnidad(i: nat, o: Oraculos)
    ensures 1 <= |ProcesarUnidad(i, o).llamadas| && ProcesarUnidad(i, o).llamadas <= Pasos(i, o.items(i))
    ensures Eliminar(i) in ProcesarUnidad(i, o).llamadas <==> |o.items(i)| > 0
    ensures Registrar(i, o.items(i)) in ProcesarUnidad(i, o).llamadas <==> |o.items(i)| > 0 && o.eliminar(i) == Returned(true)
    ensures Actualizar(i) in ProcesarUnidad(i, o).llamadas <==>
              |o.items(i)| > 0 && o.eliminar(i) == Returned(true) && o.registrar(i, o.items(i)) == Returned(true)
    ensures ProcesarUnidad(i, o).aporte == Limpio <==>
              && |o.items(i)| > 0 && o.eliminar(i) == Returned(true)
              && o.registrar(i, o.items(i)) == Returned(true) && o.actualizar(i) == Returned(true)
    ensures |o.items(i)| == 0 ==> ProcesarUnidad(i, o).aporte == Fila(SinRegistros)
    ensures ProcesarUnidad(i, o).aporte.Aborto? <==>
              && |o.items(i)| > 0
              && (|| o.eliminar(i).Threw?
                  || (o.eliminar(i) == Returned(true) && o.registrar(i, o.items(i)).Threw?)
                  || (o.eliminar(i) == Returned(true) && o.registrar(i, o.items(i)) == Returned(true) && o.actualizar(i).Threw?))
    ensures ProcesarUnidad(i, o).aporte.Aborto? ==>
              Threw(ProcesarUnidad(i, o).aporte.mensaje) in [o.eliminar(i), o.registrar(i, o.items(i)), o.actualizar(i)]
  {
  }

  /** Each call of one unit's pass is one of its four steps, made only after the
      steps before it returned true for that unit; the register carries the unit's
      fetched items. */
  lemma {:induction false} LlamadasDeUnidad(i: nat, o: Oraculos, c: Llamada)
    requires c in ProcesarUnidad(i, o).llamadas
    ensures !c.Listar? && !c.Notificar? && c.unidad == i
    ensures c.Eliminar? ==> |o.items(i)| > 0
    ensures c.Registrar? ==> c.filas == o.items(i) && |o.items(i)| > 0 && o.eliminar(i) == Returned(true)
    ensures c.Actualizar? ==> |o.items(i)| > 0 && o.eliminar(i) == Returned(true) && o.registrar(i, o.items(i)) == Returned(true)
  {
  }

  /** The loop's state after the first `k` units: the rows so far, the calls so far, and
      the message of the exception that ended the loop, if one did. */
  datatype Estado = Estado(errados: seq<Observacion>, llamadas: seq<Llamada>, aborto: Option<string>)

  /** Each listed unit's pass, by position in the listing. */
  function Pasadas(unidades: seq<WebServiceEjecutar>, o: Oraculos): (ps: seq<Unidad>)
    ensures |ps| == |unidades|
    ensures forall j :: 0 <= j < |unidades| ==> ps[j] == ProcesarUnidad(j, o)
  {
    seq(|unidades|, j requires 0 <= j < |unidades| => ProcesarUnidad(j, o))
  }

  /** The loop over the first `k` units, given each unit's pass. Each unit adds at most
      one row, so there are never more rows than units; the listing is the first call. */
  function Recorrer(unidades: seq<WebServiceEjecutar>, pasadas: seq<Unidad>, k: nat): (e: Estado)
    requires |pasadas| == |unidades| && k <= |unidades|
    ensures |e.errados| <= k
    ensures |e.llamadas| >= 1 && e.llamadas[0] == Listar
  {
    if k == 0 then Estado([], [Listar], None)
    else
      var e := Recorrer(unidades, pasadas, k - 1);
      if e.aborto.Some? then e
      else Avanzar(e, unidades[k - 1], pasadas[k - 1])
  }

  /** One pass of the loop from state `e` for unit `w` whose pass is `u`: its calls are
      appended, then its row if it has one; an exception is recorded. */
  function Avanzar(e: Estado, w: WebServiceEjecutar, u: Unidad): Estado
  {
    match u.aporte
    case Limpio => Estado(e.errados, e.llamadas + u.llamadas, None)
    case Fila(m) => Estado(e.errados + [Observacion(w.SecEjec, m)], e.llamadas + u.llamadas, None)
    case Aborto(m) => Estado(e.errados, e.llamadas + u.llamadas, Some(m))
  }

  /** How a run ends: an exception that escapes (no mail is sent), or completion with
      the rows, the body and the calls, the last of which mails the body. */
  datatype Ejecucion =
    | Abortada(mensaje: string, llamadas: seq<Llamada>)
    | Completada(errados: seq<Observacion>, cuerpo: string, llamadas: seq<Llamada>)

  /** What a run does: a failed listing ends it at once; otherwise the loop runs and,
      unless a step threw, the body is rendered and mailed. */
  function Ejecutar(mail: Mail, o: Oraculos): (r: Ejecucion)
    ensures |r.llamadas| >= 1 && r.llamadas[0] == Listar
    ensures r.Completada? ==> o.listado.Returned? && |r.errados| <= |o.listado.value|
    ensures r.Completada? ==> r.llamadas[|r.llamadas| - 1] == Notificar(mail, Asunto, r.cuerpo)
  {
    match o.listado
    case Threw(m) => Abortada(m, [Listar])
    case Returned(unidades) =>
      var e := Recorrer(unidades, Pasadas(unidades, o), |unidades|);
      if e.aborto.Some? then Abortada(e.aborto.value, e.llamadas)
      else
        var cuerpo := Cuerpo(Detalle(|e.errados|, |unidades|), e.errados);
        Completada(e.errados, cuerpo, e.llamadas + [Notificar(mail, Asunto, cuerpo)])
  }

  // ---------------------------------------------------------------- the loop

  /** Once the loop has stopped on an exception, later units change nothing. */
  lemma {:induction false} AbortoPersiste(unidades: seq<WebServiceEjecutar>, pasadas: seq<Unidad>, k: nat, n: nat)
    requires |pasadas| == |unidades| && k <= n <= |unidades|
    requires Recorrer(unidades, pasadas, k).aborto.Some?
    ensures Recorrer(unidades, pasadas, n) == Recorrer(unidades, pasadas, k)
    decreases n - k
  {
    if k < n {
      AbortoPersiste(unidades, pasadas, k, n - 1);
    }
  }

  /** The positions, among the first `k`, of the passes that end on a row, in
      increasing order: exactly those passes, and all `k` exactly when every pass does. */
  function ConFila(pasadas: seq<Unidad>, k: nat): (idx: seq<nat>)
    requires k <= |pasadas|
    ensures |idx| <= k
    ensures forall m :: 0 <= m < |idx| ==> idx[m] < k && pasadas[idx[m]].aporte.Fila?
    ensures forall m, n :: 0 <= m < n < |idx| ==> idx[m] < idx[n]
    ensures forall j :: 0 <= j < k && pasadas[j].aporte.Fila? ==> j in idx
    ensures |idx| == k <==> forall j :: 0 <= j < k ==> pasadas[j].aporte.Fila?
  {
    if k == 0 then []
    else
      var idx := ConFila(pasadas, k - 1);
      if pasadas[k - 1].aporte.Fila? then idx + [k - 1] else idx
  }

  /** While no step has thrown, the rows are one per failing unit, in the order of the
      listing, each naming that unit's code and the reason its pass ended on. */
  lemma {:induction false} FilasEnOrden(unidades: seq<WebServiceEjecutar>, pasadas: seq<Unidad>, k: nat)
    requires |pasadas| == |unidades| && k <= |unidades|
    requires Recorrer(unidades, pasadas, k).aborto.None?
    ensures var e := Recorrer(unidades, pasadas, k);
            var idx := ConFila(pasadas, k);
            && |e.errados| == |idx|
            && forall m :: 0 <= m < |idx| ==>
                 e.errados[m] == Observacion(unidades[idx[m]].SecEjec, pasadas[idx[m]].aporte.motivo)
    decreases k
  {
    if k > 0 {
      FilasEnOrden(unidades, pasadas, k - 1);
    }
  }

  /** The loop runs to the end exactly when no unit's pass throws. */
  lemma {:induction false} SinAborto(unidades: seq<WebServiceEjecutar>, pasadas: seq<Unidad>, k: nat)
    requires |pasadas| == |unidades| && k <= |unidades|
    ensures Recorrer(unidades, pasadas, k).aborto.None? <==> forall j :: 0 <= j < k ==> !pasadas[j].aporte.Aborto?
    decreases k
  {
    if k > 0 {
      SinAborto(unidades, pasadas, k - 1);
    }
  }

  /** Every call of the loop other than the listing is a call of the pass of a unit
      the loop reached; `j` is that unit's position. */
  lemma {:induction false} LlamadasJustificadas(unidades: seq<WebServiceEjecutar>, pasadas: seq<Unidad>, k: nat, c: Llamada)
    returns (j: nat)
    requires |pasadas| == |unidades| && k <= |unidades|
    requires c in Recorrer(unidades, pasadas, k).llamadas && c != Listar
    ensures j < k && c in pasadas[j].llamadas
    decreases k
  {
    var e := Recorrer(unidades, pasadas, k - 1);
    if e.aborto.None? && c in pasadas[k - 1].llamadas {
      j := k - 1;
    } else {
      if e.aborto.None? {
        assert Recorrer(unidades, pasadas, k).llamadas == e.llamadas + pasadas[k - 1].llamadas;
      }
      j := LlamadasJustificadas(unidades, pasadas, k - 1, c);
    }
  }

  /** The unit whose step throws is the last one touched: the loop ends with that
      exception, after exactly the calls of the earlier units and of that unit. */
  lemma {:induction false} AbortoEnUnidad(unidades: seq<WebServiceEjecutar>, pasadas: seq<Unidad>, j: nat)
    requires |pasadas| == |unidades| && j < |unidades|
    requires Recorrer(unidades, pasadas, j).aborto.None?
    requires pasadas[j].aporte.Aborto?
    ensures Recorrer(unidades, pasadas, |unidades|) ==
              Estado(Recorrer(unidades, pasadas, j).errados,
                     Recorrer(unidades, pasadas, j).llamadas + pasadas[j].llamadas,
                     Some(pasadas[j].aporte.mensaje))
  {
    AbortoPersiste(unidades, pasadas, j + 1, |unidades|);
  }

  // ---------------------------------------------------------------- the run

  /** No call of the loop sends mail, and each step call concerns a unit the loop
      reached, made only after the steps before it returned true for that unit; a
      register loads exactly the items that unit's fetch returned. */
  lemma {:induction false} LlamadasDelBucle(unidades: seq<WebServiceEjecutar>, o: Oraculos, c: Llamada)
    requires c in Recorrer(unidades, Pasadas(unidades, o), |unidades|).llamadas
    ensures !c.Notificar?
    ensures c.Eliminar? ==> c.unidad < |unidades| && |o.items(c.unidad)| > 0
    ensures c.Registrar? ==>
              && c.unidad < |unidades| && c.filas == o.items(c.unidad) && |c.filas| > 0
              && o.eliminar(c.unidad) == Returned(true)
    ensures c.Actualizar? ==>
              && c.unidad < |unidades| && |o.items(c.unidad)| > 0
              && o.eliminar(c.unidad) == Returned(true) && o.registrar(c.unidad, o.items(c.unidad)) == Returned(true)
  {
    var ps := Pasadas(unidades, o);
    if c != Listar {
      var j := LlamadasJustificadas(unidades, ps, |unidades|, c);
      LlamadasDeUnidad(j, o, c);
    }
  }

  /** A failed listing ends the run at once; an exception in a unit ends it without
      mail; a completed run mails its body exactly once, as its last call. */
  lemma {:induction false} CorreoAlFinal(mail: Mail, o: Oraculos)
    ensures o.listado.Threw? ==> Ejecutar(mail, o) == Abortada(o.listado.message, [Listar])
    ensures Ejecutar(mail, o).Abortada? ==> forall c :: c in Ejecutar(mail, o).llamadas ==> !c.Notificar?
    ensures Ejecutar(mail, o).Completada? ==>
              var r := Ejecutar(mail, o);
              && o.listado.Returned?
              && |r.llamadas| >= 2 && r.llamadas[0] == Listar
              && r.llamadas[|r.llamadas| - 1] == Notificar(mail, Asunto, r.cuerpo)
              && forall c :: c in r.llamadas[..|r.llamadas| - 1] ==> !c.Notificar?
  {
    if o.listado.Returned? {
      var unidades := o.listado.value;
      var e := Recorrer(unidades, Pasadas(unidades, o), |unidades|);
      forall c | c in e.llamadas
        ensures !c.Notificar?
      {
        LlamadasDelBucle(unidades, o, c);
      }
      if e.aborto.None? {
        var r := Ejecutar(mail, o);
        assert r.llamadas[..|r.llamadas| - 1] == e.llamadas;
      }
    }
  }

  /** In a whole run, delete is called for a unit only when its fetch returned items,
      register only after delete returned true, update only after register returned
      true, and only for listed units. The rows bulk-loaded for a unit are exactly the
      items its fetch returned, never an empty list. */
  lemma {:induction false} PasosDeEjecucion(mail: Mail, o: Oraculos, j: nat, filas: seq<Item>)
    ensures Eliminar(j) in Ejecutar(mail, o).llamadas ==>
              o.listado.Returned? && j < |o.listado.value| && |o.items(j)| > 0
    ensures Registrar(j, filas) in Ejecutar(mail, o).llamadas ==>
              && o.listado.Returned? && j < |o.listado.value|
              && filas == o.items(j) && |filas| > 0 && o.eliminar(j) == Returned(true)
    ensures Actualizar(j) in Ejecutar(mail, o).llamadas ==>
              && o.listado.Returned? && j < |o.listado.value| && |o.items(j)| > 0
              && o.eliminar(j) == Returned(true) && o.registrar(j, o.items(j)) == Returned(true)
  {
    if o.listado.Returned? {
      var unidades := o.listado.value;
      var e := Recorrer(unidades, Pasadas(unidades, o), |unidades|);
      assert forall c :: c in Ejecutar(mail, o).llamadas && !c.Notificar? ==> c in e.llamadas;
      if Eliminar(j) in e.llamadas {
        LlamadasDelBucle(unidades, o, Eliminar(j));
      }
      if Registrar(j, filas) in e.llamadas {
        LlamadasDelBucle(unidades, o, Registrar(j, filas));
      }
      if Actualizar(j) in e.llamadas {
        LlamadasDelBucle(unidades, o, Actualizar(j));
      }
    }
  }

  /** The first unit whose pass throws ends the run: the exception escapes with the
      calls of the earlier units (whose effects stand) and of that unit, and no mail. */
  lemma {:induction false} AbortoDeEjecucion(mail: Mail, o: Oraculos, j: nat)
    requires o.listado.Returned? && j < |o.listado.value|
    requires forall i :: 0 <= i < j ==> !ProcesarUnidad(i, o).aporte.Aborto?
    requires ProcesarUnidad(j, o).aporte.Aborto?
    ensures var unidades := o.listado.value;
            var u := ProcesarUnidad(j, o);
            Ejecutar(mail, o) == Abortada(u.aporte.mensaje, Recorrer(unidades, Pasadas(unidades, o), j).llamadas + u.llamadas)
  {
    var unidades := o.listado.value;
    var ps := Pasadas(unidades, o);
    SinAborto(unidades, ps, j);
    AbortoEnUnidad(unidades, ps, j);
  }

  /** The classification of a completed run: success exactly when every unit went
      through cleanly (so an empty listing is a success), total failure exactly when
      there is at least one unit and every unit added a row, partial otherwise. */
  lemma {:induction false} ClasificacionDeEjecucion(mail: Mail, o: Oraculos)
    requires Ejecutar(mail, o).Completada?
    ensures var unidades := o.listado.value;
            var c := Clasificar(|Ejecutar(mail, o).errados|, |unidades|);
            && (c == TodoCorrecto <==> forall j :: 0 <= j < |unidades| ==> ProcesarUnidad(j, o).aporte == Limpio)
            && (c == TodoFallido <==>
                  |unidades| > 0 && forall j :: 0 <= j < |unidades| ==> ProcesarUnidad(j, o).aporte.Fila?)
  {
    var unidades := o.listado.value;
    var ps := Pasadas(unidades, o);
    SinAborto(unidades, ps, |unidades|);
    FilasEnOrden(unidades, ps, |unidades|);
    var idx := ConFila(ps, |unidades|);
    if idx != [] {
      assert ps[idx[0]].aporte.Fila?;
    }
  }

  /** The rows of a completed run: one per unit whose pass ended on a row, in listing
      order, naming the unit's code and its reason. */
  lemma {:induction false} FilasDeEjecucion(mail: Mail, o: Oraculos)
    requires Ejecutar(mail, o).Completada?
    ensures var unidades := o.listado.value;
            var idx := ConFila(Pasadas(unidades, o), |unidades|);
            var r := Ejecutar(mail, o);
            && |r.errados| == |idx|
            && forall m :: 0 <= m < |idx| ==>
                 r.errados[m] == Observacion(unidades[idx[m]].SecEjec, ProcesarUnidad(idx[m], o).aporte.motivo)
  {
    var unidades := o.listado.value;
    FilasEnOrden(unidades, Pasadas(unidades, o), |unidades|);
  }

  /** The body of a completed run is the header with the classification text in place
      of the placeholder, then the table whose tbody holds the rows joined by spaces. */
  lemma {:induction false} CuerpoDeEjecucion(mail: Mail, o: Oraculos)
    requires Ejecutar(mail, o).Completada?
    ensures var r := Ejecutar(mail, o);
            r.cuerpo == PlantillaAntes + Texto(Clasificar(|r.errados|, |o.listado.value|)) + PlantillaDespues
                        + TablaAntes + Join(FilasHtml(r.errados), ' ') + TablaDespues
  {
    var r := Ejecutar(mail, o);
    var detalle := Detalle(|r.errados|, |o.listado.value|);
    assert r.cuerpo == Cuerpo(detalle, r.errados);
    CuerpoForma(detalle, r.errados);
  }

  /** Step outcomes as the repository's methods produce them: delete, register and
      update return true or throw, never false. */
  ghost predicate ComoRepositorio(o: Oraculos)
  {
    && (forall i: nat :: o.eliminar(i) != Returned(false) && o.actualizar(i) != Returned(false))
    && (forall i: nat, filas: seq<Item> :: o.registrar(i, filas) != Returned(false))
  }

  /** The step outcomes of the repository as written, given SQL Server, the bulk loader,
      the HTTP server and the XML parser: the listing's rows, and for the unit at each
      listed position the items its fetch returns and the results of the repository's
      delete and update for its code; the bulk register writes the rows it is given. */
  function DelRepositorio(sql: Consulta -> RespuestaSql, bulk: CargaMasiva -> Option<string>,
                          servidor: PostRequest -> HttpReply, parser: ParserXml): (o: Oraculos)
    ensures o.listado.Returned? <==> sql(ConsultaListado).Filas?
    ensures o.listado.Returned? ==> o.listado.value == sql(ConsultaListado).filas
    ensures o.listado.Threw? ==> o.listado.message == sql(ConsultaListado).mensaje
    ensures o.listado.Returned? ==> forall i :: 0 <= i < |o.listado.value| ==>
              && o.items(i) == ItemsObtenidos(o.listado.value[i].UrlWebService, servidor, parser)
              && o.eliminar(i) == ResultadoSql(sql(ConsultaEliminar(o.listado.value[i].SecEjec)))
              && o.actualizar(i) == ResultadoSql(sql(ConsultaActualizar(o.listado.value[i].SecEjec)))
    ensures forall i: nat, filas: seq<Item> :: o.registrar(i, filas) == ResultadoCarga(bulk(CargaMasiva(TablaDestino, 50000, 10000, filas)))
  {
    var listado: Outcome<seq<WebServiceEjecutar>> :=
      match sql(ConsultaListado)
      case Filas(filas) => Returned(filas)
      case ErrorSql(m) => Threw(m);
    var unidades := if listado.Returned? then listado.value else [];
    Oraculos(
      listado,
      (i: nat) => if i < |unidades| then ItemsObtenidos(unidades[i].UrlWebService, servidor, parser) else [],
      (i: nat) => if i < |unidades| then ResultadoSql(sql(ConsultaEliminar(unidades[i].SecEjec))) else Returned(true),
      (i: nat, filas: seq<Item>) => ResultadoCarga(bulk(CargaMasiva(TablaDestino, 50000, 10000, filas))),
      (i: nat) => if i < |unidades| then ResultadoSql(sql(ConsultaActualizar(unidades[i].SecEjec))) else Returned(true))
  }

  /** The repository as written satisfies `ComoRepositorio`: none of its steps returns false. */
  lemma {:induction false} RepositorioComoEscrito(sql: Consulta -> RespuestaSql, bulk: CargaMasiva -> Option<string>,
                                                  servidor: PostRequest -> HttpReply, parser: ParserXml)
    ensures ComoRepositorio(DelRepositorio(sql, bulk, servidor, parser))
  {
    var o := DelRepositorio(sql, bulk, servidor, parser);
    var unidades := if o.listado.Returned? then o.listado.value else [];
    forall i: nat
      ensures o.eliminar(i) != Returned(false) && o.actualizar(i) != Returned(false)
    {
      if i < |unidades| {
        assert o.eliminar(i) == ResultadoSql(sql(ConsultaEliminar(unidades[i].SecEjec)));
        assert o.actualizar(i) == ResultadoSql(sql(ConsultaActualizar(unidades[i].SecEjec)));
      } else {
        assert o.eliminar(i) == Returned(true) && o.actualizar(i) == Returned(true);
      }
    }
    forall i: nat, filas: seq<Item>
      ensures o.registrar(i, filas) != Returned(false)
    {
      assert o.registrar(i, filas) == ResultadoCarga(bulk(CargaMasiva(TablaDestino, 50000, 10000, filas)));
    }
  }

  /** One unit with steps that never return false: its only possible row is the "no
      records" one, and, unless a step throws, it goes through cleanly exactly when its
      fetch returned items. */
  lemma {:induction false} UnidadConRepositorio(i: nat, o: Oraculos)
    requires ComoRepositorio(o)
    ensures ProcesarUnidad(i, o).aporte.Fila? ==> ProcesarUnidad(i, o).aporte.motivo == SinRegistros
    ensures !ProcesarUnidad(i, o).aporte.Aborto? ==> (ProcesarUnidad(i, o).aporte == Limpio <==> |o.items(i)| > 0)
  {
    assert o.eliminar(i) != Returned(false);
    assert o.registrar(i, o.items(i)) != Returned(false);
    assert o.actualizar(i) != Returned(false);
  }

  /** With the repository as written, the only row a completed run can hold is the
      "no records" one, and a unit goes through cleanly exactly when its fetch returned
      items: the other three row texts are never produced. */
  lemma {:induction false} ConRepositorio(mail: Mail, o: Oraculos)
    requires ComoRepositorio(o)
    requires Ejecutar(mail, o).Completada?
    ensures forall m :: 0 <= m < |Ejecutar(mail, o).errados| ==> Ejecutar(mail, o).errados[m].motivo == SinRegistros
    ensures forall j :: 0 <= j < |o.listado.value| ==>
              (ProcesarUnidad(j, o).aporte == Limpio <==> |o.items(j)| > 0)
  {
    var unidades := o.listado.value;
    var ps := Pasadas(unidades, o);
    SinAborto(unidades, ps, |unidades|);
    FilasEnOrden(unidades, ps, |unidades|);
    forall j | 0 <= j < |unidades|
      ensures ps[j].aporte.Fila? ==> ps[j].aporte.motivo == SinRegistros
      ensures ps[j].aporte == Limpio <==> |o.items(j)| > 0
    {
      UnidadConRepositorio(j, o);
    }
  }

  /** A completed run over the repository as written holds only "no records" rows: the
      rows for a failed delete, register or update are never produced. */
  lemma {:induction false} ConRepositorioEscrito(mail: Mail, sql: Consulta -> RespuestaSql, bulk: CargaMasiva -> Option<string>,
                                                 servidor: PostRequest -> HttpReply, parser: ParserXml)
    requires Ejecutar(mail, DelRepositorio(sql, bulk, servidor, parser)).Completada?
    ensures var r := Ejecutar(mail, DelRepositorio(sql, bulk, servidor, parser));
            forall m :: 0 <= m < |r.errados| ==> r.errados[m].motivo == SinRegistros
  {
    RepositorioComoEscrito(sql, bulk, servidor, parser);
    ConRepositorio(mail, DelRepositorio(sql, bulk, servidor, parser));
  }

  // ---------------------------------------------------------------- EjecutarProceso

  /** The body of the loop in `EjecutarProceso` for the unit at position `i`: fetch,
      then delete, register and update, each only after the previous step returned
      true; a false result records the unit's reason and moves on to the next unit, an
      exception stops at once. The unit's code is attached to its row by the caller. */
  method ProcesarInvocacion(i: nat, o: Oraculos) returns (r: Unidad)
    ensures r == ProcesarUnidad(i, o)
  {
    var items := o.items(i);
    if |items| <= 0 {
      return Unidad([Obtener(i)], Fila(SinRegistros));
    }

    var hanSidoEliminados := o.eliminar(i);
    if hanSidoEliminados.Threw? {
      return Unidad([Obtener(i), Eliminar(i)], Aborto(hanSidoEliminados.message));
    }
    if !hanSidoEliminados.value {
      return Unidad([Obtener(i), Eliminar(i)], Fila(NoEliminados));
    }

    var hanSidoRegistrados := o.registrar(i, items);
    if hanSidoRegistrados.Threw? {
      return Unidad([Obtener(i), Eliminar(i), Registrar(i, items)], Aborto(hanSidoRegistrados.message));
    }
    if !hanSidoRegistrados.value {
      return Unidad([Obtener(i), Eliminar(i), Registrar(i, items)], Fila(NoRegistrados));
    }

    var haSidoActualizado := o.actualizar(i);
    if haSidoActualizado.Threw? {
      return Unidad(Pasos(i, items), Aborto(haSidoActualizado.message));
    }
    if !haSidoActualizado.value {
      return Unidad(Pasos(i, items), Fila(NoActualizado));
    }
    return Unidad(Pasos(i, items), Limpio);
  }

  /** `EjecutarProceso`: the listing, the loop over the pending units, then the report.
      An exception from a step leaves the loop at once and escapes the method without
      any mail being sent. */
  method EjecutarProceso(conexion: string, numeroReintentosMaximo: int, mail: Mail, o: Oraculos)
    returns (r: Ejecucion)
    ensures r == Ejecutar(mail, o)
  {
    var mensajeRespuesta := Plantilla;
    assert |Marcador| > 0;
    var llamadas := [Listar];
    if o.listado.Threw? {
      return Abortada(o.listado.message, llamadas);
    }
    var listaWebService := o.listado.value;
    ghost var pasadas := Pasadas(listaWebService, o);
    var listaErrados: seq<Observacion> := [];
    var excepcion: Option<string> := None;
    for i := 0 to |listaWebService|
      invariant Recorrer(listaWebService, pasadas, i) == Estado(listaErrados, llamadas, None)
    {
      var unidad := ProcesarInvocacion(i, o);
      llamadas := llamadas + unidad.llamadas;
      match unidad.aporte {
        case Limpio =>
        case Fila(motivo) =>
          listaErrados := listaErrados + [Observacion(listaWebService[i].SecEjec, motivo)];
        case Aborto(m) =>
          excepcion := Some(m);
          AbortoPersiste(listaWebService, pasadas, i + 1, |listaWebService|);
          assert Recorrer(listaWebService, pasadas, |listaWebService|) == Estado(listaErrados, llamadas, excepcion);
          break;
      }
    }
    assert Recorrer(listaWebService, pasadas, |listaWebService|) == Estado(listaErrados, llamadas, excepcion);
    if excepcion.Some? {
      return Abortada(excepcion.value, llamadas);
    }

    var detalle := Detalle(|listaErrados|, |listaWebService|);
    var listadoDetalle := Tabla(listaErrados);
    mensajeRespuesta := ReplaceAll(mensajeRespuesta, Marcador, detalle);
    mensajeRespuesta := mensajeRespuesta + listadoDetalle;
    llamadas := llamadas + [Notificar(mail, Asunto, mensajeRespuesta)];
    r := Completada(listaErrados, mensajeRespuesta, llamadas);
  }
}

/** The data-access steps of the pipeline (ProcesarItemGastoPIPSG/Repositorio.cs).
    Every external system is a parameter: the HTTP server, the XML-to-object parser,
    SQL Server (stored procedures and the bulk loader), the address parser and the
    SMTP server. What the source catches, the model returns; what it rethrows, the
    model returns as `Threw`. */
module Repositorio {
  import opened Resultados
  import opened Textos
  import opened Respuesta

  /** A pending unit, as the listing procedure returns it. */
  datatype WebServiceEjecutar = WebServiceEjecutar(SecEjec: string, Anio: int, UrlWebService: string)

  /** Mail settings resolved at start-up. */
  datatype Mail = Mail(Servidor: string, Puerto: int, Usuario: string, Clave: string, De: string, Para: string)

  // ---------------------------------------------------------------- SQL Server

  const ProcListado := "dbo.02A_GenerarListadoEjecutora"
  const ProcEliminar := "dbo.02B_EliminarItemGastoPipSgPorEjecutora"
  const ProcActualizar := "dbo.02C_ActualizarEjecutora"
  const TablaDestino := "dbo.ItemGastoPIPSG"
  const TiempoEsperaConsulta := 1200

  /** One stored-procedure call: its name, its `@SecEjec` parameter if any, its timeout. */
  datatype Consulta = Consulta(procedimiento: string, secEjec: Option<string>, commandTimeout: int)

  /** What SQL Server answers to a call (opening the connection included). */
  datatype RespuestaSql = Filas(filas: seq<WebServiceEjecutar>) | ErrorSql(mensaje: string)

  /** One `SqlBulkCopy.WriteToServer`: the settings in force and the rows written. */
  datatype CargaMasiva = CargaMasiva(tabla: string, batchSize: int, bulkCopyTimeout: int, filas: seq<Item>)

  const ConsultaListado := Consulta(ProcListado, None, TiempoEsperaConsulta)

  function ConsultaEliminar(secEjec: string): Consulta
  {
    Consulta(ProcEliminar, Some(secEjec), TiempoEsperaConsulta)
  }

  function ConsultaActualizar(secEjec: string): Consulta
  {
    Consulta(ProcActualizar, Some(secEjec), TiempoEsperaConsulta)
  }

  /** What a step built on one stored procedure returns: true when the call succeeds,
      its failure rethrown otherwise; never false. */
  function ResultadoSql(respuesta: RespuestaSql): (r: Outcome<bool>)
    ensures r != Returned(false)
    ensures r.Returned? <==> respuesta.Filas?
    ensures r.Threw? ==> r.message == respuesta.mensaje
  {
    if respuesta.ErrorSql? then Threw(respuesta.mensaje) else Returned(true)
  }

  /** What the bulk register returns given the loader's error, if any: true when the
      write succeeds, the error rethrown otherwise; never false. */
  function ResultadoCarga(error: Option<string>): (r: Outcome<bool>)
    ensures r != Returned(false)
    ensures r.Returned? <==> error.None?
    ensures r.Threw? ==> r.message == error.value
  {
    if error.Some? then Threw(error.value) else Returned(true)
  }

  // ---------------------------------------------------------------- HTTP

  /** A POST: target URL, body, media type and request headers in the order added. */
  datatype PostRequest = PostRequest(url: string, content: string, mediaType: string, headers: seq<(string, string)>)

  /** The server's reply, or a failure before any reply (connection, timeout, …). */
  datatype HttpReply = Response(status: int, body: string) | TransportError(message: string)

  /** `IsSuccessStatusCode`: a status in the 2xx range. */
  predicate IsSuccessStatusCode(status: int)
  {
    200 <= status <= 299
  }

  /** What `XmlStringToObject` yields from a body: `None` when it throws or finds no
      object at the path, otherwise the token at the `Item` property, if there is one. */
  type ParserXml = string -> Option<Option<JToken<Item>>>

  const SoapAction := "SOAPAction"

  /** The request built from the pieces of a descriptor: piece 0 is the target,
      piece 1 the XML body and piece 2 the value of the `SOAPAction` header. */
  function Solicitud(datosRequest: seq<string>): PostRequest
    requires |datosRequest| >= 3
  {
    PostRequest(datosRequest[0], datosRequest[1], "text/xml", [(SoapAction, datosRequest[2])])
  }

  /** The items one fetch returns for a descriptor: every failure (a descriptor with fewer
      than three pieces, a transport error, a non-success status, a parse failure) gives
      the empty list; a success gives the parsed `Items`. */
  function ItemsObtenidos(url: string, servidor: PostRequest -> HttpReply, parser: ParserXml): (items: seq<Item>)
    ensures |Split(url, '|')| < 3 ==> items == []
    ensures |Split(url, '|')| >= 3 ==>
      var reply := servidor(Solicitud(Split(url, '|')));
      && (reply.TransportError? ==> items == [])
      && (reply.Response? && !IsSuccessStatusCode(reply.status) ==> items == [])
      && (reply.Response? && IsSuccessStatusCode(reply.status) && parser(reply.body).None? ==> items == [])
      && (reply.Response? && IsSuccessStatusCode(reply.status) && parser(reply.body).Some? ==>
            items == Mapear(parser(reply.body).value).Items)
  {
    var datosRequest := Split(url, '|');
    if |datosRequest| < 3 then []
    else
      match servidor(Solicitud(datosRequest))
      case TransportError(_) => []
      case Response(status, body) =>
        if !IsSuccessStatusCode(status) then []
        else
          match parser(body)
          case None => []
          case Some(itemToken) => Mapear(itemToken).Items
  }

  /** A descriptor `url|body|action` (more pieces may follow) is sent to `url`, with
      `body` as content and `action` as the `SOAPAction` header. */
  lemma {:induction false} DescriptorPartes(url: string, body: string, action: string, resto: seq<char>)
    requires '|' !in url && '|' !in body && '|' !in action
    ensures var d := if resto == [] then url + "|" + body + "|" + action else url + "|" + body + "|" + action + "|" + resto;
      |Split(d, '|')| >= 3 &&
      Solicitud(Split(d, '|')) == PostRequest(url, body, "text/xml", [(SoapAction, action)])
  {
    var tail := if resto == [] then action else action + "|" + resto;
    var d := if resto == [] then url + "|" + body + "|" + action else url + "|" + body + "|" + action + "|" + resto;
    assert d == url + ['|'] + (body + ['|'] + tail);
    SplitAfterPiece(url, '|', body + ['|'] + tail);
    SplitAfterPiece(body, '|', tail);
    if resto == [] {
      SplitWithoutSeparator(action, '|');
    } else {
      assert tail == action + ['|'] + resto;
      SplitAfterPiece(action, '|', resto);
    }
  }

  /** A descriptor with at most one separator never reaches the server. */
  lemma {:induction false} DescriptorCorto(a: string, b: Option<string>, servidor: PostRequest -> HttpReply, parser: ParserXml)
    requires '|' !in a && (b.Some? ==> '|' !in b.value)
    ensures ItemsObtenidos(if b.Some? then a + "|" + b.value else a, servidor, parser) == []
  {
    if b.Some? {
      SplitAfterPiece(a, '|', b.value);
      SplitWithoutSeparator(b.value, '|');
      assert a + "|" + b.value == a + ['|'] + b.value;
    } else {
      SplitWithoutSeparator(a, '|');
    }
  }

  // ---------------------------------------------------------------- SMTP

  /** A parsed mailbox address; `MailboxAddress.Parse` is a parameter. */
  type Direccion(==)

  datatype MimeMessage = MimeMessage(Sender: Direccion, To: seq<Direccion>, Subject: string, HtmlBody: string)

  /** One SMTP exchange: connect (STARTTLS), authenticate, send the message. */
  datatype SesionSmtp = SesionSmtp(servidor: string, puerto: int, usuario: string, clave: string, mensaje: MimeMessage)

  /** Whether the report left: the exchange that delivered it, or nothing. */
  datatype Entrega = Enviado(sesion: SesionSmtp) | NoEnviado

  /** The exchange `SendMail` opens: the configured server and port, authenticated as
      the sender `De` with the configured password. */
  function SesionDe(configuracion: Mail, email: MimeMessage): SesionSmtp
  {
    SesionSmtp(configuracion.Servidor, configuracion.Puerto, configuracion.De, configuracion.Clave, email)
  }

  /** `MailboxAddress.Parse` of every piece, in order, or `None` when some piece does
      not parse. */
  function Direcciones(piezas: seq<string>, parse: string -> Option<Direccion>): (r: Option<seq<Direccion>>)
    ensures r.Some? <==> forall k :: 0 <= k < |piezas| ==> parse(piezas[k]).Some?
    ensures r.Some? ==> |r.value| == |piezas| && forall k :: 0 <= k < |piezas| ==> parse(piezas[k]) == Some(r.value[k])
  {
    if piezas == [] then Some([])
    else
      var previas := Direcciones(piezas[..|piezas| - 1], parse);
      var ultima := parse(piezas[|piezas| - 1]);
      if previas.Some? && ultima.Some? then Some(previas.value + [ultima.value]) else None
  }

  // ---------------------------------------------------------------- the repository

  class Repositorio {
    const Conexion: string
    const TiempoEsperaCargadoMasivo: int
    const BatchSize: int
    const SOAP_ACTION: string

    constructor(conexion: string)
      ensures Conexion == conexion
      ensures TiempoEsperaCargadoMasivo == 10000 && BatchSize == 50000 && SOAP_ACTION == SoapAction
      ensures Valid()
    {
      Conexion := conexion;
      TiempoEsperaCargadoMasivo := 10000;
      BatchSize := 50000;
      SOAP_ACTION := SoapAction;
    }

    /** The fixed settings the constructor gives every repository. */
    ghost predicate Valid()
    {
      TiempoEsperaCargadoMasivo == 10000 && BatchSize == 50000 && SOAP_ACTION == SoapAction
    }

    /** Step 1: the pending units, all rows of the listing procedure; its failure is rethrown. */
    method ObtenerListadoInvocaciones(sql: Consulta -> RespuestaSql) returns (r: Outcome<seq<WebServiceEjecutar>>)
      ensures sql(ConsultaListado).Filas? ==> r == Returned(sql(ConsultaListado).filas)
      ensures sql(ConsultaListado).ErrorSql? ==> r == Threw(sql(ConsultaListado).mensaje)
    {
      var respuesta := sql(ConsultaListado);
      match respuesta
      case ErrorSql(mensaje) => r := Threw(mensaje);
      case Filas(filas) => r := Returned(filas);
    }

    /** Step 2: the unit's items from the remote service, with at most one POST:
        exactly one when the descriptor has three or more pieces, none otherwise.
        `solicitudes` are the requests handed to `HttpClient`. The retry count is accepted
        and never read. Nothing is thrown: every failure yields the empty list. */
    method ObtenerItemsPorEjecutora(ejecutora: WebServiceEjecutar, numeroReintentosMaximo: int,
                                    servidor: PostRequest -> HttpReply, parser: ParserXml)
      returns (itemsRespuesta: seq<Item>, ghost solicitudes: seq<PostRequest>)
      requires Valid()
      ensures itemsRespuesta == ItemsObtenidos(ejecutora.UrlWebService, servidor, parser)
      ensures |Split(ejecutora.UrlWebService, '|')| < 3 ==> solicitudes == []
      ensures |Split(ejecutora.UrlWebService, '|')| >= 3 ==> solicitudes == [Solicitud(Split(ejecutora.UrlWebService, '|'))]
    {
      itemsRespuesta := [];
      solicitudes := [];
      var datosRequest := Split(ejecutora.UrlWebService, '|');
      if |datosRequest| < 3 {
        // datosRequest[2] is out of range: the exception is caught, the list stays empty
        return;
      }
      var cabeceras := [(SOAP_ACTION, datosRequest[2])];
      var encabezados: seq<(string, string)> := [];
      for k := 0 to |cabeceras|
        invariant encabezados == cabeceras[..k]
      {
        encabezados := encabezados + [cabeceras[k]];
      }
      assert encabezados == cabeceras;
      var solicitud := PostRequest(datosRequest[0], datosRequest[1], "text/xml", encabezados);
      solicitudes := [solicitud];
      var response := servidor(solicitud);
      match response
      case TransportError(_) =>
      case Response(status, body) =>
        if IsSuccessStatusCode(status) {
          var respuestaItems := parser(body);
          if respuestaItems.Some? {
            itemsRespuesta := Mapear(respuestaItems.value).Items;
          }
        }
    }

    /** Step 3: delete the unit's earlier items. Returns true or rethrows; never false. */
    method EliminarItemsPorEjecutora(ejecutora: WebServiceEjecutar, sql: Consulta -> RespuestaSql) returns (r: Outcome<bool>)
      ensures r != Returned(false)
      ensures r.Returned? <==> sql(ConsultaEliminar(ejecutora.SecEjec)).Filas?
      ensures r.Threw? ==> r.message == sql(ConsultaEliminar(ejecutora.SecEjec)).mensaje
      ensures r == ResultadoSql(sql(ConsultaEliminar(ejecutora.SecEjec)))
    {
      var respuesta := sql(ConsultaEliminar(ejecutora.SecEjec));
      if respuesta.ErrorSql? {
        r := Threw(respuesta.mensaje);
      } else {
        r := Returned(true);
      }
    }

    /** Step 4: bulk-load the rows into the item table with batch size 50000 and timeout
        10000 set before writing. Returns true or rethrows; never false. */
    method RegistrarItemsPorLotes(valores: seq<Item>, bulk: CargaMasiva -> Option<string>)
      returns (r: Outcome<bool>, ghost carga: CargaMasiva)
      requires Valid()
      ensures carga == CargaMasiva(TablaDestino, 50000, 10000, valores)
      ensures r != Returned(false)
      ensures r.Returned? <==> bulk(carga).None?
      ensures r.Threw? ==> r.message == bulk(carga).value
      ensures r == ResultadoCarga(bulk(carga))
    {
      carga := CargaMasiva(TablaDestino, BatchSize, TiempoEsperaCargadoMasivo, valores);
      var error := bulk(CargaMasiva(TablaDestino, BatchSize, TiempoEsperaCargadoMasivo, valores));
      if error.Some? {
        r := Threw(error.value);
      } else {
        r := Returned(true);
      }
    }

    /** Step 5: mark the unit processed. Returns true or rethrows; never false. */
    method ActualizarEjecutora(ejecutora: WebServiceEjecutar, sql: Consulta -> RespuestaSql) returns (r: Outcome<bool>)
      ensures r != Returned(false)
      ensures r.Returned? <==> sql(ConsultaActualizar(ejecutora.SecEjec)).Filas?
      ensures r.Threw? ==> r.message == sql(ConsultaActualizar(ejecutora.SecEjec)).mensaje
      ensures r == ResultadoSql(sql(ConsultaActualizar(ejecutora.SecEjec)))
    {
      var respuesta := sql(ConsultaActualizar(ejecutora.SecEjec));
      if respuesta.ErrorSql? {
        r := Threw(respuesta.mensaje);
      } else {
        r := Returned(true);
      }
    }

    /** Step 6: mail the report. One recipient per `;`-separated piece of `Para`, in
        order; the sender is `De`, who also authenticates. Any failure (an address that
        does not parse, an SMTP error) is swallowed: the result only says whether the
        message left, and it leaves exactly when every address parses and SMTP accepts
        the exchange built from them. */
    method SendMail(configuracion: Mail, asunto: string, mensaje: string,
                    parse: string -> Option<Direccion>, smtp: SesionSmtp -> Option<string>)
      returns (entrega: Entrega)
      ensures entrega.Enviado? ==>
        var destinatarios := Split(configuracion.Para, ';');
        var email := entrega.sesion.mensaje;
        && parse(configuracion.De) == Some(email.Sender)
        && |email.To| == |destinatarios|
        && (forall k :: 0 <= k < |destinatarios| ==> parse(destinatarios[k]) == Some(email.To[k]))
        && email.Subject == asunto && email.HtmlBody == mensaje
        && entrega.sesion == SesionDe(configuracion, email)
        && smtp(entrega.sesion).None?
      ensures entrega.NoEnviado? ==>
        || parse(configuracion.De).None?
        || (exists k :: 0 <= k < |Split(configuracion.Para, ';')| && parse(Split(configuracion.Para, ';')[k]).None?)
        || smtp(SesionDe(configuracion, MimeMessage(parse(configuracion.De).value,
                                                   Direcciones(Split(configuracion.Para, ';'), parse).value, asunto, mensaje))).Some?
      ensures
        && parse(configuracion.De).Some?
        && (forall k :: 0 <= k < |Split(configuracion.Para, ';')| ==> parse(Split(configuracion.Para, ';')[k]).Some?)
        && smtp(SesionDe(configuracion, MimeMessage(parse(configuracion.De).value,
                                                   Direcciones(Split(configuracion.Para, ';'), parse).value, asunto, mensaje))).None?
        ==> entrega.Enviado?
    {
      var sender := parse(configuracion.De);
      if sender.None? {
        return NoEnviado;
      }
      var destinatarios := Split(configuracion.Para, ';');
      var to: seq<Direccion> := [];
      for k := 0 to |destinatarios|
        invariant Direcciones(destinatarios[..k], parse) == Some(to)
      {
        var direccion := parse(destinatarios[k]);
        assert destinatarios[..k + 1][..k] == destinatarios[..k];
        if direccion.None? {
          assert Direcciones(destinatarios, parse).None?;
          return NoEnviado;
        }
        to := to + [direccion.value];
      }
      assert destinatarios[..|destinatarios|] == destinatarios;
      var email := MimeMessage(sender.value, to, asunto, mensaje);
      var sesion := SesionSmtp(configuracion.Servidor, configuracion.Puerto, configuracion.De, configuracion.Clave, email);
      if smtp(sesion).Some? {
        return NoEnviado;
      }
      entrega := Enviado(sesion);
    }
  }
}

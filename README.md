# ProcesarItemGastoPIPSG in Dafny

ProcesarItemGastoPIPSG is a console job. It loads the expense items ("items de gasto") of
the pending executing units ("unidades ejecutoras") from a remote SOAP service into SQL
Server, then mails a report. On start-up it resolves its settings: each setting comes from
a command-line argument when that argument is non-empty, and otherwise from the
configuration. It then:

1. lists the pending units;
2. takes each unit in turn through four steps:
   - fetch its items from the service;
   - delete its earlier items;
   - bulk-register the new ones;
   - mark the unit processed;
3. records one HTML error row for each unit that fails;
4. classifies the run as a success, a total failure or a partial success;
5. mails an HTML body made of a header holding the classification text, followed by a
   table of the error rows.

This project models that behaviour and proves properties of it. There are seven modules:

- `Resultados`: `Option` and `Outcome`. An `Outcome` is either a returned value or a
  thrown exception with its message.
- `Textos`: the three .NET string operations the job relies on.
  - `String.Split(char)`, `String.Join(char, …)` and `String.Replace(string, string)`.
  - Round trips between split and join.
  - The replacement of a placeholder that occurs exactly once.
- `Respuesta`: the service response and its single-or-array JSON converter.
- `Repositorio`: the `Repositorio` class. Each step is a method, and every external system
  is a parameter:
  - the HTTP server and the XML parser;
  - SQL Server procedures and the bulk loader;
  - the address parser and the SMTP server.
- `Reporte`: the error rows, the classification and the body.
- `Programa`: `EjecutarProceso` as an imperative method with its loop. It is proved equal to
  a functional description of the run, and the run-level properties are lemmas about that
  description.
  - Each step the loop calls is an oracle indexed by the unit's position in the listing;
    the bulk register is also given the rows it loads, the items the fetch returned.
  - An oracle may return true, return false or throw.
  - So the model reaches both the row-adding branches and the exception that ends the run
    without mail.
  - `ComoRepositorio` and `ConRepositorio` cover steps that never return false.
    `DelRepositorio` builds the oracles of the repository as written, and
    `ConRepositorioEscrito` applies the result to it.
- `Principal`: `Main`. It covers the argument block, the precedence of arguments over the
  configuration and the call of `EjecutarProceso`.

`ObtenerItemsPorEjecutora` takes `numeroReintentosMaximo` but never reads it. There is no
retry loop, so each call makes at most one POST: exactly one when the descriptor has three or
more `|`-separated pieces, none otherwise (Repositorio.cs:59,65-78).

## Model

| member | source | states |
|---|---|---|
| Textos.Split | ProcesarItemGastoPIPSG/Repositorio.cs:65 | `String.Split(char)` always returns at least one piece, and no piece contains the separator |
| Textos.JoinSplit | ProcesarItemGastoPIPSG/Program.cs:136 | joining the pieces of a split with the same separator gives back the original text |
| Textos.SplitJoin | ProcesarItemGastoPIPSG/Program.cs:136 | splitting a join of separator-free pieces gives back exactly those pieces |
| Textos.SplitAfterPiece | ProcesarItemGastoPIPSG/Repositorio.cs:65 | a separator-free piece followed by the separator is split off whole, as the first piece |
| Textos.SplitWithoutSeparator | ProcesarItemGastoPIPSG/Repositorio.cs:187 | a text without the separator splits into one piece, itself |
| Textos.Join | ProcesarItemGastoPIPSG/Program.cs:136 | `string.Join(' ', …)`: no pieces give ""; the result starts with the first piece; it holds the separator exactly when there are two pieces or more, or a piece holds it |
| Textos.ReplaceAll | ProcesarItemGastoPIPSG/Program.cs:138 | `String.Replace`: replacing the pattern by itself changes nothing, and a replacement of the same length keeps the length |
| Textos.ReplaceAbsent | ProcesarItemGastoPIPSG/Program.cs:138 | `String.Replace` leaves a text with no occurrence of the pattern unchanged |
| Textos.ReplaceFirst | ProcesarItemGastoPIPSG/Program.cs:138 | text before the first occurrence is kept, the occurrence becomes the replacement, and the rest is replaced independently |
| Textos.NoMatchBefore | ProcesarItemGastoPIPSG/Program.cs:78 | the pattern cannot start inside a prefix if one of its characters occurs neither in that prefix nor earlier in the pattern |
| Respuesta.ReadJson | ProcesarItemGastoPIPSG/RespuestaServicio.cs:71-79 | an array token gives its elements in order; any other token gives a one-element list holding it |
| Respuesta.ReadJsonNormaliza | ProcesarItemGastoPIPSG/RespuestaServicio.cs:74-78 | a single value and a one-element array read the same; a single token's list is determined by the element |
| Respuesta.CanConvert | ProcesarItemGastoPIPSG/RespuestaServicio.cs:66-69 | true if and only if the requested type is `List<T>` of the converter's element type |
| Respuesta.WriteJson | ProcesarItemGastoPIPSG/RespuestaServicio.cs:86-89 | writing always ends in `NotImplementedException`, for every value |
| Respuesta.Mapear | ProcesarItemGastoPIPSG/RespuestaServicio.cs:13-15 | without an `Item` property, `Items` keeps its default empty list; with one, it is what the converter reads |
| Repositorio.ItemsObtenidos | ProcesarItemGastoPIPSG/Repositorio.cs:59-100 | each failure gives the empty list: fewer than three pieces, a transport error, a non-2xx status or a failed parse; a success gives exactly the parsed `Items` |
| Repositorio.DescriptorPartes | ProcesarItemGastoPIPSG/Repositorio.cs:65-78 | for a descriptor of a URL, a body and an action separated by bars (more pieces may follow), the POST goes to the URL with the body as content and the action as the `SOAPAction` header |
| Repositorio.DescriptorCorto | ProcesarItemGastoPIPSG/Repositorio.cs:65-67 | a descriptor with one or two pieces yields the empty list |
| Repositorio.ResultadoSql | ProcesarItemGastoPIPSG/Repositorio.cs:103-125 | a stored-procedure step never returns false: true exactly when the call succeeds, otherwise the failure's message is rethrown |
| Repositorio.ResultadoCarga | ProcesarItemGastoPIPSG/Repositorio.cs:128-153 | the bulk register never returns false: true exactly when the write succeeds, otherwise the loader's error is rethrown |
| Repositorio.Direcciones | ProcesarItemGastoPIPSG/Repositorio.cs:186-189 | the addresses parsed from the pieces, one per piece and in order, exactly when every piece parses |
| Repositorio.Repositorio.constructor | ProcesarItemGastoPIPSG/Repositorio.cs:27-35 | keeps the connection string; fixes timeout 10000, batch size 50000 and header name `SOAPAction` |
| Repositorio.Repositorio.ObtenerListadoInvocaciones | ProcesarItemGastoPIPSG/Repositorio.cs:38-56 | returns every row of the listing procedure, or rethrows its failure |
| Repositorio.Repositorio.ObtenerItemsPorEjecutora | ProcesarItemGastoPIPSG/Repositorio.cs:59-100 | returns `ItemsObtenidos` and never throws; it makes at most one POST: exactly one request is handed to `HttpClient` when the descriptor has three or more pieces, none otherwise; the retry count plays no part |
| Repositorio.Repositorio.EliminarItemsPorEjecutora | ProcesarItemGastoPIPSG/Repositorio.cs:103-125 | never returns false; returns true exactly when the procedure succeeds, and otherwise rethrows its message |
| Repositorio.Repositorio.RegistrarItemsPorLotes | ProcesarItemGastoPIPSG/Repositorio.cs:128-153 | writes the rows to `dbo.ItemGastoPIPSG` with batch size 50000 and timeout 10000; never returns false; returns true or rethrows |
| Repositorio.Repositorio.ActualizarEjecutora | ProcesarItemGastoPIPSG/Repositorio.cs:155-177 | never returns false; returns true exactly when the procedure succeeds, and otherwise rethrows its message |
| Repositorio.Repositorio.SendMail | ProcesarItemGastoPIPSG/Repositorio.cs:180-204 | one recipient per `;`-separated piece of `Para`, in order; sender `De`; given subject and body; authenticates as `De`; every failure is swallowed; the message leaves exactly when `De` and every piece parse and SMTP accepts the session built from those addresses |
| Reporte.FilaError | ProcesarItemGastoPIPSG/Program.cs:99-124 | a row is `<tr><td>`, the unit's code, `</td><td>`, the reason's message and `</td></tr>`, so the code and the message can be read back from it |
| Reporte.FilasHtml | ProcesarItemGastoPIPSG/Program.cs:97-126 | one row per failing unit, in order, each built from the unit's code and its reason |
| Reporte.MensajeInyectivo | ProcesarItemGastoPIPSG/Program.cs:97-126 | the four row messages are pairwise different |
| Reporte.FilasDistinguibles | ProcesarItemGastoPIPSG/Program.cs:103-119 | two rows for the same unit are equal exactly when the reasons are equal, so a failed delete and a failed register produce different rows |
| Reporte.Clasificar | ProcesarItemGastoPIPSG/Program.cs:130-134 | success exactly when there are no rows; total failure exactly when there are rows and as many as units; partial otherwise |
| Reporte.TextoInyectivo | ProcesarItemGastoPIPSG/Program.cs:130-134 | the three classification texts are pairwise different |
| Reporte.Cuerpo | ProcesarItemGastoPIPSG/Program.cs:136-139 | the body is the header with the classification text in place of the placeholder, then `</p>`, then the table |
| Reporte.Tabla | ProcesarItemGastoPIPSG/Program.cs:136 | the table always opens with the header row and `<tbody>`; with no rows it is that header followed at once by `</tbody></table>`; the full shape, rows joined by one space, is stated by `CuerpoForma` |
| Reporte.MarcadorUnico | ProcesarItemGastoPIPSG/Program.cs:78 | `mensaje_respuesta` does not start anywhere in the header before its own position |
| Reporte.EncabezadoForma | ProcesarItemGastoPIPSG/Program.cs:138 | the header after `Replace` is the text before the placeholder, then the classification text, then `</p>`; the placeholder is replaced exactly once |
| Reporte.CuerpoForma | ProcesarItemGastoPIPSG/Program.cs:136-139 | the body is the header with the text in place of the placeholder, then the table whose tbody is the rows joined by one space |
| Programa.ProcesarUnidad | ProcesarItemGastoPIPSG/Program.cs:93-127 | one loop pass calls a non-empty prefix of fetch, delete, register and update; a unit that goes through cleanly made all four calls |
| Programa.Ejecutar | ProcesarItemGastoPIPSG/Program.cs:72-152 | every run starts with the listing; a completed run has no more rows than units and mails its body as its last call |
| Programa.PasosDeUnidad | ProcesarItemGastoPIPSG/Program.cs:93-127 | a unit calls a non-empty prefix of fetch, delete, register and update, and register is given exactly the fetched items; each step runs exactly when the steps before it returned true |
| Programa.LlamadasDeUnidad | ProcesarItemGastoPIPSG/Program.cs:103-126 | each call a unit makes is one of its own four steps, made only after the steps before it returned true; its register carries its fetched items |
| Programa.Recorrer | ProcesarItemGastoPIPSG/Program.cs:91-128 | after k units there are never more than k rows, and the listing is the first call |
| Programa.AbortoPersiste | ProcesarItemGastoPIPSG/Program.cs:145-149 | once a step has thrown, the remaining units change nothing |
| Programa.FilasEnOrden | ProcesarItemGastoPIPSG/Program.cs:91-128 | while nothing has thrown, there is one row per unit whose pass ended on a row, in listing order, naming that unit's code and reason |
| Programa.SinAborto | ProcesarItemGastoPIPSG/Program.cs:91-128 | the loop reaches its end if and only if no unit's step throws |
| Programa.LlamadasJustificadas | ProcesarItemGastoPIPSG/Program.cs:91-128 | every call after the listing belongs to the pass of a unit the loop reached |
| Programa.AbortoEnUnidad | ProcesarItemGastoPIPSG/Program.cs:145-149 | a throwing unit ends the loop: its exception, the earlier units' calls plus its own, and the earlier rows |
| Programa.LlamadasDelBucle | ProcesarItemGastoPIPSG/Program.cs:91-128 | the loop never mails; delete, register and update run only for listed units, and only after the previous steps returned true; a register loads exactly the unit's fetched items, never none |
| Programa.CorreoAlFinal | ProcesarItemGastoPIPSG/Program.cs:141-149 | a failed listing ends the run at once; an aborted run sends no mail; a completed run mails exactly once, as its last call |
| Programa.PasosDeEjecucion | ProcesarItemGastoPIPSG/Program.cs:103-126 | over a whole run, update is called for a unit only after delete and register returned true for it, and register only after delete; the rows bulk-loaded for a unit are exactly the items its fetch returned, and never an empty list |
| Programa.AbortoDeEjecucion | ProcesarItemGastoPIPSG/Program.cs:145-149 | the first throwing unit ends the run with its message, no mail, and the calls already made, whose effects stand |
| Programa.ClasificacionDeEjecucion | ProcesarItemGastoPIPSG/Program.cs:130-134 | a completed run is a success if and only if every unit went through cleanly (an empty listing included); it is a total failure if and only if there is a unit and every unit added a row |
| Programa.FilasDeEjecucion | ProcesarItemGastoPIPSG/Program.cs:91-128 | the rows of a completed run are exactly those of the units that added one, in listing order, with code and reason |
| Programa.CuerpoDeEjecucion | ProcesarItemGastoPIPSG/Program.cs:136-139 | the mailed body is the header around the classification text, followed by the table of the run's rows |
| Programa.UnidadConRepositorio | ProcesarItemGastoPIPSG/Program.cs:103-126 | if steps never return false, a unit's only possible row is "no records"; without an exception, it goes through cleanly exactly when its fetch found items |
| Programa.ConRepositorio | ProcesarItemGastoPIPSG/Program.cs:103-126 | when no step returns false, a completed run holds only "no records" rows, and a unit goes through cleanly exactly when its fetch found items |
| Programa.DelRepositorio | ProcesarItemGastoPIPSG/Program.cs:83-121 | the outcomes the `Repositorio` methods give the loop: the listing's rows or its error, and for each listed unit the fetch's `ItemsObtenidos`, and delete and update as `ResultadoSql` of their procedures; the bulk register is `ResultadoCarga` of writing the given rows to the item table with batch size 50000 and timeout 10000 |
| Programa.RepositorioComoEscrito | ProcesarItemGastoPIPSG/Repositorio.cs:103-177 | the step outcomes that the repository's own methods give never include false |
| Programa.ConRepositorioEscrito | ProcesarItemGastoPIPSG/Program.cs:103-126 | a completed run over the repository as written holds only "no records" rows, so the other three row texts are never produced |
| Programa.ProcesarInvocacion | ProcesarItemGastoPIPSG/Program.cs:93-127 | the loop body for one unit: it makes the calls and adds the row or exception that `PasosDeUnidad` characterises |
| Programa.EjecutarProceso | ProcesarItemGastoPIPSG/Program.cs:72-152 | the listing, the loop, and then the report and the mail; proved equal to the run that the lemmas above describe |
| Principal.ParametrosDe | ProcesarItemGastoPIPSG/Program.cs:18-43 | setting k is argument k when there is one; with fewer than eight arguments, the rest stay "" |
| Principal.LeerParametros | ProcesarItemGastoPIPSG/Program.cs:26-43 | reading stops at the first missing argument (the caught `IndexOutOfRangeException`); the result is `ParametrosDe` |
| Principal.Elegir | ProcesarItemGastoPIPSG/Program.cs:53 | a non-empty argument wins; otherwise the configuration key is used, and a missing key throws |
| Principal.Numero | ProcesarItemGastoPIPSG/Program.cs:54 | `int.Parse` either gives the parsed number or throws on the text |
| Principal.Configurar | ProcesarItemGastoPIPSG/Program.cs:51-63 | each mail setting and the retry count come from the argument when it is non-empty, and otherwise from its key; a missing connection string becomes ""; a missing key that fails is always one of the seven read with `GetSection`; an unparsable port or retry count fails too |
| Principal.ConfigurarCompleto | ProcesarItemGastoPIPSG/Program.cs:51-63 | start-up gets past the settings exactly when every setting without an argument has its key and both numbers parse |
| Principal.ArgumentosCompletos | ProcesarItemGastoPIPSG/Program.cs:28-63 | with eight non-empty arguments, the configuration makes no difference |
| Principal.CorreoConAjustes | ProcesarItemGastoPIPSG/Program.cs:53-67 | a completed program mails, as its last call, with the server, sender and recipients chosen by precedence |
| Principal.Proceso | ProcesarItemGastoPIPSG/Program.cs:16-68 | a missing key that ends start-up is one of the seven read with `GetSection` and is absent from the configuration; a program that gets past start-up first lists the units |
| Principal.Iniciar | ProcesarItemGastoPIPSG/Program.cs:16-68 | `Main`: arguments, then settings, then `EjecutarProceso`; a failing setting ends the program before any step |

## Left out

- HTTP transport (`HttpClient`, its 120-minute timeout, headers on the wire) is a function parameter. A request whose header value fails validation or whose URL is invalid throws inside `HttpClient` before anything is sent; the model counts it as a request handed over and leaves that failure to the server parameter, which answers it with `TransportError` (caught, so the fetch gives the empty list as the source does). So are SQL Server (connections, Dapper, `SqlBulkCopy`), SMTP and `MailboxAddress.Parse`. `XmlStringToObject` is an opaque parser parameter, together with its reflection path.
- `ArrayListToDataTable` is not modelled: the register step and the bulk loader receive the fetched item list itself. The `ProxyManager` and `FileManager` singletons are created but never used, so they are left out.
- `Item` is an opaque value. Its forty scalar columns and its `DateTime.Now` timestamp play no part in the logic.
- Console logging, `async`/`await` and `GetAwaiter().GetResult()` are left out; they only sequence the calls, which the model keeps in order.
- `Main` has no configuration loading. The merged result of appsettings.json and the environment is a map parameter, and `int.Parse` is a parameter returning `None` where it would throw.
- `Principal.Configurar`: a connection string missing from the configuration is null in the source and "" here. `Principal.LeerParametros`: a null argument is not representable. Neither affects the model, because the connection string reaches no oracle.
- `Programa.EjecutarProceso`: the connection string and the retry count are accepted and passed nowhere. The step outcomes are oracles indexed by position, standing for the repository built from that connection. The fetch oracle returns the items, which already fold in the fetch's own failure handling.
- `Programa.EjecutarProceso`: the source calls the `Repositorio` methods. The model calls oracles instead. `DelRepositorio` builds the oracles from the same functions the methods are proved equal to (`ItemsObtenidos`, `ResultadoSql`, `ResultadoCarga`), and `RepositorioComoEscrito` proves they never return false. The retry count's lack of effect is stated on `ObtenerItemsPorEjecutora`.
- `Programa.EjecutarProceso`: the mailed body is recorded as a `Notificar` call. `SendMail` is modelled on its own, and it swallows every failure, so the run completes whether or not the mail leaves.
- `Programa.EjecutarProceso`: error rows are kept as (unit code, reason) records and rendered as HTML by `FilaError` when the table is built. The text is the same that the source appends to `listaErrados` at each `continue`.
- `Programa.ProcesarInvocacion`: the loop body of `EjecutarProceso` is a method of its own. Each `continue` becomes a `return`, and a rethrown exception becomes the `Aborto` result.
- `Repositorio.Repositorio.SendMail`: it authenticates with `De`, as the source does (`Usuario` is never used for SMTP). The SMTP exchange is one oracle call, so connect, authenticate and send are not told apart.

/** Start-up (`Main` in ProcesarItemGastoPIPSG/Program.cs): the eight positional
    command-line arguments, the configuration (appsettings.json and the environment,
    merged into one key/value map) and the call of `EjecutarProceso` with the resolved
    settings. A non-empty argument wins over the configuration; an empty or missing
    argument falls back to its configuration key. `int.Parse` is a parameter. */
module Principal {
  import opened Resultados
  import opened Repositorio
  import opened Programa

  /** The eight positional settings, in the order of the command line. */
  datatype Parametros = Parametros(
    conexionBd: string,
    numeroReintentos: string,
    servidorSmtp: string,
    puertoSmtp: string,
    usuarioSmtp: string,
    claveSmtp: string,
    deSmtp: string,
    paraSmtp: string)

  /** The settings in command-line order. */
  function Valores(p: Parametros): seq<string>
  {
    [p.conexionBd, p.numeroReintentos, p.servidorSmtp, p.puertoSmtp,
     p.usuarioSmtp, p.claveSmtp, p.deSmtp, p.paraSmtp]
  }

  const NumeroDeParametros := 8

  /** The setting at position `k`: the argument when there is one, "" otherwise. */
  function Argumento(args: seq<string>, k: nat): string
  {
    if k < |args| then args[k] else ""
  }

  /** What the argument block leaves in the eight settings: each setting takes its
      argument, and once an argument is missing that setting and every later one keep
      their initial "". */
  function ParametrosDe(args: seq<string>): (p: Parametros)
    ensures forall k :: 0 <= k < NumeroDeParametros ==> Valores(p)[k] == (if k < |args| then args[k] else "")
  {
    Parametros(Argumento(args, 0), Argumento(args, 1), Argumento(args, 2), Argumento(args, 3),
               Argumento(args, 4), Argumento(args, 5), Argumento(args, 6), Argumento(args, 7))
  }

  /** The argument block of `Main`: the settings start out "", then are read from
      `args` in order; reading past the end throws `IndexOutOfRangeException`, which the
      block catches, so the settings not yet read keep "". A string here is never null,
      so `IsNullOrEmpty(a) ? "" : a` is `a` itself. */
  method LeerParametros(args: seq<string>) returns (p: Parametros)
    ensures p == ParametrosDe(args)
  {
    p := Parametros("", "", "", "", "", "", "", "");
    if |args| <= 0 { return; }
    p := p.(conexionBd := args[0]);
    if |args| <= 1 { return; }
    p := p.(numeroReintentos := args[1]);
    if |args| <= 2 { return; }
    p := p.(servidorSmtp := args[2]);
    if |args| <= 3 { return; }
    p := p.(puertoSmtp := args[3]);
    if |args| <= 4 { return; }
    p := p.(usuarioSmtp := args[4]);
    if |args| <= 5 { return; }
    p := p.(claveSmtp := args[5]);
    if |args| <= 6 { return; }
    p := p.(deSmtp := args[6]);
    if |args| <= 7 { return; }
    p := p.(paraSmtp := args[7]);
  }

  /** The merged configuration: key to value. */
  type Configuracion = map<string, string>

  const ClaveServidor := "Servidor"
  const ClavePuerto := "Puerto"
  const ClaveUsuario := "Usuario"
  const ClaveClave := "Clave"
  const ClaveDe := "De"
  const ClavePara := "Para"
  const ClaveReintentos := "NumeroReintentosMaximo"
  /** `GetConnectionString("ConexionPcm")` reads this key. */
  const ClaveConexion := "ConnectionStrings:ConexionPcm"

  /** Why start-up throws: a key read with `GetSection(clave).Value.ToString()` is
      missing (a null value), or `int.Parse` rejects a text. */
  datatype Causa = ClaveAusente(clave: string) | NumeroInvalido(texto: string)

  /** A value, or the exception that ends start-up. */
  datatype Lectura<T> = Leido(valor: T) | Fallo(causa: Causa)
  {
    predicate IsFailure() { Fallo? }

    function PropagateFailure<U>(): Lectura<U>
      requires Fallo?
    {
      Fallo(causa)
    }

    function Extract(): T
      requires Leido?
    {
      valor
    }
  }

  /** A text setting that the argument gives, or else the configuration key does. */
  predicate Resuelto(argumento: string, config: Configuracion, clave: string, valor: string)
  {
    if argumento != "" then valor == argumento else clave in config && valor == config[clave]
  }

  /** A number setting: the text chosen as for `Resuelto`, parsed. */
  predicate ResueltoNumero(argumento: string, config: Configuracion, clave: string,
                           parseInt: string -> Option<int>, valor: int)
  {
    if argumento != "" then parseInt(argumento) == Some(valor)
    else clave in config && parseInt(config[clave]) == Some(valor)
  }

  /** `!string.IsNullOrEmpty(argumento) ? argumento : Configuration.GetSection(clave).Value.ToString()`. */
  function Elegir(argumento: string, config: Configuracion, clave: string): (r: Lectura<string>)
    ensures r.Leido? ==> Resuelto(argumento, config, clave, r.valor)
    ensures r.Fallo? <==> argumento == "" && clave !in config
    ensures r.Fallo? ==> r.causa == ClaveAusente(clave)
  {
    if argumento != "" then Leido(argumento)
    else if clave in config then Leido(config[clave])
    else Fallo(ClaveAusente(clave))
  }

  /** `int.Parse`. */
  function Numero(texto: string, parseInt: string -> Option<int>): (r: Lectura<int>)
    ensures r.Leido? <==> parseInt(texto).Some?
    ensures r.Leido? ==> parseInt(texto) == Some(r.valor)
    ensures r.Fallo? ==> r.causa == NumeroInvalido(texto)
  {
    match parseInt(texto)
    case Some(n) => Leido(n)
    case None => Fallo(NumeroInvalido(texto))
  }

  /** The settings `EjecutarProceso` is called with. */
  datatype Ajustes = Ajustes(conexion: string, numeroReintentos: int, mail: Mail)

  /** The mail settings, in the order of their initializer, then the connection string
      (a missing one is passed on as "") and the retry count. */
  function Configurar(p: Parametros, config: Configuracion, parseInt: string -> Option<int>): (r: Lectura<Ajustes>)
    ensures r.Leido? ==>
              && Resuelto(p.servidorSmtp, config, ClaveServidor, r.valor.mail.Servidor)
              && ResueltoNumero(p.puertoSmtp, config, ClavePuerto, parseInt, r.valor.mail.Puerto)
              && Resuelto(p.usuarioSmtp, config, ClaveUsuario, r.valor.mail.Usuario)
              && Resuelto(p.claveSmtp, config, ClaveClave, r.valor.mail.Clave)
              && Resuelto(p.deSmtp, config, ClaveDe, r.valor.mail.De)
              && Resuelto(p.paraSmtp, config, ClavePara, r.valor.mail.Para)
              && ResueltoNumero(p.numeroReintentos, config, ClaveReintentos, parseInt, r.valor.numeroReintentos)
              && r.valor.conexion == (if p.conexionBd != "" then p.conexionBd
                                      else if ClaveConexion in config then config[ClaveConexion] else "")
    ensures r.Fallo? && r.causa.ClaveAusente? ==>
              r.causa.clave in {ClaveServidor, ClavePuerto, ClaveUsuario, ClaveClave, ClaveDe, ClavePara, ClaveReintentos}
              && r.causa.clave !in config
  {
    var servidor :- Elegir(p.servidorSmtp, config, ClaveServidor);
    var textoPuerto :- Elegir(p.puertoSmtp, config, ClavePuerto);
    var puerto :- Numero(textoPuerto, parseInt);
    var usuario :- Elegir(p.usuarioSmtp, config, ClaveUsuario);
    var clave :- Elegir(p.claveSmtp, config, ClaveClave);
    var de :- Elegir(p.deSmtp, config, ClaveDe);
    var para :- Elegir(p.paraSmtp, config, ClavePara);
    var conexion := if p.conexionBd != "" then p.conexionBd
                    else if ClaveConexion in config then config[ClaveConexion] else "";
    var textoReintentos :- Elegir(p.numeroReintentos, config, ClaveReintentos);
    var reintentos :- Numero(textoReintentos, parseInt);
    Leido(Ajustes(conexion, reintentos, Mail(servidor, puerto, usuario, clave, de, para)))
  }

  /** Start-up succeeds exactly when every setting without an argument has its key and
      both numbers parse. */
  lemma {:induction false} ConfigurarCompleto(p: Parametros, config: Configuracion, parseInt: string -> Option<int>)
    ensures Configurar(p, config, parseInt).Leido? <==>
              && (p.servidorSmtp != "" || ClaveServidor in config)
              && (p.puertoSmtp != "" || ClavePuerto in config)
              && parseInt(if p.puertoSmtp != "" then p.puertoSmtp else config[ClavePuerto]).Some?
              && (p.usuarioSmtp != "" || ClaveUsuario in config)
              && (p.claveSmtp != "" || ClaveClave in config)
              && (p.deSmtp != "" || ClaveDe in config)
              && (p.paraSmtp != "" || ClavePara in config)
              && (p.numeroReintentos != "" || ClaveReintentos in config)
              && parseInt(if p.numeroReintentos != "" then p.numeroReintentos else config[ClaveReintentos]).Some?
  {
  }

  /** With all eight arguments given and non-empty, the configuration plays no part:
      any two configurations give the same settings. */
  lemma {:induction false} ArgumentosCompletos(args: seq<string>, parseInt: string -> Option<int>,
                                               config1: Configuracion, config2: Configuracion)
    requires |args| >= NumeroDeParametros
    requires forall k :: 0 <= k < NumeroDeParametros ==> args[k] != ""
    ensures Configurar(ParametrosDe(args), config1, parseInt) == Configurar(ParametrosDe(args), config2, parseInt)
  {
    var p := ParametrosDe(args);
    assert Valores(p)[0] != "" && Valores(p)[1] != "" && Valores(p)[2] != "" && Valores(p)[3] != "";
    assert Valores(p)[4] != "" && Valores(p)[5] != "" && Valores(p)[6] != "" && Valores(p)[7] != "";
  }

  /** How the program ends: start-up throws, or `EjecutarProceso` runs (an exception it
      rethrows ends the program through `GetResult`). */
  datatype Terminacion = FalloDeConfiguracion(causa: Causa) | Terminada(ejecucion: Ejecucion)

  /** The whole program for given arguments, configuration and step outcomes. */
  function Proceso(args: seq<string>, config: Configuracion, parseInt: string -> Option<int>, o: Oraculos): (t: Terminacion)
    ensures t.FalloDeConfiguracion? && t.causa.ClaveAusente? ==>
              t.causa.clave in {ClaveServidor, ClavePuerto, ClaveUsuario, ClaveClave, ClaveDe, ClavePara, ClaveReintentos}
              && t.causa.clave !in config
    ensures t.Terminada? ==> |t.ejecucion.llamadas| >= 1 && t.ejecucion.llamadas[0] == Listar
  {
    match Configurar(ParametrosDe(args), config, parseInt)
    case Fallo(c) => FalloDeConfiguracion(c)
    case Leido(a) => Terminada(Ejecutar(a.mail, o))
  }

  /** A completed program mails the report to the resolved settings: the sender, the
      recipient list and the server come from the argument or, failing that, the key. */
  lemma {:induction false} CorreoConAjustes(args: seq<string>, config: Configuracion,
                                            parseInt: string -> Option<int>, o: Oraculos)
    requires Proceso(args, config, parseInt, o).Terminada?
    requires Proceso(args, config, parseInt, o).ejecucion.Completada?
    ensures var r := Proceso(args, config, parseInt, o).ejecucion;
            && |r.llamadas| >= 1
            && var c := r.llamadas[|r.llamadas| - 1];
            && c.Notificar?
            && Resuelto(Argumento(args, 2), config, ClaveServidor, c.mail.Servidor)
            && Resuelto(Argumento(args, 6), config, ClaveDe, c.mail.De)
            && Resuelto(Argumento(args, 7), config, ClavePara, c.mail.Para)
  {
    var a := Configurar(ParametrosDe(args), config, parseInt).valor;
    CorreoAlFinal(a.mail, o);
  }

  /** `Main`: the argument block, the settings, then `EjecutarProceso`. */
  method Iniciar(args: seq<string>, config: Configuracion, parseInt: string -> Option<int>, o: Oraculos)
    returns (t: Terminacion)
    ensures t == Proceso(args, config, parseInt, o)
  {
    var p := LeerParametros(args);
    var ajustes := Configurar(p, config, parseInt);
    if ajustes.Fallo? {
      return FalloDeConfiguracion(ajustes.causa);
    }
    var a := ajustes.valor;
    var r := EjecutarProceso(a.conexion, a.numeroReintentos, a.mail, o);
    return Terminada(r);
  }
}

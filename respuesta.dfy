/** The response object of the remote service and its single-or-array converter
    (ProcesarItemGastoPIPSG/RespuestaServicio.cs). A JSON token is abstract here: it is
    either an array of already converted elements or any other single token. */
module Respuesta {
  import opened Resultados

  /** One expense item. Its ~40 scalar columns and insertion timestamp play no part in
      the pipeline's logic, so an item is an opaque value compared only for equality. */
  type Item(==, !new)

  /** The JSON token at the `Item` property: an array, or any other (single) token. */
  datatype JToken<T> = JArray(elements: seq<T>) | JSingle(value: T)

  /** Run-time type descriptors, just enough for `CanConvert`. */
  datatype TipoClr = ListaDe(element: TipoClr) | Nombrado(name: string)

  /** `SingleOrArrayConverter<T>.ReadJson`: an array becomes its elements, any other
      token a list holding just that element. */
  function ReadJson<T>(token: JToken<T>): (r: seq<T>)
    ensures token.JArray? ==> |r| == |token.elements| && forall k :: 0 <= k < |r| ==> r[k] == token.elements[k]
    ensures token.JSingle? ==> |r| == 1 && r[0] == token.value
  {
    match token
    case JArray(xs) => xs
    case JSingle(x) => [x]
  }

  /** A single value and a one-element array are read as the same list, and both give a
      list that the element alone determines. */
  lemma {:induction false} ReadJsonNormaliza<T>(x: T, y: T)
    ensures ReadJson(JSingle(x)) == ReadJson(JArray([x]))
    ensures ReadJson(JSingle(x)) == ReadJson(JSingle(y)) <==> x == y
  {
    assert ReadJson(JSingle(x))[0] == x;
  }

  /** `CanConvert`: the converter applies exactly to `List<T>` for its element type. */
  function CanConvert(elemento: TipoClr, objectType: TipoClr): (r: bool)
    ensures r ==> objectType.ListaDe? && objectType.element == elemento
    ensures objectType == ListaDe(elemento) ==> r
  {
    objectType == ListaDe(elemento)
  }

  /** `CanWrite` is false. */
  const CanWrite := false

  /** The message of a `NotImplementedException` created without one. */
  const MensajeNoImplementado := "The method or operation is not implemented."

  /** `WriteJson` writes nothing: it throws `NotImplementedException` for every value. */
  function WriteJson<T>(value: seq<T>): (r: Outcome<()>)
    ensures r.Threw?
  {
    Threw(MensajeNoImplementado)
  }

  /** `RespuestaServicio`: the list of items of one response. */
  datatype RespuestaServicio = RespuestaServicio(Items: seq<Item>)

  /** Mapping a parsed response: without an `Item` property, `Items` keeps its default
      empty list; with one, the converter reads it. */
  function Mapear(itemToken: Option<JToken<Item>>): (r: RespuestaServicio)
    ensures itemToken.None? ==> r.Items == []
    ensures itemToken.Some? ==> r.Items == ReadJson(itemToken.value)
  {
    match itemToken
    case None => RespuestaServicio([])
    case Some(t) => RespuestaServicio(ReadJson(t))
  }
}

/** The front end's API client (`estadoCeroAPI`): the data it exchanges
    with the backend and the error message each call raises when the reply is
    not a success. The HTTP transport itself is an input: a call is modelled
    from the reply it receives.
 */
module ApiClient {

  import opened Wrappers
  import Text

  datatype PreguntaBinaria = PreguntaBinaria(id: string, pregunta: string, contexto: string, categoria: string)

  /** `EstadoCeroCompleto`; its free-form `contexto` record is not modelled. */
  datatype EstadoCeroCompleto = EstadoCeroCompleto(
    id: string, momento: string, fecha: string, preguntas: seq<PreguntaBinaria>)

  datatype Sensacion = Expansion | Contraccion

  datatype RespuestaSacral = RespuestaSacral(
    preguntaId: string, sensacion: Sensacion, intensidad: int, nota: Option<string>)

  /** One entry of a validation-error list: its `msg` field, when it has one. */
  datatype ErrorItem = ErrorItem(msg: Option<string>)

  /** The `detail` field of an error body, by its run-time type. */
  datatype Detail =
    | DetailString(text: string)
    | DetailArray(items: seq<ErrorItem>)
    | DetailOther

  /** A reply: a 2xx status with its parsed body, or an error body. */
  datatype Reply<T> = Success(body: T) | Failure(detail: Detail)

  const VerificarError := "Error verificando momento"
  const IniciarFallback := "Error iniciando Estado Cero"
  const ResponderError := "Error enviando respuesta"
  const SintetizarError := "Error sintetizando dirección"
  const ChatError := "Error en chat"
  const FinalizarError := "Error finalizando Estado Cero"
  const EspejoHoyError := "Error obteniendo espejo"
  const EspejoActualizarError := "Error actualizando espejo"
  const ContextoError := "Error obteniendo contexto"

  /** What `join` puts between the messages of an error list. */
  const Separador: string := ", "

  /** `Array.prototype.join` renders a missing `msg` as the empty string. */
  function ItemText(e: ErrorItem): string {
    e.msg.GetOr("")
  }

  function ItemTexts(items: seq<ErrorItem>): (r: seq<string>)
    ensures |r| == |items|
    ensures forall i :: 0 <= i < |items| ==> r[i] == ItemText(items[i])
  {
    seq(|items|, i requires 0 <= i < |items| => ItemText(items[i]))
  }

  /** The message thrown when `iniciar` fails. */
  function IniciarErrorMessage(d: Detail): (r: string)
    ensures d.DetailString? ==> r == d.text
    ensures d.DetailOther? ==> r == IniciarFallback
  {
    match d
    case DetailString(t) => t
    case DetailArray(items) => Text.Join(Separador, ItemTexts(items))
    case DetailOther => IniciarFallback
  }

  /** Every message of an error list appears in the thrown text, in order,
      separated from the next one by `", "`. */
  lemma IniciarErrorListsAll(items: seq<ErrorItem>, k: nat)
    requires k < |items|
    ensures Text.OccursAt(IniciarErrorMessage(DetailArray(items)), ItemTexts(items)[k],
                          Text.JoinOffset(Separador, ItemTexts(items), k))
    ensures k + 1 < |items| ==>
              Text.OccursAt(IniciarErrorMessage(DetailArray(items)), Separador,
                            Text.JoinOffset(Separador, ItemTexts(items), k) + |ItemTexts(items)[k]|)
  {
    Text.JoinParts(Separador, ItemTexts(items), k);
  }

  /** An empty error list gives an empty message, and a list of one gives
      that one message alone. */
  lemma IniciarErrorShortLists(items: seq<ErrorItem>)
    requires |items| <= 1
    ensures |items| == 0 ==> IniciarErrorMessage(DetailArray(items)) == ""
    ensures |items| == 1 ==> IniciarErrorMessage(DetailArray(items)) == ItemText(items[0])
  {
    assert IniciarErrorMessage(DetailArray(items)) == Text.Join(Separador, ItemTexts(items));
  }

  /** `iniciar`: the created session, or an error carrying the message above. */
  function Iniciar(reply: Reply<EstadoCeroCompleto>): (r: Result<EstadoCeroCompleto, string>)
    ensures r.Ok? <==> reply.Success?
    ensures reply.Success? ==> r.value == reply.body
    ensures reply.Failure? ==> r.error == IniciarErrorMessage(reply.detail)
  {
    match reply
    case Success(b) => Ok(b)
    case Failure(d) => Err(IniciarErrorMessage(d))
  }

  /** The calls whose failure message does not depend on the reply. */
  datatype Call = Verificar | Responder | Sintetizar | Chat | Finalizar
                | EspejoHoy | EspejoActualizar | Contexto

  function FixedErrorMessage(c: Call): string {
    match c
    case Verificar => VerificarError
    case Responder => ResponderError
    case Sintetizar => SintetizarError
    case Chat => ChatError
    case Finalizar => FinalizarError
    case EspejoHoy => EspejoHoyError
    case EspejoActualizar => EspejoActualizarError
    case Contexto => ContextoError
  }

  /** `verificarMomento`, `responder`, `sintetizar`, `chat` and `finalizar`,
      and the daily mirror's `obtenerHoy` and `actualizar` and the temporal
      context's `obtener`: the body on success, else a fixed message that
      ignores whatever the error body says. */
  function CallFixed<T>(c: Call, reply: Reply<T>): (r: Result<T, string>)
    ensures r.Ok? <==> reply.Success?
    ensures reply.Success? ==> r.value == reply.body
    ensures reply.Failure? ==> r.error == FixedErrorMessage(c)
  {
    match reply
    case Success(b) => Ok(b)
    case Failure(_) => Err(FixedErrorMessage(c))
  }

  /** The fixed messages tell the calls apart, and none of them is the
      fallback of `iniciar`. */
  lemma FixedMessagesDistinct(c1: Call, c2: Call)
    ensures FixedErrorMessage(c1) == FixedErrorMessage(c2) <==> c1 == c2
    ensures FixedErrorMessage(c1) != IniciarFallback
  {
  }

  /** The failure message of a fixed-message call is independent of the
      error body. */
  lemma FixedIgnoresDetail<T>(c: Call, d1: Detail, d2: Detail)
    ensures CallFixed<T>(c, Failure(d1)) == CallFixed<T>(c, Failure(d2))
  {
  }
}

/** The energetic layer (`DisenoHumano`, layer 4): the Human Design type,
    authority and strategy of the user, the reminder shown for the
    authority, and the two checks on a decision (response time, strategy).
 */
module HumanDesign {

  import opened Wrappers
  import Assoc

  datatype Tipo = Generador | GeneradorManifestador | Manifestador | Proyector | Reflector

  datatype Autoridad =
    | Sacral | Emocional | Esplenica | EgoManifestado | EgoProyectado
    | SelfProjected | Mental | Lunar

  datatype Estrategia = Responder | Informar | EsperarInvitacion | EsperarCicloLunar

  datatype DisenoHumano = DisenoHumano(
    tipo: Tipo,
    autoridad: Autoridad,
    estrategia: Estrategia,
    perfil: Option<string>,
    cruzEncarnacion: Option<string>,
    canales: seq<string>,
    centrosDefinidos: seq<string>,
    tiempoRespuestaOptimo: Option<string>,
    notSelfTheme: Option<string>,
    signature: Option<string>)

  function EstrategiaTexto(e: Estrategia): string {
    match e
    case Responder => "Responder, no iniciar"
    case Informar => "Informar antes de actuar"
    case EsperarInvitacion => "Esperar invitación"
    case EsperarCicloLunar => "Esperar ciclo lunar (28 días)"
  }

  /** The reminder texts. */
  const TextoSacral: string := "Escucha tu respuesta visceral inmediata (< 3 seg). Un 'uh-huh' (sí) o 'uh-uh' (no) desde el sacro."
  const TextoEmocional: string := "Espera la ola emocional. No hay verdad en el ahora, solo claridad a través del tiempo."
  const TextoEsplenica: string := "Confía en el primer impulso. Tu intuición habla solo una vez, en el momento presente."
  const TextoEgoManifestado: string := "¿Qué quiere tu corazón? ¿Qué promesa puedes sostener?"
  const TextoEgoProyectado: string := "¿Qué hay en esto para ti? Tu ego debe estar involucrado."
  const TextoSelfProjected: string := "Escucha lo que dices cuando hablas sobre esto. Tu verdad emerge al expresarte."
  const TextoMental: string := "No hay autoridad interna. Habla con otros y siente resonancia en conversación."
  const TextoLunar: string := "Espera el ciclo completo de la luna (28 días) para decisiones importantes."

  /** The reminder table, one entry per authority. */
  const Recordatorios: Assoc.Dict<Autoridad, string> := [
    (Sacral, TextoSacral),
    (Emocional, TextoEmocional),
    (Esplenica, TextoEsplenica),
    (EgoManifestado, TextoEgoManifestado),
    (EgoProyectado, TextoEgoProyectado),
    (SelfProjected, TextoSelfProjected),
    (Mental, TextoMental),
    (Lunar, TextoLunar)
  ]

  /** The text used when the table lacks the authority. */
  function Fallback(e: Estrategia): string {
    "Sigue tu estrategia: " + EstrategiaTexto(e)
  }

  /** `generar_recordatorio`: the table entry, else the strategy fallback. */
  function GenerarRecordatorio(d: DisenoHumano): (r: string)
    ensures Assoc.Get(Recordatorios, d.autoridad).Some? ==> r == Assoc.Get(Recordatorios, d.autoridad).value
    ensures Assoc.Get(Recordatorios, d.autoridad).None? ==> r == Fallback(d.estrategia)
  {
    Assoc.Get(Recordatorios, d.autoridad).GetOr(Fallback(d.estrategia))
  }

  /** The table covers every authority, so the strategy fallback is never
      used: the reminder is always the table's own entry. */
  lemma ReminderNeverFallback(d: DisenoHumano)
    ensures Assoc.HasKey(Recordatorios, d.autoridad)
    ensures Assoc.Get(Recordatorios, d.autoridad) == Some(GenerarRecordatorio(d))
  {
    var i: nat := match d.autoridad
      case Sacral => 0 case Emocional => 1 case Esplenica => 2 case EgoManifestado => 3
      case EgoProyectado => 4 case SelfProjected => 5 case Mental => 6 case Lunar => 7;
    assert Recordatorios[i].0 == d.autoridad;
  }

  /** `validar_tiempo_respuesta`. */
  function ValidarTiempoRespuesta(d: DisenoHumano, segundos: real): (ok: bool)
    ensures d.autoridad == Sacral ==> (ok <==> segundos < 3.0)
    ensures d.autoridad == Esplenica ==> (ok <==> segundos < 2.0)
    ensures d.autoridad == Emocional || d.autoridad == Lunar ==> !ok
    ensures d.autoridad !in {Sacral, Esplenica, Emocional, Lunar} ==> ok
  {
    if d.autoridad == Sacral then segundos < 3.0
    else if d.autoridad == Esplenica then segundos < 2.0
    else if d.autoridad == Emocional then false
    else if d.autoridad == Lunar then false
    else true
  }

  /** Answering faster never turns a valid response time invalid, and a
      splenic answer that is valid is valid for a sacral design too. */
  lemma FasterStaysValid(d: DisenoHumano, s1: real, s2: real)
    requires s1 <= s2
    ensures ValidarTiempoRespuesta(d, s2) ==> ValidarTiempoRespuesta(d, s1)
    ensures ValidarTiempoRespuesta(d.(autoridad := Esplenica), s2)
            ==> ValidarTiempoRespuesta(d.(autoridad := Sacral), s2)
  {
  }

  /** `esta_siguiendo_estrategia`. */
  function SiguiendoEstrategia(d: DisenoHumano, fueInvitado: bool, informoAntes: bool, respondio: bool): (ok: bool)
    ensures d.tipo == Generador || d.tipo == GeneradorManifestador ==> (ok <==> respondio)
    ensures d.tipo == Manifestador ==> (ok <==> informoAntes)
    ensures d.tipo == Proyector ==> (ok <==> fueInvitado)
    ensures d.tipo == Reflector ==> ok
  {
    if d.tipo == Generador || d.tipo == GeneradorManifestador then respondio
    else if d.tipo == Manifestador then informoAntes
    else if d.tipo == Proyector then fueInvitado
    else true
  }

  /** Only the flag that belongs to the type is read: the answer stays the
      same whatever the other two flags are. */
  lemma StrategyReadsOneFlag(d: DisenoHumano, i1: bool, m1: bool, r1: bool, i2: bool, m2: bool, r2: bool)
    requires (d.tipo == Generador || d.tipo == GeneradorManifestador) ==> r1 == r2
    requires d.tipo == Manifestador ==> m1 == m2
    requires d.tipo == Proyector ==> i1 == i2
    ensures SiguiendoEstrategia(d, i1, m1, r1) == SiguiendoEstrategia(d, i2, m2, r2)
  {
  }

  /** `crear_diseno_daniel`: the hard-coded profile. */
  function DisenoDaniel(): (d: DisenoHumano)
    ensures d.tipo == Generador && d.autoridad == Sacral && d.estrategia == Responder
    ensures d.perfil == Some("4/6")
    ensures |d.canales| == 2 && |d.centrosDefinidos| == 3
  {
    DisenoHumano(
      Generador, Sacral, Responder, Some("4/6"),
      Some("Cruz de Ángulo Derecho de la Penetración 2"),
      ["53/54", "51/57"], ["Sacral", "Raíz", "Garganta"],
      Some("< 3 segundos"), Some("frustración"), Some("satisfacción"))
  }

  /** For that profile the checks come down to: answer within three seconds,
      and only in response to something. */
  lemma DanielChecks(s: real, inv: bool, inf: bool, resp: bool)
    ensures ValidarTiempoRespuesta(DisenoDaniel(), s) <==> s < 3.0
    ensures SiguiendoEstrategia(DisenoDaniel(), inv, inf, resp) <==> resp
    ensures GenerarRecordatorio(DisenoDaniel()) == TextoSacral
  {
    Assoc.GetCons(Recordatorios[0], Recordatorios[1..], Sacral);
    assert Recordatorios == [Recordatorios[0]] + Recordatorios[1..];
  }
}

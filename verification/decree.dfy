/** The sacral decree (`DecretoSacral`): an action decided in a session,
    carried out, and later verified with a compliance score.

    The lifecycle is pendiente → en_ejecucion → completado or cancelado, but
    no transition checks the current state. Timestamps (`datetime.utcnow()`)
    are a parameter `ahora`.
 */
module Decree {

  import opened Wrappers

  datatype EstadoDecreto = Pendiente | EnEjecucion | Completado | Cancelado

  datatype Decreto = Decreto(
    fecha: int,
    momento: string,
    direccion: string,
    accion: string,
    validadoContraPilares: bool,
    estado: EstadoDecreto,
    notasEjecucion: Option<string>,
    inicioEjecucion: Option<int>,
    finEjecucion: Option<int>,
    verificacion: Option<string>,
    score: Option<int>,
    sabiduria: Option<string>,
    fechaVerificacion: Option<int>)

  /** Python truthiness of an optional string argument: present and
      non-empty. */
  predicate Given(s: Option<string>) {
    s.Some? && s.value != ""
  }

  /** A newly stored decree: pending, not validated, nothing executed or
      verified yet. */
  function Nuevo(fecha: int, momento: string, direccion: string, accion: string): (r: Decreto)
    ensures r.estado == Pendiente && !r.validadoContraPilares
    ensures r.notasEjecucion.None? && r.inicioEjecucion.None? && r.finEjecucion.None?
    ensures r.verificacion.None? && r.score.None? && r.sabiduria.None?
    ensures EstaActivo(r) && !TieneVerificacion(r) && !FueCumplido(r)
  {
    Decreto(fecha, momento, direccion, accion, false, Pendiente, None, None, None, None, None, None, None)
  }

  /** `fue_cumplido`: completed with a score of at least 70, a missing score
      counting as 0. */
  predicate FueCumplido(d: Decreto) {
    d.estado == Completado && d.score.GetOr(0) >= 70
  }

  /** `tiene_verificacion`. */
  predicate TieneVerificacion(d: Decreto) {
    d.verificacion.Some?
  }

  /** `esta_activo`: neither completed nor cancelled. */
  predicate EstaActivo(d: Decreto) {
    d.estado == Pendiente || d.estado == EnEjecucion
  }

  /** `iniciar_ejecucion`, accepted from any state. */
  function IniciarEjecucion(d: Decreto, ahora: int): (r: Decreto)
    ensures r.estado == EnEjecucion && r.inicioEjecucion == Some(ahora)
    ensures r.(estado := d.estado, inicioEjecucion := d.inicioEjecucion) == d
    ensures EstaActivo(r)
  {
    d.(estado := EnEjecucion, inicioEjecucion := Some(ahora))
  }

  /** `completar_ejecucion`: the notes are replaced only when notes are
      given. */
  function CompletarEjecucion(d: Decreto, notas: Option<string>, ahora: int): (r: Decreto)
    ensures r.estado == Completado && r.finEjecucion == Some(ahora)
    ensures r.notasEjecucion == (if Given(notas) then notas else d.notasEjecucion)
    ensures r.(estado := d.estado, finEjecucion := d.finEjecucion, notasEjecucion := d.notasEjecucion) == d
    ensures !EstaActivo(r)
  {
    d.(estado := Completado, finEjecucion := Some(ahora),
       notasEjecucion := if Given(notas) then notas else d.notasEjecucion)
  }

  /** `cancelar_decreto`: a given reason replaces the notes, prefixed with
      "CANCELADO: "; without one the notes stay. */
  function CancelarDecreto(d: Decreto, razon: Option<string>): (r: Decreto)
    ensures r.estado == Cancelado
    ensures Given(razon) ==> r.notasEjecucion == Some("CANCELADO: " + razon.value)
    ensures !Given(razon) ==> r.notasEjecucion == d.notasEjecucion
    ensures r.(estado := d.estado, notasEjecucion := d.notasEjecucion) == d
    ensures !EstaActivo(r) && !FueCumplido(r)
  {
    d.(estado := Cancelado,
       notasEjecucion := if Given(razon) then Some("CANCELADO: " + razon.value) else d.notasEjecucion)
  }

  /** `registrar_verificacion`: the report and the score are always stored,
      the wisdom only when given. */
  function RegistrarVerificacion(d: Decreto, verificacion: string, score: int, sabiduria: Option<string>, ahora: int): (r: Decreto)
    ensures TieneVerificacion(r) && r.verificacion == Some(verificacion)
    ensures r.score == Some(score) && r.fechaVerificacion == Some(ahora)
    ensures r.sabiduria == (if Given(sabiduria) then sabiduria else d.sabiduria)
    ensures r.(verificacion := d.verificacion, score := d.score, sabiduria := d.sabiduria,
               fechaVerificacion := d.fechaVerificacion) == d
    ensures r.estado == d.estado
  {
    d.(verificacion := Some(verificacion), score := Some(score),
       sabiduria := if Given(sabiduria) then sabiduria else d.sabiduria,
       fechaVerificacion := Some(ahora))
  }

  /** The cancellation note can be told apart from the reason: removing the
      prefix gives the reason back. */
  lemma CancelNoteRoundTrip(d: Decreto, razon: string)
    requires razon != ""
    ensures var n := CancelarDecreto(d, Some(razon)).notasEjecucion.value;
      n[..11] == "CANCELADO: " && n[11..] == razon
  {
  }

  /** A completed and verified decree was fulfilled exactly when the score
      recorded is at least 70, whatever happened before. */
  lemma FulfilledIffScore(d: Decreto, notas: Option<string>, v: string, score: int,
                          sab: Option<string>, t1: int, t2: int)
    ensures FueCumplido(RegistrarVerificacion(CompletarEjecucion(d, notas, t1), v, score, sab, t2)) <==> score >= 70
  {
  }

  /** A fulfilled decree is never active. */
  lemma FulfilledNotActive(d: Decreto)
    ensures FueCumplido(d) ==> !EstaActivo(d)
  {
  }

  // ---------------------------------------------------------------------------
  // Histories
  // ---------------------------------------------------------------------------

  datatype Accion =
    | Iniciar(t: int)
    | Completar(notas: Option<string>, t: int)
    | Cancelar(razon: Option<string>)
    | Verificar(texto: string, s: int, sab: Option<string>, t: int)

  function Aplicar(d: Decreto, a: Accion): Decreto {
    match a
    case Iniciar(t) => IniciarEjecucion(d, t)
    case Completar(n, t) => CompletarEjecucion(d, n, t)
    case Cancelar(r) => CancelarDecreto(d, r)
    case Verificar(v, s, sab, t) => RegistrarVerificacion(d, v, s, sab, t)
  }

  function Ejecutar(d: Decreto, acciones: seq<Accion>): Decreto
    decreases |acciones|
  {
    if |acciones| == 0 then d
    else Ejecutar(Aplicar(d, acciones[0]), acciones[1..])
  }

  /** The state a history leaves, read off the last state-changing action
      (verifications keep the state before them). */
  function UltimoEstado(inicial: EstadoDecreto, acciones: seq<Accion>): EstadoDecreto
    decreases |acciones|
  {
    if |acciones| == 0 then inicial
    else
      EstadoTras(UltimoEstado(inicial, acciones[..|acciones| - 1]), acciones[|acciones| - 1])
  }

  /** Since no transition is guarded, the state after any history is simply
      the one the last lifecycle action set; verification never changes it. */
  lemma {:induction false} EjecutarEstado(d: Decreto, acciones: seq<Accion>)
    ensures Ejecutar(d, acciones).estado == UltimoEstado(d.estado, acciones)
    decreases |acciones|
  {
    if |acciones| > 0 {
      var d1 := Aplicar(d, acciones[0]);
      EjecutarEstado(d1, acciones[1..]);
      UltimoEstadoCons(d.estado, acciones);
    }
  }

  /** The state one action leaves. */
  function EstadoTras(e: EstadoDecreto, a: Accion): EstadoDecreto {
    match a
    case Iniciar(_) => EnEjecucion
    case Completar(_, _) => Completado
    case Cancelar(_) => Cancelado
    case Verificar(_, _, _, _) => e
  }

  /** Reading the history from the front gives the same state. */
  lemma {:induction false} UltimoEstadoCons(inicial: EstadoDecreto, acciones: seq<Accion>)
    requires |acciones| > 0
    ensures UltimoEstado(inicial, acciones) == UltimoEstado(EstadoTras(inicial, acciones[0]), acciones[1..])
    decreases |acciones|
  {
    if |acciones| > 1 {
      var init := acciones[..|acciones| - 1];
      assert init[0] == acciones[0];
      assert init[1..] == acciones[1..][..|acciones| - 2];
      UltimoEstadoCons(inicial, init);
    }
  }

  /** Every history ending in a start leaves the decree active again, even
      after completion or cancellation. */
  lemma RestartReactivates(d: Decreto, acciones: seq<Accion>, t: int)
    ensures EstaActivo(Ejecutar(d, acciones + [Iniciar(t)]))
  {
    EjecutarEstado(d, acciones + [Iniciar(t)]);
  }
}

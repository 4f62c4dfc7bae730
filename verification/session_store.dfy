/** The session store (`useEstadoCeroStore`): the phase of the guided
    session, the session returned by the backend, the answers given so far,
    the emergent direction, and the loading and error flags.
 */
module SessionStore {

  import opened Wrappers
  import opened ApiClient

  datatype Fase = PreInicio | Entrada | ExpansionFase | Preguntas | Sintesis | Validacion | Completado

  datatype Store = Store(
    fase: Fase,
    estadoActual: Option<EstadoCeroCompleto>,
    respuestas: seq<RespuestaSacral>,
    direccion: Option<string>,
    cargando: bool,
    error: Option<string>)

  /** The store as created. */
  function Initial(): (r: Store)
    ensures r.fase == PreInicio && r.estadoActual == None && r.respuestas == []
    ensures r.direccion == None && !r.cargando && r.error == None
  {
    Store(PreInicio, None, [], None, false, None)
  }

  function SetFase(s: Store, f: Fase): (r: Store)
    ensures r.fase == f
    ensures r.(fase := s.fase) == s
  {
    s.(fase := f)
  }

  function SetEstadoActual(s: Store, e: Option<EstadoCeroCompleto>): (r: Store)
    ensures r.estadoActual == e
    ensures r.(estadoActual := s.estadoActual) == s
  {
    s.(estadoActual := e)
  }

  /** `agregarRespuesta`: appends at the end, keeping every earlier answer. */
  function AgregarRespuesta(s: Store, a: RespuestaSacral): (r: Store)
    ensures |r.respuestas| == |s.respuestas| + 1
    ensures r.respuestas[..|s.respuestas|] == s.respuestas
    ensures r.respuestas[|s.respuestas|] == a
    ensures r.(respuestas := s.respuestas) == s
  {
    s.(respuestas := s.respuestas + [a])
  }

  function SetDireccion(s: Store, d: string): (r: Store)
    ensures r.direccion == Some(d)
    ensures r.(direccion := s.direccion) == s
  {
    s.(direccion := Some(d))
  }

  function SetCargando(s: Store, c: bool): (r: Store)
    ensures r.cargando == c
    ensures r.(cargando := s.cargando) == s
  {
    s.(cargando := c)
  }

  function SetError(s: Store, e: Option<string>): (r: Store)
    ensures r.error == e
    ensures r.(error := s.error) == s
  {
    s.(error := e)
  }

  /** `reset`: the initial state, written out again in the source. */
  function Reset(s: Store): (r: Store)
    ensures r == Initial()
  {
    Store(PreInicio, None, [], None, false, None)
  }

  datatype Action =
    | DoSetFase(f: Fase)
    | DoSetEstado(e: Option<EstadoCeroCompleto>)
    | DoAgregar(a: RespuestaSacral)
    | DoSetDireccion(d: string)
    | DoSetCargando(c: bool)
    | DoSetError(err: Option<string>)
    | DoReset

  function Apply(s: Store, a: Action): Store {
    match a
    case DoSetFase(f) => SetFase(s, f)
    case DoSetEstado(e) => SetEstadoActual(s, e)
    case DoAgregar(x) => AgregarRespuesta(s, x)
    case DoSetDireccion(d) => SetDireccion(s, d)
    case DoSetCargando(c) => SetCargando(s, c)
    case DoSetError(e) => SetError(s, e)
    case DoReset => Reset(s)
  }

  /** The store after the actions, applied first to last. */
  function Run(s: Store, actions: seq<Action>): Store
    decreases |actions|
  {
    if |actions| == 0 then s else Apply(Run(s, actions[..|actions| - 1]), actions[|actions| - 1])
  }

  predicate HasReset(actions: seq<Action>) {
    exists i :: 0 <= i < |actions| && actions[i].DoReset?
  }

  /** The answers added after the last reset, in the order they were added. */
  function AddedSinceReset(actions: seq<Action>): seq<RespuestaSacral>
    decreases |actions|
  {
    if |actions| == 0 then []
    else
      var last := actions[|actions| - 1];
      var prefix := AddedSinceReset(actions[..|actions| - 1]);
      if last.DoReset? then [] else if last.DoAgregar? then prefix + [last.a] else prefix
  }

  /** The answers held after any history: those held before (unless a reset
      happened) followed by every answer added since the last reset. */
  lemma {:induction false} RunAnswers(s: Store, actions: seq<Action>)
    ensures Run(s, actions).respuestas == (if HasReset(actions) then [] else s.respuestas) + AddedSinceReset(actions)
    decreases |actions|
  {
    if |actions| > 0 {
      var prefix := actions[..|actions| - 1];
      RunAnswers(s, prefix);
      assert HasReset(actions) <==> HasReset(prefix) || actions[|actions| - 1].DoReset? by {
        if HasReset(prefix) {
          var i :| 0 <= i < |prefix| && prefix[i].DoReset?;
          assert actions[i] == prefix[i];
        }
        if HasReset(actions) && !actions[|actions| - 1].DoReset? {
          var i :| 0 <= i < |actions| && actions[i].DoReset?;
          assert prefix[i] == actions[i];
        }
      }
    }
  }

  /** The phase after any history is the last one set since the last reset,
      or the phase held before when there is neither. */
  function LastFase(start: Fase, actions: seq<Action>): Fase
    decreases |actions|
  {
    if |actions| == 0 then start
    else
      var last := actions[|actions| - 1];
      if last.DoSetFase? then last.f
      else if last.DoReset? then PreInicio
      else LastFase(start, actions[..|actions| - 1])
  }

  lemma {:induction false} RunFase(s: Store, actions: seq<Action>)
    ensures Run(s, actions).fase == LastFase(s.fase, actions)
    decreases |actions|
  {
    if |actions| > 0 {
      RunFase(s, actions[..|actions| - 1]);
    }
  }

  /** Whatever happened before, a reset as the last action yields the initial
      store. */
  lemma ResetForgetsHistory(s: Store, actions: seq<Action>)
    ensures Run(s, actions + [DoReset]) == Initial()
  {
    assert (actions + [DoReset])[..|actions|] == actions;
  }
}

/** The question-by-question answer list of the session screen
    (`PreguntasSacrales`): the index of the question on screen, the answers
    given so far, and the selection being edited (sensation, intensity 1..5,
    optional note).
 */
module AnswerList {

  import opened Wrappers
  import opened ApiClient

  datatype Quiz = Quiz(
    actual: int,
    respuestas: seq<RespuestaSacral>,
    sensacion: Option<Sensacion>,
    intensidad: int,
    nota: string)

  const DefaultIntensidad := 3

  function Initial(): Quiz {
    Quiz(0, [], None, DefaultIntensidad, "")
  }

  /** The result of pressing "next": the new component state and, on the last
      question, the list handed to `onCompletado`. */
  datatype Step = Step(quiz: Quiz, completado: Option<seq<RespuestaSacral>>)

  function Seleccionar(q: Quiz, s: Sensacion): (r: Quiz)
    ensures r.sensacion == Some(s) && r.(sensacion := q.sensacion) == q
  {
    q.(sensacion := Some(s))
  }

  function SetIntensidad(q: Quiz, i: int): (r: Quiz)
    ensures r.intensidad == i && r.(intensidad := q.intensidad) == q
  {
    q.(intensidad := i)
  }

  function SetNota(q: Quiz, n: string): (r: Quiz)
    ensures r.nota == n && r.(nota := q.nota) == q
  {
    q.(nota := n)
  }

  /** The answer recorded for the question on screen; an empty note is not
      sent. */
  function Answer(p: PreguntaBinaria, s: Sensacion, q: Quiz): (r: RespuestaSacral)
    ensures r.preguntaId == p.id && r.sensacion == s && r.intensidad == q.intensidad
    ensures r.nota.Some? <==> q.nota != ""
    ensures r.nota.Some? ==> r.nota.value == q.nota
  {
    RespuestaSacral(p.id, s, q.intensidad, if q.nota == "" then None else Some(q.nota))
  }

  /** `siguiente`. Nothing happens without a selected sensation. With an index
      outside the question list (no questions at all) reading the question's
      id fails, which is the error case. */
  function Siguiente(preguntas: seq<PreguntaBinaria>, q: Quiz): (r: Result<Step, string>)
    ensures q.sensacion.None? ==> r == Ok(Step(q, None))
    ensures r.Err? <==> q.sensacion.Some? && !(0 <= q.actual < |preguntas|)
    ensures r.Ok? && q.sensacion.Some? ==>
      r.value.quiz.respuestas == q.respuestas + [Answer(preguntas[q.actual], q.sensacion.value, q)]
    ensures r.Ok? && q.sensacion.Some? ==>
      (r.value.completado.Some? <==> q.actual == |preguntas| - 1)
    ensures r.Ok? && r.value.completado.Some? ==>
      r.value.completado.value == r.value.quiz.respuestas && r.value.quiz.actual == q.actual
    ensures r.Ok? && q.sensacion.Some? && r.value.completado.None? ==>
      r.value.quiz == Quiz(q.actual + 1, r.value.quiz.respuestas, None, DefaultIntensidad, "")
  {
    if q.sensacion.None? then Ok(Step(q, None))
    else if !(0 <= q.actual < |preguntas|) then Err("pregunta is undefined")
    else
      var nuevas := q.respuestas + [Answer(preguntas[q.actual], q.sensacion.value, q)];
      if q.actual == |preguntas| - 1 then Ok(Step(q.(respuestas := nuevas), Some(nuevas)))
      else Ok(Step(Quiz(q.actual + 1, nuevas, None, DefaultIntensidad, ""), None))
  }

  /** `anterior`. At the first question nothing changes; otherwise the index
      goes back, the answer at the new index is loaded into the selection
      (`|| null`, `|| 3`, `|| ''` defaults) and the last answer is dropped. */
  function Anterior(q: Quiz): (r: Quiz)
    ensures q.actual <= 0 ==> r == q
    ensures q.actual > 0 ==> r.actual == q.actual - 1
    ensures q.actual > 0 && |q.respuestas| > 0 ==> r.respuestas == q.respuestas[..|q.respuestas| - 1]
    ensures q.actual > 0 && |q.respuestas| == 0 ==> r.respuestas == []
  {
    if q.actual <= 0 then q
    else
      var prev := if q.actual - 1 < |q.respuestas| then Some(q.respuestas[q.actual - 1]) else None;
      Quiz(
        q.actual - 1,
        if |q.respuestas| > 0 then q.respuestas[..|q.respuestas| - 1] else [],
        if prev.Some? then Some(prev.value.sensacion) else None,
        if prev.Some? && prev.value.intensidad != 0 then prev.value.intensidad else DefaultIntensidad,
        if prev.Some? && prev.value.nota.Some? then prev.value.nota.value else "")
  }

  /** `progreso`: the percentage of the progress bar. With no questions the
      source divides by zero (an infinite width), modelled as `None`. */
  function Progreso(preguntas: seq<PreguntaBinaria>, q: Quiz): (r: Option<real>)
    ensures r.None? <==> |preguntas| == 0
    ensures r.Some? ==> r.value * (|preguntas| as real) == ((q.actual + 1) as real) * 100.0
  {
    if |preguntas| == 0 then None
    else Some(((q.actual + 1) as real) / (|preguntas| as real) * 100.0)
  }

  // ---------------------------------------------------------------------------
  // The invariant of an unfinished session
  // ---------------------------------------------------------------------------

  /** Before completion, one answer per question already passed, in question
      order. */
  predicate Synced(preguntas: seq<PreguntaBinaria>, q: Quiz) {
    0 <= q.actual < |preguntas|
    && |q.respuestas| == q.actual
    && forall k :: 0 <= k < q.actual ==> q.respuestas[k].preguntaId == preguntas[k].id
  }

  lemma InitialSynced(preguntas: seq<PreguntaBinaria>)
    requires |preguntas| > 0
    ensures Synced(preguntas, Initial())
  {
  }

  /** Moving forward to a question that is not the last keeps the invariant. */
  lemma SiguienteSynced(preguntas: seq<PreguntaBinaria>, q: Quiz)
    requires Synced(preguntas, q) && q.sensacion.Some?
    requires q.actual < |preguntas| - 1
    ensures Siguiente(preguntas, q).Ok?
    ensures Synced(preguntas, Siguiente(preguntas, q).value.quiz)
  {
  }

  /** Moving back keeps the invariant. */
  lemma AnteriorSynced(preguntas: seq<PreguntaBinaria>, q: Quiz)
    requires Synced(preguntas, q)
    ensures Synced(preguntas, Anterior(q))
  {
  }

  /** Answering the last question hands over one answer per question, in
      question order. */
  lemma CompletionListsAll(preguntas: seq<PreguntaBinaria>, q: Quiz)
    requires Synced(preguntas, q) && q.sensacion.Some?
    requires q.actual == |preguntas| - 1
    ensures var r := Siguiente(preguntas, q);
      r.Ok? && r.value.completado.Some?
      && |r.value.completado.value| == |preguntas|
      && forall k :: 0 <= k < |preguntas| ==> r.value.completado.value[k].preguntaId == preguntas[k].id
  {
  }

  /** An answer as the component itself records it: a note is either absent
      or non-empty. */
  predicate Recorded(a: RespuestaSacral) {
    a.nota != Some("") && a.intensidad != 0
  }

  /** Going back loads exactly the dropped answer into the selection, so
      pressing "next" again restores the same answer list. */
  lemma AnteriorThenSiguiente(preguntas: seq<PreguntaBinaria>, q: Quiz)
    requires Synced(preguntas, q) && q.actual > 0
    requires Recorded(q.respuestas[q.actual - 1])
    ensures var back := Anterior(q);
      back.sensacion == Some(q.respuestas[q.actual - 1].sensacion)
      && Siguiente(preguntas, back) == Ok(Step(Quiz(q.actual, q.respuestas, None, DefaultIntensidad, ""), None))
  {
    var back := Anterior(q);
    var last := q.respuestas[q.actual - 1];
    assert Answer(preguntas[q.actual - 1], last.sensacion, back) == last;
    assert back.respuestas + [last] == q.respuestas;
  }

  /** While the session is unfinished the bar is strictly between 0 and 100,
      and it reaches 100 exactly on the last question. */
  lemma ProgresoBounds(preguntas: seq<PreguntaBinaria>, q: Quiz)
    requires Synced(preguntas, q)
    ensures Progreso(preguntas, q).Some?
    ensures 0.0 < Progreso(preguntas, q).value <= 100.0
    ensures Progreso(preguntas, q).value == 100.0 <==> q.actual == |preguntas| - 1
  {
    var n := |preguntas| as real;
    var p := Progreso(preguntas, q).value;
    assert p * n == ((q.actual + 1) as real) * 100.0;
    if p == 100.0 {
      assert (q.actual + 1) as real == n;
    }
  }
}

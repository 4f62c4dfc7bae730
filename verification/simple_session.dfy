/** The minimal Estado Cero session API (`estado_cero_ultra_simple`): the
    moment chosen from the hour, answering a question, and the closing
    synthesis of the answers.

    The clock, the stored session file, the audit trail, the vault archive
    and the question generator are outside the model: the hour and the
    stored session are parameters.
 */
module SimpleSession {

  import opened Wrappers
  import Liturgy
  import Text
  import Seqs
  import Assoc
  import LiturgicalQuestions

  // ---------------------------------------------------------------------------
  // The moment of the day
  // ---------------------------------------------------------------------------

  /** `iniciar_estado_cero`: the moment taken from the current hour. */
  function MomentoPorHora(hora: int): (m: Liturgy.Momento) {
    if 5 <= hora < 12 then Liturgy.Fajr
    else if 12 <= hora < 16 then Liturgy.Dhuhr
    else if 16 <= hora < 19 then Liturgy.Asr
    else if 19 <= hora < 21 then Liturgy.Maghrib
    else Liturgy.Isha
  }

  /** The first hour of each moment's band; isha's band wraps past midnight
      up to fajr's first hour. */
  function Inicio(m: Liturgy.Momento): nat {
    match m
    case Fajr => 5
    case Dhuhr => 12
    case Asr => 16
    case Maghrib => 19
    case Isha => 21
  }

  /** An hour of the clock falls in a moment's band: from its first hour up
      to the next moment's first hour. */
  predicate EnFranja(hora: int, m: Liturgy.Momento)
    requires 0 <= hora < 24
  {
    if m == Liturgy.Isha then hora >= 21 || hora < 5
    else Inicio(m) <= hora < Inicio(Liturgy.Momentos[Liturgy.Orden(m) + 1])
  }

  /** Every hour of the clock gets the moment whose band holds it, and no
      other: the bands partition the day. */
  lemma MomentoPorHoraSpec(hora: int, m: Liturgy.Momento)
    requires 0 <= hora < 24
    ensures MomentoPorHora(hora) == m <==> EnFranja(hora, m)
  {
  }

  /** The bands follow the order of the day: the moment never goes back as
      the hours pass from 5 to 23. */
  lemma MomentoMonotono(h1: int, h2: int)
    requires 5 <= h1 <= h2 < 24
    ensures Liturgy.Orden(MomentoPorHora(h1)) <= Liturgy.Orden(MomentoPorHora(h2))
  {
  }

  // ---------------------------------------------------------------------------
  // Starting a session
  // ---------------------------------------------------------------------------

  /** A question of a session: its number within the session, its wording,
      its domain and whether it was answered. */
  datatype PreguntaSesion = PreguntaSesion(id: nat, texto: string, dimension: string, respondida: bool)

  /** What the question generator returns: the question and the domains it
      touches. */
  datatype Emergente = Emergente(pregunta: string, dominios: seq<string>)

  /** The questions a session starts with: in the `emergente` mode the one
      generated question, about its first domain or `existencial`; in any
      other mode the moment's fixed questions numbered from 0. */
  function PreguntasIniciales(modo: string, m: Liturgy.Momento, emergente: Emergente): (r: seq<PreguntaSesion>)
    ensures modo == "emergente" ==> |r| == 1 && r[0].id == 0 && r[0].texto == emergente.pregunta
    ensures modo == "emergente" ==> r[0].dimension == if |emergente.dominios| > 0 then emergente.dominios[0] else "existencial"
    ensures modo != "emergente" ==> |r| == 3
    ensures modo != "emergente" ==> forall i :: 0 <= i < |r| ==>
      && r[i].id == i
      && r[i].texto == LiturgicalQuestions.ObtenerPreguntas(m)[i].texto
      && r[i].dimension == LiturgicalQuestions.ObtenerPreguntas(m)[i].dimension
    ensures forall i :: 0 <= i < |r| ==> !r[i].respondida
  {
    if modo == "emergente" then
      [PreguntaSesion(0, emergente.pregunta, if |emergente.dominios| > 0 then emergente.dominios[0] else "existencial", false)]
    else
      Numerar(LiturgicalQuestions.ObtenerPreguntas(m))
  }

  /** Fixed questions as session questions, numbered from 0, unanswered. */
  function Numerar(ps: seq<LiturgicalQuestions.Pregunta>): (r: seq<PreguntaSesion>)
    ensures |r| == |ps|
    ensures forall i :: 0 <= i < |r| ==>
      r[i].id == i && r[i].texto == ps[i].texto && r[i].dimension == ps[i].dimension && !r[i].respondida
  {
    seq(|ps|, i requires 0 <= i < |ps| => PreguntaSesion(i, ps[i].texto, ps[i].dimension, false))
  }

  /** The questions of a session are numbered 0, 1, ... in order. */
  predicate Numeradas(ps: seq<PreguntaSesion>) {
    forall i :: 0 <= i < |ps| ==> ps[i].id == i
  }

  /** A session starts with numbered questions, none answered. */
  lemma IniciarNumeradas(modo: string, m: Liturgy.Momento, emergente: Emergente)
    ensures Numeradas(PreguntasIniciales(modo, m, emergente))
  {
  }

  /** A stored session: its moment, questions and answers so far. */
  datatype Sesion = Sesion(momento: Liturgy.Momento, preguntas: seq<PreguntaSesion>, respuestas: seq<LiturgicalQuestions.Respuesta>)

  /** `iniciar_estado_cero` for a given hour. */
  function Iniciar(hora: int, modo: string, emergente: Emergente): (s: Sesion)
    ensures s.momento == MomentoPorHora(hora) && s.respuestas == []
    ensures Numeradas(s.preguntas) && |s.preguntas| > 0
  {
    var m := MomentoPorHora(hora);
    IniciarNumeradas(modo, m, emergente);
    Sesion(m, PreguntasIniciales(modo, m, emergente), [])
  }

  // ---------------------------------------------------------------------------
  // Answering
  // ---------------------------------------------------------------------------

  /** The HTTP errors of `responder_pregunta`. */
  datatype ErrorHttp = ErrorHttp(codigo: nat, detalle: string)

  /** `next(p for p in preguntas if p["id"] == pregunta_id)`: the first
      question with that number. */
  function Buscar(ps: seq<PreguntaSesion>, id: int): (r: Option<nat>)
    ensures r.Some? ==> r.value < |ps| && ps[r.value].id == id
    ensures r.Some? ==> forall j :: 0 <= j < r.value ==> ps[j].id != id
    ensures r.None? <==> forall j :: 0 <= j < |ps| ==> ps[j].id != id
  {
    if |ps| == 0 then None
    else if ps[0].id == id then Some(0)
    else match Buscar(ps[1..], id)
      case Some(k) => Some(k + 1)
      case None => None
  }

  /** In a session's numbered questions, number `id` is at position `id`. */
  lemma BuscarNumeradas(ps: seq<PreguntaSesion>, id: int)
    requires Numeradas(ps)
    ensures Buscar(ps, id) == if 0 <= id < |ps| then Some(id as nat) else None
  {
    if 0 <= id < |ps| {
      assert ps[id].id == id;
      var k := Buscar(ps, id).value;
      assert ps[k].id == k;
    }
  }

  /** `responder_pregunta`: a missing question id or answer is a 400, a
      missing session or question a 404, the latter naming the id;
      otherwise the answer is appended,
      tagged with the question's domain, and the progress is
      `answers/questions`. */
  function Responder(sesion: Option<Sesion>, preguntaId: Option<int>, respuesta: Option<bool>): (r: Result<(Sesion, string), ErrorHttp>)
    ensures (preguntaId.None? || respuesta.None?) ==> r.Err? && r.error.codigo == 400
    ensures preguntaId.Some? && respuesta.Some? && sesion.None? ==> r.Err? && r.error.codigo == 404
    ensures r.Err? && r.error.codigo == 404 && sesion.Some? ==>
      forall j :: 0 <= j < |sesion.value.preguntas| ==> sesion.value.preguntas[j].id != preguntaId.value
    ensures (preguntaId.Some? && respuesta.Some? && sesion.Some?
             && forall j :: 0 <= j < |sesion.value.preguntas| ==> sesion.value.preguntas[j].id != preguntaId.value) ==>
      r == Err(ErrorHttp(404, "Pregunta " + Text.IntToString(preguntaId.value) + " no encontrada"))
    ensures r.Ok? ==> preguntaId.Some? && respuesta.Some? && sesion.Some?
    ensures r.Ok? ==>
      var s := sesion.value;
      var s' := r.value.0;
      && s'.momento == s.momento && s'.preguntas == s.preguntas
      && |s'.respuestas| == |s.respuestas| + 1 && s'.respuestas[..|s.respuestas|] == s.respuestas
      && s'.respuestas[|s.respuestas|].afirmativa == respuesta.value
      && (exists j :: 0 <= j < |s.preguntas| && s.preguntas[j].id == preguntaId.value
            && s'.respuestas[|s.respuestas|].dimension == s.preguntas[j].dimension)
      && r.value.1 == Text.NatToString(|s'.respuestas|) + "/" + Text.NatToString(|s.preguntas|)
  {
    if preguntaId.None? || respuesta.None? then Err(ErrorHttp(400, "pregunta_id y respuesta son requeridos"))
    else if sesion.None? then Err(ErrorHttp(404, "Estado Cero no encontrado"))
    else
      var s := sesion.value;
      match Buscar(s.preguntas, preguntaId.value)
      case None => Err(ErrorHttp(404, "Pregunta " + Text.IntToString(preguntaId.value) + " no encontrada"))
      case Some(k) =>
        var nueva := LiturgicalQuestions.Respuesta(s.preguntas[k].dimension, respuesta.value);
        var s' := s.(respuestas := s.respuestas + [nueva]);
        assert s'.respuestas[..|s.respuestas|] == s.respuestas;
        Ok((s', Text.NatToString(|s'.respuestas|) + "/" + Text.NatToString(|s.preguntas|)))
  }

  /** Answering question `i` of a freshly started session succeeds exactly
      when `i` is one of its numbers, and records that question's domain. */
  lemma ResponderNumerada(s: Sesion, i: int, v: bool)
    requires Numeradas(s.preguntas)
    ensures Responder(Some(s), Some(i), Some(v)).Ok? <==> 0 <= i < |s.preguntas|
    ensures 0 <= i < |s.preguntas| ==>
      Responder(Some(s), Some(i), Some(v)).value.0.respuestas == s.respuestas + [LiturgicalQuestions.Respuesta(s.preguntas[i].dimension, v)]
  {
    BuscarNumeradas(s.preguntas, i);
  }

  /** Asking a started session for question 7 when it has only three
      numbered questions gives the 404 `Pregunta 7 no encontrada`. */
  lemma PreguntaDesconocidaNombraId(s: Sesion, v: bool)
    requires Numeradas(s.preguntas) && |s.preguntas| == 3
    ensures Responder(Some(s), Some(7), Some(v)) == Err(ErrorHttp(404, "Pregunta 7 no encontrada"))
  {
    BuscarNumeradas(s.preguntas, 7);
    assert Text.IntToString(7) == [Text.DigitChar(7)] == "7";
    assert "Pregunta " + "7" + " no encontrada" == "Pregunta 7 no encontrada";
  }

  // ---------------------------------------------------------------------------
  // Closing synthesis
  // ---------------------------------------------------------------------------

  datatype Tendencia = Expansion | Contraccion

  datatype Sintesis = Sintesis(tendencia: Tendencia, intensidad: real, dominiosActivos: Assoc.Dict<string, real>)

  /** `sum(1 for r in respuestas if r["respuesta"])`. */
  function Expansiones(rs: seq<LiturgicalQuestions.Respuesta>): (n: nat)
    ensures n <= |rs|
  {
    if |rs| == 0 then 0 else (if rs[0].afirmativa then 1 else 0) + Expansiones(rs[1..])
  }

  /** The tendency and intensity of `e` affirmative answers out of `n`:
      expansion exactly when more than half are affirmative (a tie is a
      contraction), and the share of the winning side, so it lies in
      [0.5, 1]. */
  function Balance(e: nat, n: nat): (r: (Tendencia, real))
    requires e <= n && n > 0
    ensures r.0 == Expansion <==> 2 * e > n
    ensures r.1 * n as real == (if r.0 == Expansion then e else n - e) as real
    ensures 0.5 <= r.1 <= 1.0
  {
    var c := n - e;
    if e > c then
      MayoriaAcotada(e, n);
      (Expansion, e as real / n as real)
    else
      MayoriaAcotada(c, n);
      (Contraccion, c as real / n as real)
  }

  /** `finalizar_estado_cero`'s synthesis: the balance of the answers and
      the activity of their domains. No answer at all divides by zero,
      which fails the request. */
  function Sintetizar(rs: seq<LiturgicalQuestions.Respuesta>): (r: Result<Sintesis, string>)
    ensures |rs| == 0 <==> r.Err?
    ensures r.Ok? ==> (r.value.tendencia, r.value.intensidad) == Balance(Expansiones(rs), |rs|)
  {
    if |rs| == 0 then Err("ZeroDivisionError")
    else
      var b := Balance(Expansiones(rs), |rs|);
      Ok(Sintesis(b.0, b.1, LiturgicalQuestions.CalcularDominioActivo(rs)))
  }

  /** A winning share of `n` answers is at least half and at most all. */
  lemma MayoriaAcotada(w: nat, n: nat)
    requires n > 0 && 2 * w >= n && w <= n
    ensures (w as real / n as real) * n as real == w as real
    ensures 0.5 <= w as real / n as real <= 1.0
  {
    var m := n as real;
    assert 0.5 * m <= w as real;
    assert 0.5 * m / m <= w as real / m;
    assert w as real <= m;
    assert w as real / m <= m / m;
  }

  /** The synthesis's domains are those of the answers, each with its share
      of affirmative answers. */
  lemma SintetizarDominios(rs: seq<LiturgicalQuestions.Respuesta>, d: string)
    requires |rs| > 0
    ensures var s := Sintetizar(rs).value;
      && (Assoc.HasKey(s.dominiosActivos, d) <==> exists i :: 0 <= i < |rs| && rs[i].dimension == d)
      && (Assoc.HasKey(s.dominiosActivos, d) ==> 0.0 <= Assoc.Get(s.dominiosActivos, d).value <= 1.0)
  {
    LiturgicalQuestions.DominioActivoSpec(rs, d);
  }
}

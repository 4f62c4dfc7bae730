/** The ministry of meaning (`MinisterioSignificado`): how an action scores
    against the core values, the current and deep dharma, the generation of
    meaning and the legacy perspective; the weighted existential coherence
    of those four; and the questions and reflection that follow.

    Every keyword test is a substring test on the lower-cased action.
 */
module MeaningMinistry {

  import Text
  import Seqs

  // ---------------------------------------------------------------------------
  // Core values
  // ---------------------------------------------------------------------------

  datatype ValorCore = Familia | Crecimiento | Servicio | Excelencia

  function NombreValor(v: ValorCore): string {
    match v
    case Familia => "Familia/Presencia"
    case Crecimiento => "Crecimiento/Aprendizaje"
    case Servicio => "Servicio/Generosidad"
    case Excelencia => "Excelencia/Maestría"
  }

  /** The score an action earns for touching a value. */
  function PuntosValor(v: ValorCore): (p: real)
    ensures 75.0 <= p <= 100.0
  {
    match v
    case Familia => 100.0
    case Crecimiento => 85.0
    case Servicio => 80.0
    case Excelencia => 75.0
  }

  function PalabrasValor(v: ValorCore): seq<string> {
    match v
    case Familia => ["familia", "bebé", "esposa", "presencia", "tiempo juntos"]
    case Crecimiento => ["aprender", "estudiar", "sistema", "optimizar"]
    case Servicio => ["ayudar", "servir", "compartir", "beta", "enseñar"]
    case Excelencia => ["excelencia", "calidad", "maestría", "profundo"]
  }

  predicate Toca(a: string, v: ValorCore) {
    Text.ContainsAny(a, PalabrasValor(v))
  }

  /** The values an action touches, in the fixed order of the checks. */
  function Activados(a: string): (r: seq<ValorCore>)
    ensures Familia in r <==> Toca(a, Familia)
    ensures Crecimiento in r <==> Toca(a, Crecimiento)
    ensures Servicio in r <==> Toca(a, Servicio)
    ensures Excelencia in r <==> Toca(a, Excelencia)
    ensures |r| <= 4
  {
    Marcados(Toca(a, Familia), Toca(a, Crecimiento), Toca(a, Servicio), Toca(a, Excelencia))
  }

  /** The values whose test holds, in the order family, growth, service,
      excellence. */
  function Marcados(f: bool, c: bool, s: bool, e: bool): (r: seq<ValorCore>)
    ensures Familia in r <==> f
    ensures Crecimiento in r <==> c
    ensures Servicio in r <==> s
    ensures Excelencia in r <==> e
    ensures |r| <= 4
    ensures |r| == 0 <==> !f && !c && !s && !e
  {
    (if f then [Familia] else []) + (if c then [Crecimiento] else [])
    + (if s then [Servicio] else []) + (if e then [Excelencia] else [])
  }

  function Puntos(vs: seq<ValorCore>): (r: seq<real>)
    ensures |r| == |vs|
    ensures forall i :: 0 <= i < |vs| ==> r[i] == PuntosValor(vs[i])
  {
    if |vs| == 0 then [] else [PuntosValor(vs[0])] + Puntos(vs[1..])
  }

  datatype AlineacionValores = AlineacionValores(activados: seq<ValorCore>, score: real, coherente: bool)

  /** `_evaluar_alineacion_valores`: 50 for an action that touches no value,
      else the mean of the touched values' scores; coherent from 70. */
  function EvaluarValores(a: string): (r: AlineacionValores)
    ensures r.activados == Activados(a)
    ensures |r.activados| == 0 ==> r.score == 50.0
    ensures |r.activados| > 0 ==> r.score == Seqs.Mean(Puntos(r.activados))
    ensures r.coherente <==> r.score >= 70.0
  {
    var vs := Activados(a);
    var s := if |vs| == 0 then 50.0 else Seqs.Mean(Puntos(vs));
    AlineacionValores(vs, s, s >= 70.0)
  }

  /** Every touched value scores at least 75, so the alignment is coherent
      exactly when the action touches some value, and lies in [50, 100]. */
  lemma ValuesCoherentIffTouched(a: string)
    ensures EvaluarValores(a).coherente <==> |Activados(a)| > 0
    ensures 50.0 <= EvaluarValores(a).score <= 100.0
  {
    var vs := Activados(a);
    if |vs| > 0 {
      Seqs.MeanBounds(Puntos(vs), 75.0, 100.0);
    }
  }

  // ---------------------------------------------------------------------------
  // Dharma, meaning, legacy
  // ---------------------------------------------------------------------------

  const PalabrasDharmaActual: seq<string> := [
    "familia", "bebé", "esposa", "descanso", "salud",
    "organizar vida", "eficiencia", "tiempo libre"]
  const PalabrasDharmaProfundo: seq<string> := [
    "campo sagrado", "sistema", "sabiduría", "integración",
    "compartir", "enseñar", "documentar"]
  const PalabrasCompromete: seq<string> := ["muchas horas", "urgente", "deadline", "viaje largo"]

  datatype CategoriaDharma = SirveActual | SirveProfundoSinComprometer | ComprometeActual | DharmaNeutral

  datatype ServicioDharma = ServicioDharma(
    score: real,
    categoria: CategoriaDharma,
    sirveActual: bool,
    sirveProfundo: bool,
    compromete: bool)

  /** `_evaluar_servicio_dharma`: serving the current dharma wins over
      everything; the deep dharma counts only when nothing compromises the
      current one. */
  function EvaluarDharma(a: string): (r: ServicioDharma)
    ensures r.sirveActual == Text.ContainsAny(a, PalabrasDharmaActual)
    ensures r.sirveProfundo == Text.ContainsAny(a, PalabrasDharmaProfundo)
    ensures r.compromete == Text.ContainsAny(a, PalabrasCompromete)
    ensures r.categoria == SirveActual <==> r.sirveActual
    ensures r.categoria == SirveProfundoSinComprometer <==> !r.sirveActual && r.sirveProfundo && !r.compromete
    ensures r.categoria == ComprometeActual <==> !r.sirveActual && r.compromete
    ensures r.categoria == DharmaNeutral <==> !r.sirveActual && !r.sirveProfundo && !r.compromete
    ensures r.score == PuntosDharma(r.categoria)
  {
    var actual := Text.ContainsAny(a, PalabrasDharmaActual);
    var profundo := Text.ContainsAny(a, PalabrasDharmaProfundo);
    var compromete := Text.ContainsAny(a, PalabrasCompromete);
    if actual then ServicioDharma(95.0, SirveActual, actual, profundo, compromete)
    else if profundo && !compromete then ServicioDharma(75.0, SirveProfundoSinComprometer, actual, profundo, compromete)
    else if compromete then ServicioDharma(30.0, ComprometeActual, actual, profundo, compromete)
    else ServicioDharma(50.0, DharmaNeutral, actual, profundo, compromete)
  }

  function PuntosDharma(c: CategoriaDharma): (p: real)
    ensures 30.0 <= p <= 95.0
  {
    match c
    case SirveActual => 95.0
    case SirveProfundoSinComprometer => 75.0
    case ComprometeActual => 30.0
    case DharmaNeutral => 50.0
  }

  const PalabrasGenerativas: seq<string> := [
    "crear", "construir", "enseñar", "compartir", "expresar",
    "familia", "presencia", "belleza", "servicio", "crecimiento"]
  const PalabrasMantenimiento: seq<string> := ["revisar", "actualizar", "organizar", "limpiar"]
  const PalabrasEntropicas: seq<string> := ["procrastinar", "distracción", "redes sociales", "scrolling"]

  datatype CategoriaSignificado = Generativo | Mantenimiento | Entropico | SignificadoNeutral

  /** `_evaluar_generacion_significado`: generative, then maintenance, then
      entropic, else neutral. */
  function EvaluarSignificado(a: string): (r: (real, CategoriaSignificado))
    ensures r.1 == Generativo <==> Text.ContainsAny(a, PalabrasGenerativas)
    ensures r.1 == Mantenimiento <==> !Text.ContainsAny(a, PalabrasGenerativas) && Text.ContainsAny(a, PalabrasMantenimiento)
    ensures r.1 == Entropico <==> (!Text.ContainsAny(a, PalabrasGenerativas) && !Text.ContainsAny(a, PalabrasMantenimiento)
                                   && Text.ContainsAny(a, PalabrasEntropicas))
    ensures r.0 == PuntosSignificado(r.1)
  {
    if Text.ContainsAny(a, PalabrasGenerativas) then (90.0, Generativo)
    else if Text.ContainsAny(a, PalabrasMantenimiento) then (60.0, Mantenimiento)
    else if Text.ContainsAny(a, PalabrasEntropicas) then (20.0, Entropico)
    else (50.0, SignificadoNeutral)
  }

  function PuntosSignificado(c: CategoriaSignificado): (p: real)
    ensures 20.0 <= p <= 90.0
  {
    match c
    case Generativo => 90.0
    case Mantenimiento => 60.0
    case Entropico => 20.0
    case SignificadoNeutral => 50.0
  }

  const PalabrasLegado: seq<string> := [
    "presencia", "familia", "bebé", "esposa", "amor",
    "crear", "enseñar", "servir", "belleza", "sabiduría",
    "generosidad", "autenticidad"]
  const PalabrasFuncionales: seq<string> := ["admin", "impuestos", "trámite", "burocracia"]
  const PalabrasLamento: seq<string> := [
    "urgente de otro", "compromiso forzado", "trabajo excesivo", "perderme tiempo con bebé"]

  datatype CategoriaLegado = OrgulloFuturo | FuncionalNecesario | ArrepentimientoPotencial | LegadoNeutral

  /** `_evaluar_perspectiva_legado`: legacy, then functional, then regret,
      else neutral. */
  function EvaluarLegado(a: string): (r: (real, CategoriaLegado))
    ensures r.1 == OrgulloFuturo <==> Text.ContainsAny(a, PalabrasLegado)
    ensures r.1 == FuncionalNecesario <==> !Text.ContainsAny(a, PalabrasLegado) && Text.ContainsAny(a, PalabrasFuncionales)
    ensures r.1 == ArrepentimientoPotencial <==> (!Text.ContainsAny(a, PalabrasLegado)
                    && !Text.ContainsAny(a, PalabrasFuncionales) && Text.ContainsAny(a, PalabrasLamento))
    ensures r.0 == PuntosLegado(r.1)
  {
    if Text.ContainsAny(a, PalabrasLegado) then (95.0, OrgulloFuturo)
    else if Text.ContainsAny(a, PalabrasFuncionales) then (50.0, FuncionalNecesario)
    else if Text.ContainsAny(a, PalabrasLamento) then (20.0, ArrepentimientoPotencial)
    else (60.0, LegadoNeutral)
  }

  function PuntosLegado(c: CategoriaLegado): (p: real)
    ensures 20.0 <= p <= 95.0
  {
    match c
    case OrgulloFuturo => 95.0
    case FuncionalNecesario => 50.0
    case ArrepentimientoPotencial => 20.0
    case LegadoNeutral => 60.0
  }

  // ---------------------------------------------------------------------------
  // Existential coherence
  // ---------------------------------------------------------------------------

  /** `_calcular_coherencia_existencial`: legacy and dharma weigh 30% each,
      values 25% and meaning 15%. */
  function CoherenciaExistencial(valores: real, dharma: real, significado: real, legado: real): (r: real)
    ensures valores == dharma == significado == legado ==> r == valores
  {
    legado * 0.30 + dharma * 0.30 + valores * 0.25 + significado * 0.15
  }

  /** Raising any one of the four scores never lowers the coherence. */
  lemma CoherenceMonotone(v1: real, d1: real, s1: real, l1: real, v2: real, d2: real, s2: real, l2: real)
    requires v1 <= v2 && d1 <= d2 && s1 <= s2 && l1 <= l2
    ensures CoherenciaExistencial(v1, d1, s1, l1) <= CoherenciaExistencial(v2, d2, s2, l2)
  {
  }

  const PreguntasBase: seq<string> := [
    "¿Esta acción expresa mis valores más profundos?",
    "¿Me acerca a mi propósito o me distrae de él?",
    "Si muriera mañana, ¿querría que esto fuera lo último que hice?",
    "¿Esto es quien SOY o quien DEBERÍA ser según otros?"]

  const PreguntasExtra: seq<string> := [
    "¿Por qué me siento obligado a hacer esto?",
    "¿Qué temo que pase si digo NO?",
    "¿Estoy traicionando algo esencial en mí?"]

  /** `_generar_preguntas_profundas`: the four base questions, then three
      more when the coherence is below 60. */
  function PreguntasProfundas(coherencia: real): (r: seq<string>)
    ensures |r| == if coherencia < 60.0 then 7 else 4
    ensures r[..4] == PreguntasBase
    ensures coherencia < 60.0 ==> r[4..] == PreguntasExtra
  {
    PreguntasBase + (if coherencia < 60.0 then PreguntasExtra else [])
  }

  datatype Banda = Alta | Moderada | Baja

  /** The band the reflection text is chosen by. */
  function BandaReflexion(coherencia: real): (b: Banda)
    ensures b == Alta <==> coherencia >= 80.0
    ensures b == Moderada <==> 60.0 <= coherencia < 80.0
    ensures b == Baja <==> coherencia < 60.0
  {
    if coherencia >= 80.0 then Alta else if coherencia >= 60.0 then Moderada else Baja
  }

  /** The three reflections, each one literal text. */
  const ReflexionAlta: string :=
    "Esta acción está profundamente alineada con tu propósito. Es una expresión auténtica de quien eres. Adelante con claridad y paz."
  const ReflexionModerada: string :=
    "Esta acción tiene coherencia moderada. Puede servir a tu propósito si se hace con límites claros. Pregúntate: ¿Es el momento adecuado?"
  const ReflexionBaja: string :=
    "Esta acción tiene baja coherencia existencial. Puede que estés diciendo SÍ por obligación, culpa o expectativas externas. Pregúntate: ¿Realmente QUIERO hacer esto, o DEBO hacerlo? Recuerda: Tu bebé de 2 meses nunca volverá. Elige conscientemente."

  /** `_generar_reflexion`: the deep-alignment text exactly from 80, the
      warning about saying yes out of obligation exactly below 60, and the
      moderate text in between. */
  function Reflexion(coherencia: real): (r: string)
    ensures r == ReflexionAlta <==> coherencia >= 80.0
    ensures r == ReflexionBaja <==> coherencia < 60.0
    ensures r == ReflexionModerada <==> 60.0 <= coherencia < 80.0
  {
    match BandaReflexion(coherencia)
    case Alta => ReflexionAlta
    case Moderada => ReflexionModerada
    case Baja => ReflexionBaja
  }

  /** The reflection tells the three bands apart: two coherences get the
      same text exactly when they fall in the same band. */
  lemma ReflexionDistingueBandas(a: real, b: real)
    ensures Reflexion(a) == Reflexion(b) <==> BandaReflexion(a) == BandaReflexion(b)
  {
  }

  // ---------------------------------------------------------------------------
  // Answer to a decree
  // ---------------------------------------------------------------------------

  datatype Respuesta = Respuesta(
    favorable: bool,
    coherencia: real,
    valores: AlineacionValores,
    dharma: ServicioDharma,
    significado: (real, CategoriaSignificado),
    legado: (real, CategoriaLegado),
    preguntas: seq<string>,
    reflexion: string)

  /** `responder_a_decreto` for the decree's tangible action. */
  function ResponderADecreto(accion: string): (r: Respuesta)
    ensures r.valores == EvaluarValores(Text.Lower(accion)) && r.dharma == EvaluarDharma(Text.Lower(accion))
    ensures r.significado == EvaluarSignificado(Text.Lower(accion)) && r.legado == EvaluarLegado(Text.Lower(accion))
    ensures r.coherencia == CoherenciaExistencial(r.valores.score, r.dharma.score, r.significado.0, r.legado.0)
    ensures r.favorable <==> r.coherencia >= 70.0
    ensures |r.preguntas| == if r.coherencia < 60.0 then 7 else 4
    ensures r.reflexion == Reflexion(r.coherencia)
  {
    var a := Text.Lower(accion);
    var v := EvaluarValores(a);
    var d := EvaluarDharma(a);
    var s := EvaluarSignificado(a);
    var l := EvaluarLegado(a);
    var c := CoherenciaExistencial(v.score, d.score, s.0, l.0);
    Respuesta(c >= 70.0, c, v, d, s, l, PreguntasProfundas(c), Reflexion(c))
  }

  /** The existential coherence of any action lies between 30.5 (regret,
      compromise, entropy and no value) and 95.5 (every top score). */
  lemma CoherenceBounds(accion: string)
    ensures 30.5 <= ResponderADecreto(accion).coherencia <= 95.5
  {
    ValuesCoherentIffTouched(Text.Lower(accion));
    var r := ResponderADecreto(accion);
    CoherenciaAcotada(r.valores.score, r.dharma.score, r.significado.0, r.legado.0);
  }

  /** Scores within their ranges give a coherence between the coherence of
      the lowest scores and that of the highest. */
  lemma CoherenciaAcotada(v: real, d: real, s: real, l: real)
    requires 50.0 <= v <= 100.0 && 30.0 <= d <= 95.0 && 20.0 <= s <= 90.0 && 20.0 <= l <= 95.0
    ensures 30.5 <= CoherenciaExistencial(v, d, s, l) <= 95.5
  {
    CoherenceMonotone(50.0, 30.0, 20.0, 20.0, v, d, s, l);
    CoherenceMonotone(v, d, s, l, 100.0, 95.0, 90.0, 95.0);
  }

  /** An action that mentions none of the keywords scores 53: it asks for
      reflection, with all seven questions. */
  lemma NeutralActionAsksForReflection(accion: string)
    requires forall v :: !Toca(Text.Lower(accion), v)
    requires !Text.ContainsAny(Text.Lower(accion), PalabrasDharmaActual + PalabrasDharmaProfundo + PalabrasCompromete)
    requires !Text.ContainsAny(Text.Lower(accion), PalabrasGenerativas + PalabrasMantenimiento + PalabrasEntropicas)
    requires !Text.ContainsAny(Text.Lower(accion), PalabrasLegado + PalabrasFuncionales + PalabrasLamento)
    ensures ResponderADecreto(accion).coherencia == 53.0
    ensures !ResponderADecreto(accion).favorable && |ResponderADecreto(accion).preguntas| == 7
  {
    var a := Text.Lower(accion);
    assert Activados(a) == [];
    assert !Text.ContainsAny(a, PalabrasDharmaActual) && !Text.ContainsAny(a, PalabrasDharmaProfundo)
           && !Text.ContainsAny(a, PalabrasCompromete);
    assert !Text.ContainsAny(a, PalabrasGenerativas) && !Text.ContainsAny(a, PalabrasMantenimiento)
           && !Text.ContainsAny(a, PalabrasEntropicas);
    assert !Text.ContainsAny(a, PalabrasLegado) && !Text.ContainsAny(a, PalabrasFuncionales)
           && !Text.ContainsAny(a, PalabrasLamento);
  }

  /** An action that mentions the family is always favorable, with the
      highest reflection: it tops dharma, meaning and legacy and touches at
      least the family value. */
  lemma FamilyActionIsFavorable(accion: string)
    requires Text.Contains(Text.Lower(accion), "familia")
    ensures ResponderADecreto(accion).favorable
    ensures BandaReflexion(ResponderADecreto(accion).coherencia) == Alta
  {
    var a := Text.Lower(accion);
    FamiliaEnListas(a);
    var v := EvaluarValores(a);
    assert 75.0 <= v.score by {
      assert Familia in v.activados;
      Seqs.MeanBounds(Puntos(v.activados), 75.0, 100.0);
    }
    var r := ResponderADecreto(accion);
    CoherenciaAlta(r.valores.score, r.dharma.score, r.significado.0, r.legado.0);
  }

  /** "familia" is a keyword of the family value, of the current dharma, of
      generative meaning and of legacy. */
  lemma FamiliaEnListas(a: string)
    requires Text.Contains(a, "familia")
    ensures Toca(a, Familia) && Text.ContainsAny(a, PalabrasDharmaActual)
    ensures Text.ContainsAny(a, PalabrasGenerativas) && Text.ContainsAny(a, PalabrasLegado)
  {
    assert "familia" in PalabrasValor(Familia);
    assert "familia" in PalabrasDharmaActual;
    assert "familia" in PalabrasGenerativas;
    assert "familia" in PalabrasLegado;
  }

  /** Top dharma, meaning and legacy with values of at least 75 give a
      coherence of at least 80. */
  lemma CoherenciaAlta(v: real, d: real, s: real, l: real)
    requires 75.0 <= v && d == 95.0 && s == 90.0 && l == 95.0
    ensures CoherenciaExistencial(v, d, s, l) >= 80.0
  {
    CoherenceMonotone(75.0, 95.0, 90.0, 95.0, v, d, s, l);
  }

  // ---------------------------------------------------------------------------
  // Health metrics
  // ---------------------------------------------------------------------------

  /** The clarity of the five layers of meaning (personal to universal). */
  const Claridades: seq<real> := [75.0, 95.0, 80.0, 70.0, 85.0]

  /** How much each core value is lived. */
  const ScoresVividos: seq<real> := [85.0, 80.0, 70.0, 75.0]

  /** `metricas_salud`: mean clarity, mean lived score, a fixed impact, and
      inner peace equal to the lived coherence. */
  function MetricasSalud(): (r: seq<(string, real)>)
    ensures |r| == 4
    ensures r[0].1 == Seqs.Mean(Claridades) && r[1].1 == Seqs.Mean(ScoresVividos)
    ensures r[3].1 == r[1].1
  {
    var cv := Seqs.Mean(ScoresVividos);
    [("claridad_proposito", Seqs.Mean(Claridades)),
     ("coherencia_valores_acciones", cv),
     ("impacto_significativo", 85.0),
     ("paz_interior", cv)]
  }

  /** The metrics come to 81, 77.5, 85 and 77.5. */
  lemma MetricValues()
    ensures MetricasSalud()[0].1 == 81.0 && MetricasSalud()[1].1 == 77.5
    ensures MetricasSalud()[2].1 == 85.0 && MetricasSalud()[3].1 == 77.5
  {
    assert Seqs.SumReal(Claridades) == 405.0 by {
      assert Claridades[1..][1..][1..][1..][1..] == [];
    }
    assert Seqs.SumReal(ScoresVividos) == 310.0 by {
      assert ScoresVividos[1..][1..][1..][1..] == [];
    }
  }
}

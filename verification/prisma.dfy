/** The prism engine (`MotorPrisma`): it turns the personal prism — Human
    Design, MBTI and Enneagram profile, manifestations and usage metadata —
    into the settings of the Estado Cero, weaver and orchestrator agents.

    The free-text prompts the engine also writes are left out; every
    setting they quote is modelled here.
 */
module Prisma {

  import opened Wrappers
  import Seqs
  import Cognition

  datatype TipoHD = Manifestor | Generador | GeneradorManifestante | Proyector | Reflector

  datatype Autoridad = Sacral | Emocional | Esplenica | Ego | SelfProyectado | Mental | Lunar

  datatype Dimension = Biologico | Financiero | Desarrollo | Conocimiento | Relaciones | Espiritual | Creativo

  datatype Nivel = Diario | Semanal | Mensual | Trimestral | Anual | Quinquenal | Decadal

  datatype Manifestacion = Manifestacion(dimension: Dimension, nivel: Nivel, progresoEstimado: real)

  datatype Metadatos = Metadatos(
    diasDatos: int,
    ratioExpansionContraccion: real,
    picoEnergiaReal: Option<string>)

  datatype MetodoAprendizaje = MetodoAprendizaje(
    duracionOptimaSesion: int,
    mejorMomentoAprendizaje: string,
    profundidadVsAmplitud: int,
    requiereSilencio: bool)

  datatype Prisma = Prisma(
    tipo: TipoHD,
    autoridad: Autoridad,
    mbti: Cognition.Mbti,
    eneagrama: Cognition.TipoEneagrama,
    manifestaciones: seq<Manifestacion>,
    metadatos: Metadatos,
    metodo: MetodoAprendizaje)

  function DimensionTexto(d: Dimension): string {
    match d
    case Biologico => "biologico"
    case Financiero => "financiero"
    case Desarrollo => "desarrollo"
    case Conocimiento => "conocimiento"
    case Relaciones => "relaciones"
    case Espiritual => "espiritual"
    case Creativo => "creativo"
  }

  function NivelTexto(n: Nivel): string {
    match n
    case Diario => "diario"
    case Semanal => "semanal"
    case Mensual => "mensual"
    case Trimestral => "trimestral"
    case Anual => "anual"
    case Quinquenal => "quinquenal"
    case Decadal => "decadal"
  }

  /** The four letters of an MBTI type. */
  function Letras(m: Cognition.Mbti): (s: string)
    ensures |s| == 4
  {
    match m
    case INTJ => "INTJ" case INTP => "INTP" case ENTJ => "ENTJ" case ENTP => "ENTP"
    case INFJ => "INFJ" case INFP => "INFP" case ENFJ => "ENFJ" case ENFP => "ENFP"
    case ISTJ => "ISTJ" case ISFJ => "ISFJ" case ESTJ => "ESTJ" case ESFJ => "ESFJ"
    case ISTP => "ISTP" case ISFP => "ISFP" case ESTP => "ESTP" case ESFP => "ESFP"
  }

  // ---------------------------------------------------------------------------
  // Estado Cero
  // ---------------------------------------------------------------------------

  datatype TipoPreguntas = BinariasViscerales | ConTiempo | IntuitivasMomento | ExploratoriasEntorno

  /** `_determinar_tipo_preguntas`. */
  function TipoDePreguntas(a: Autoridad): (t: TipoPreguntas)
    ensures t == ConTiempo <==> a == Emocional
    ensures t == IntuitivasMomento <==> a == Esplenica
    ensures t == ExploratoriasEntorno <==> a == Mental
  {
    if a == Sacral then BinariasViscerales
    else if a == Emocional then ConTiempo
    else if a == Esplenica then IntuitivasMomento
    else if a == Mental then ExploratoriasEntorno
    else BinariasViscerales
  }

  /** The base number of questions for the phase of use. */
  function BasePreguntas(dias: int): (b: int)
    ensures dias < 7 ==> b == 15
    ensures 7 <= dias < 30 ==> b == 8
    ensures 30 <= dias < 90 ==> b == 5
    ensures dias >= 90 ==> b == 3
  {
    if dias < 7 then 15 else if dias < 30 then 8 else if dias < 90 then 5 else 3
  }

  /** The coherence adjustment: fewer questions for an aligned user, more
      for a misaligned one. */
  function AjustePreguntas(ratio: real): (a: int)
    ensures ratio > 0.7 ==> a == -2
    ensures ratio < 0.5 ==> a == 3
    ensures 0.5 <= ratio <= 0.7 ==> a == 0
  {
    if ratio > 0.7 then -2 else if ratio < 0.5 then 3 else 0
  }

  /** `_determinar_numero_preguntas`: `max(1, base + ajuste)`. */
  function NumeroPreguntas(m: Metadatos): (n: int)
    ensures n >= 1
    ensures n == BasePreguntas(m.diasDatos) + AjustePreguntas(m.ratioExpansionContraccion)
            || (n == 1 && BasePreguntas(m.diasDatos) + AjustePreguntas(m.ratioExpansionContraccion) < 1)
  {
    var t := BasePreguntas(m.diasDatos) + AjustePreguntas(m.ratioExpansionContraccion);
    if t > 1 then t else 1
  }

  /** The number of questions never grows with more days of use or a
      higher coherence ratio, lies in 1..18, and the floor of one binds
      only for a master (90+ days) who is aligned. */
  lemma NumeroPreguntasMonotone(m1: Metadatos, m2: Metadatos)
    requires m1.diasDatos <= m2.diasDatos
    requires m1.ratioExpansionContraccion <= m2.ratioExpansionContraccion
    ensures NumeroPreguntas(m2) <= NumeroPreguntas(m1)
    ensures 1 <= NumeroPreguntas(m1) <= 18
    ensures NumeroPreguntas(m1) == 1 <==> m1.diasDatos >= 90 && m1.ratioExpansionContraccion > 0.7
  {
  }

  datatype Estilo = ExploratoriaConceptual | DirectaEstrategica | ProfundaSignificado | ClaraSimple

  /** `_determinar_estilo_preguntas`. */
  function EstiloPreguntas(m: Cognition.Mbti): (e: Estilo)
    ensures e == ExploratoriaConceptual <==> m == Cognition.ENTP
    ensures e == DirectaEstrategica <==> m == Cognition.INTJ || m == Cognition.ENTJ
    ensures e == ProfundaSignificado <==> m == Cognition.INFJ || m == Cognition.ENFJ
  {
    if m == Cognition.ENTP then ExploratoriaConceptual
    else if m == Cognition.INTJ || m == Cognition.ENTJ then DirectaEstrategica
    else if m == Cognition.INFJ || m == Cognition.ENFJ then ProfundaSignificado
    else ClaraSimple
  }

  function Dimensiones(ms: seq<Manifestacion>): (r: seq<Dimension>)
    ensures |r| == |ms|
    ensures forall i :: 0 <= i < |ms| ==> r[i] == ms[i].dimension
  {
    if |ms| == 0 then [] else [ms[0].dimension] + Dimensiones(ms[1..])
  }

  function PorConteo(dims: seq<Dimension>): Dimension -> real {
    (d: Dimension) => Seqs.Count(dims, d) as real
  }

  /** `_priorizar_categorias`: the dimensions in first-seen order, stably
      sorted by how many manifestations they have. */
  function PriorizarCategorias(ms: seq<Manifestacion>): (r: seq<Dimension>)
    ensures |r| == |Seqs.Dedup(Dimensiones(ms))|
  {
    Seqs.SortDesc(Seqs.Dedup(Dimensiones(ms)), PorConteo(Dimensiones(ms)))
  }

  /** Each dimension that has a manifestation appears exactly once, and
      none with fewer manifestations goes before one with more. */
  lemma CategoriasSpec(ms: seq<Manifestacion>)
    ensures var r, dims := PriorizarCategorias(ms), Dimensiones(ms);
      (forall i :: 0 <= i < |dims| ==> dims[i] in r)
      && (forall i :: 0 <= i < |r| ==> r[i] in dims)
      && (forall i, j :: 0 <= i < j < |r| ==> r[i] != r[j])
      && (forall i, j :: 0 <= i < j < |r| ==> Seqs.Count(dims, r[i]) >= Seqs.Count(dims, r[j]))
  {
    var dims := Dimensiones(ms);
    var u := Seqs.Dedup(dims);
    var key := PorConteo(dims);
    var r, p := Seqs.SortDesc(u, key), Seqs.SortPerm(u, key);
    Seqs.SortDescSpec(u, key);
    Seqs.SortDescSameElements(u, key);
    forall i, j | 0 <= i < j < |r|
      ensures r[i] != r[j] && Seqs.Count(dims, r[i]) >= Seqs.Count(dims, r[j])
    {
      assert key(r[i]) >= key(r[j]);
    }
    forall i | 0 <= i < |dims|
      ensures dims[i] in r
    {
      assert dims[i] in u;
      var k :| 0 <= k < |u| && u[k] == dims[i];
      assert u[k] in r;
    }
    forall i | 0 <= i < |r|
      ensures r[i] in dims
    {
      var k :| 0 <= k < |u| && u[k] == r[i];
    }
  }

  /** Dimensions with as many manifestations as each other keep the
      dictionary's first-seen order, as Python's stable `sorted` keeps them:
      the `i`-th category is the `p[i]`-th distinct dimension. */
  lemma CategoriasEstables(ms: seq<Manifestacion>)
    ensures var dims := Dimensiones(ms);
      var u := Seqs.Dedup(dims);
      var r, p := PriorizarCategorias(ms), Seqs.SortPerm(u, PorConteo(dims));
      && |p| == |r| == |u|
      && (forall i :: 0 <= i < |r| ==> p[i] < |u| && r[i] == u[p[i]])
      && (forall i, j :: 0 <= i < j < |r| && Seqs.Count(dims, r[i]) == Seqs.Count(dims, r[j]) ==> p[i] < p[j])
  {
    var dims := Dimensiones(ms);
    var u := Seqs.Dedup(dims);
    Seqs.SortDescSpec(u, PorConteo(dims));
  }

  const SesgosTipo5: seq<string> := [
    "sobre_analisis_paralizante", "postergar_accion_por_mas_info",
    "desconexion_necesidades_corporales", "retiro_en_vez_de_accion"]
  const SesgosTipo1: seq<string> := ["perfeccionismo_paralizante", "critica_excesiva", "rigidez"]
  const SesgosTipo7: seq<string> := ["dispersion", "evitar_profundidad", "sobre_optimismo"]

  /** `_identificar_sesgos`: the Enneagram biases, then one for a
      perceiving and one for a thinking type. */
  function Sesgos(e: Cognition.TipoEneagrama, m: Cognition.Mbti): (r: seq<string>)
    ensures e == 5 ==> |r| >= 4 && r[..4] == SesgosTipo5
    ensures |r| == (if e == 5 then 4 else if e == 1 || e == 7 then 3 else 0)
                   + (if 'P' in Letras(m) then 1 else 0) + (if 'T' in Letras(m) then 1 else 0)
  {
    (if e == 5 then SesgosTipo5 else if e == 1 then SesgosTipo1 else if e == 7 then SesgosTipo7 else [])
    + (if 'P' in Letras(m) then ["dificultad_cerrar_opciones"] else [])
    + (if 'T' in Letras(m) then ["desconexion_emocional"] else [])
  }

  /** The ENTP 5w4 profile carries all six biases. */
  lemma EntpFiveBiases()
    ensures |Sesgos(5, Cognition.ENTP)| == 6
  {
    assert Letras(Cognition.ENTP)[2] == 'T' && Letras(Cognition.ENTP)[3] == 'P';
  }

  // ---------------------------------------------------------------------------
  // Weaver
  // ---------------------------------------------------------------------------

  /** `_determinar_horarios_optimos`: the observed peak wins over the
      declared learning time, which is the fallback when no peak (or an
      empty one) is recorded. */
  function HorariosOptimos(p: Prisma): (r: seq<string>)
    ensures |r| == 1
    ensures p.metadatos.picoEnergiaReal.Some? && |p.metadatos.picoEnergiaReal.value| > 0
            ==> r[0] == p.metadatos.picoEnergiaReal.value
    ensures !(p.metadatos.picoEnergiaReal.Some? && |p.metadatos.picoEnergiaReal.value| > 0)
            ==> r[0] == p.metodo.mejorMomentoAprendizaje
  {
    var pico := p.metadatos.picoEnergiaReal;
    if pico.Some? && |pico.value| > 0 then [pico.value] else [p.metodo.mejorMomentoAprendizaje]
  }

  datatype EstiloTrabajo = BloquesProfundosConExploracion | ExploracionLibreConEstructura
                         | BloquesLargosLineales | PomodoroAdaptativo

  /** `_determinar_estilo_trabajo`. */
  function EstiloDeTrabajo(m: Cognition.Mbti, e: Cognition.TipoEneagrama): (r: EstiloTrabajo)
    ensures r == BloquesProfundosConExploracion <==> (m == Cognition.ENTP || m == Cognition.ENFP) && e == 5
    ensures r == ExploracionLibreConEstructura <==> (m == Cognition.ENTP || m == Cognition.ENFP) && e != 5
    ensures r == BloquesLargosLineales <==> m == Cognition.INTJ || m == Cognition.ISTJ
  {
    if m == Cognition.ENTP || m == Cognition.ENFP then
      if e == 5 then BloquesProfundosConExploracion else ExploracionLibreConEstructura
    else if m == Cognition.INTJ || m == Cognition.ISTJ then BloquesLargosLineales
    else PomodoroAdaptativo
  }

  /** `_determinar_balance`: depth over breadth on a 0..1 scale. */
  function Balance(m: MetodoAprendizaje): (b: real)
    ensures b * 10.0 == m.profundidadVsAmplitud as real
  {
    m.profundidadVsAmplitud as real / 10.0
  }

  /** `_generar_protecciones`. */
  function Protecciones(p: Prisma): (r: seq<string>)
    ensures |r| == (if p.metodo.requiereSilencio then 1 else 0)
                   + (if p.mbti == Cognition.ENTP && p.eneagrama == 5 then 2 else 0)
  {
    (if p.metodo.requiereSilencio then ["silencio_absoluto_bloques_profundos"] else [])
    + (if p.mbti == Cognition.ENTP && p.eneagrama == 5
       then ["limite_exploracion_conceptual", "checkpoint_implementacion"] else [])
  }

  /** The free-space base for the Human Design type. */
  function BaseEspacio(t: TipoHD): (b: real)
    ensures 0.35 <= b <= 0.55
  {
    match t
    case Generador => 0.45
    case Proyector => 0.50
    case Manifestor => 0.35
    case Reflector => 0.55
    case GeneradorManifestante => 0.40
  }

  function Progresos(ms: seq<Manifestacion>): (r: seq<real>)
    ensures |r| == |ms|
  {
    if |ms| == 0 then [] else [ms[0].progresoEstimado] + Progresos(ms[1..])
  }

  /** The sum of the three adjustments, before the clamp. */
  function EspacioSinLimites(p: Prisma): (e: real)
    ensures 0.25 <= e <= 0.65
  {
    var ratio := p.metadatos.ratioExpansionContraccion;
    var ajusteCoherencia := if ratio < 0.5 then 0.10 else if ratio > 0.7 then -0.05 else 0.0;
    var ajusteManifestacion :=
      if |p.manifestaciones| > 0 && Seqs.Mean(Progresos(p.manifestaciones)) > 70.0 then -0.05 else 0.0;
    BaseEspacio(p.tipo) + ajusteCoherencia + ajusteManifestacion
  }

  /** `_calcular_espacio_libre_dinamico`: clamped to [0.25, 0.60]. */
  function EspacioLibreDinamico(p: Prisma): (e: real)
    ensures 0.25 <= e <= 0.60
    ensures e == EspacioSinLimites(p) || (e == 0.60 && EspacioSinLimites(p) > 0.60)
  {
    var raw := EspacioSinLimites(p);
    if raw > 0.60 then 0.60 else if raw < 0.25 then 0.25 else raw
  }

  /** The lower limit never binds, and the upper one binds only for a
      Reflector with a coherence ratio below one half and no sprint. */
  lemma ClampOnlyAtTop(p: Prisma)
    ensures EspacioSinLimites(p) >= 0.25
    ensures EspacioSinLimites(p) > 0.60 ==> p.tipo == Reflector && p.metadatos.ratioExpansionContraccion < 0.5
  {
  }

  // ---------------------------------------------------------------------------
  // Orchestrator
  // ---------------------------------------------------------------------------

  function MenorProgreso(): Manifestacion -> real {
    (m: Manifestacion) => -m.progresoEstimado
  }

  function CriterioDe(m: Manifestacion): string {
    DimensionTexto(m.dimension) + "_" + NivelTexto(m.nivel)
  }

  function CriteriosDe(ms: seq<Manifestacion>): (r: seq<string>)
    ensures |r| == |ms|
    ensures forall i :: 0 <= i < |ms| ==> r[i] == CriterioDe(ms[i])
  {
    if |ms| == 0 then [] else [CriterioDe(ms[0])] + CriteriosDe(ms[1..])
  }

  /** The criterion the Human Design type puts first, if any. */
  function CriterioTipo(t: TipoHD): (r: seq<string>)
    ensures |r| == if t == Generador || t == Proyector then 1 else 0
  {
    if t == Generador then ["respuesta_sacral_positiva"]
    else if t == Proyector then ["invitacion_recibida"]
    else []
  }

  /** The manifestations, least advanced first (ties in order). */
  function PorProgreso(ms: seq<Manifestacion>): (r: seq<Manifestacion>)
    ensures |r| == |ms|
  {
    Seqs.SortDesc(ms, MenorProgreso())
  }

  /** `_determinar_criterios`: manifestations by ascending progress, with
      the type's own criterion first, cut to five. */
  function Criterios(p: Prisma): (r: seq<string>)
    ensures var n := |p.manifestaciones| + |CriterioTipo(p.tipo)|; |r| == if n < 5 then n else 5
    ensures p.tipo == Generador ==> r[0] == "respuesta_sacral_positiva"
    ensures p.tipo == Proyector ==> r[0] == "invitacion_recibida"
  {
    Seqs.Take(CriterioTipo(p.tipo) + CriteriosDe(PorProgreso(p.manifestaciones)), 5)
  }

  /** After the type's criterion come the manifestations' criteria in
      non-decreasing progress, each manifestation once. */
  lemma CriteriosAscending(p: Prisma)
    ensures var s := PorProgreso(p.manifestaciones);
      (forall i, j :: 0 <= i < j < |s| ==> s[i].progresoEstimado <= s[j].progresoEstimado)
      && (forall i :: 0 <= i < |p.manifestaciones| ==> p.manifestaciones[i] in s)
      && (forall k :: |CriterioTipo(p.tipo)| <= k < |Criterios(p)|
            ==> Criterios(p)[k] == CriterioDe(s[k - |CriterioTipo(p.tipo)|]))
  {
    var s := PorProgreso(p.manifestaciones);
    Seqs.SortDescSpec(p.manifestaciones, MenorProgreso());
    Seqs.SortDescSameElements(p.manifestaciones, MenorProgreso());
    forall i, j | 0 <= i < j < |s|
      ensures s[i].progresoEstimado <= s[j].progresoEstimado
    {
      assert MenorProgreso()(s[i]) >= MenorProgreso()(s[j]);
    }
  }

  /** Manifestations with the same progress keep their input order, as
      Python's stable `sorted` keeps them. */
  lemma CriteriosEstables(p: Prisma)
    ensures var ms := p.manifestaciones;
      var s, q := PorProgreso(ms), Seqs.SortPerm(ms, MenorProgreso());
      && |q| == |s| == |ms|
      && (forall i :: 0 <= i < |s| ==> q[i] < |ms| && s[i] == ms[q[i]])
      && (forall i, j :: 0 <= i < j < |s| && s[i].progresoEstimado == s[j].progresoEstimado ==> q[i] < q[j])
  {
    Seqs.SortDescSpec(p.manifestaciones, MenorProgreso());
  }

  datatype Detalle = Minimalista | Detallado | Moderado

  /** `_determinar_nivel_detalle`. */
  function NivelDetalle(e: Cognition.TipoEneagrama): (d: Detalle)
    ensures d == Minimalista <==> e == 5
    ensures d == Detallado <==> e == 1
  {
    if e == 5 then Minimalista else if e == 1 then Detallado else Moderado
  }

  /** `_determinar_flexibilidad`. */
  function Flexibilidad(m: Cognition.Mbti): (f: real)
    ensures f == 0.7 <==> 'P' in Letras(m)
    ensures f == 0.3 <==> 'P' !in Letras(m) && 'J' in Letras(m)
    ensures f == 0.5 <==> 'P' !in Letras(m) && 'J' !in Letras(m)
  {
    if 'P' in Letras(m) then 0.7 else if 'J' in Letras(m) then 0.3 else 0.5
  }

  /** Every type ends in J or P, so the middle value is never produced: a
      perceiving type gets 0.7, any other 0.3. */
  lemma FlexibilityNeverMiddle(m: Cognition.Mbti)
    ensures Letras(m)[3] == 'P' || Letras(m)[3] == 'J'
    ensures Flexibilidad(m) == (if Letras(m)[3] == 'P' then 0.7 else 0.3)
  {
  }

  /** `_generar_puntos_decision`. */
  function PuntosDecision(a: Autoridad): (r: seq<string>)
    ensures |r| == if a == Sacral || a == Emocional then 3 else 2
    ensures a != Sacral ==> r[0] == "inicio_dia"
  {
    if a == Sacral then ["antes_bloque_profundo", "antes_cambio_contexto", "cierre_jornada"]
    else if a == Emocional then ["inicio_dia", "media_jornada", "cierre_dia"]
    else ["inicio_dia", "cierre_dia"]
  }
}

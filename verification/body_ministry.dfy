/** The ministry of the body (`MinisterioCuerpo`): the circadian moment of
    the clock time, how well an action fits it, the proposals and alerts
    that follow, and the hour-based health metrics.

    The clock is a parameter: a time of day in minutes since midnight.
 */
module BodyMinistry {

  import Text

  /** `hour * 60 + minute`; the source's `hour + minute / 60` compared with
      whole hours gives the same bands. */
  type Minuto = m: int | 0 <= m < 1440

  datatype Fase =
    | Ascendente | Pico | Neutro | Valle | PicoSecundario
    | Integracion | Descendente | Recuperacion

  datatype Momento = Momento(
    nombre: string,
    fase: Fase,
    energiaBase: real,
    recomendacion: string,
    momentoLiturgico: string)

  // ---------------------------------------------------------------------------
  // Circadian moment
  // ---------------------------------------------------------------------------

  /** The band each phase covers, in whole hours: `[desde, hasta)`. The
      night band is the one that wraps around midnight. */
  function Ventana(f: Fase): (int, int) {
    match f
    case Ascendente => (5, 9)
    case Pico => (9, 12)
    case Neutro => (12, 14)
    case Valle => (14, 16)
    case PicoSecundario => (16, 18)
    case Integracion => (18, 20)
    case Descendente => (20, 22)
    case Recuperacion => (22, 29)
  }

  /** A time of day lies in a band, counting the early hours as the same
      night as the evening before. */
  predicate EnVentana(m: Minuto, f: Fase) {
    var t := if m < 300 then m + 1440 else m;
    Ventana(f).0 * 60 <= t < Ventana(f).1 * 60
  }

  /** `_identificar_momento_circadiano`, phase part. */
  function FaseDe(m: Minuto): (f: Fase)
    ensures f == Ascendente <==> 300 <= m < 540
    ensures f == Pico <==> 540 <= m < 720
    ensures f == Neutro <==> 720 <= m < 840
    ensures f == Valle <==> 840 <= m < 960
    ensures f == PicoSecundario <==> 960 <= m < 1080
    ensures f == Integracion <==> 1080 <= m < 1200
    ensures f == Descendente <==> 1200 <= m < 1320
    ensures f == Recuperacion <==> (m < 300 || m >= 1320)
  {
    if 300 <= m < 540 then Ascendente
    else if 540 <= m < 720 then Pico
    else if 720 <= m < 840 then Neutro
    else if 840 <= m < 960 then Valle
    else if 960 <= m < 1080 then PicoSecundario
    else if 1080 <= m < 1200 then Integracion
    else if 1200 <= m < 1320 then Descendente
    else Recuperacion
  }

  /** The eight bands partition the day: every time of day lies in exactly
      one band, the one of its phase. */
  lemma BandsPartitionDay(m: Minuto, f: Fase)
    ensures EnVentana(m, f) <==> FaseDe(m) == f
  {
  }

  /** Each band is reached: its first minute has that phase. */
  lemma EveryPhaseReached(f: Fase)
    ensures var m := (Ventana(f).0 * 60) % 1440; 0 <= m < 1440 && FaseDe(m) == f
  {
  }

  function EnergiaBase(f: Fase): real {
    match f
    case Ascendente => 85.0
    case Pico => 95.0
    case Neutro => 75.0
    case Valle => 55.0
    case PicoSecundario => 80.0
    case Integracion => 65.0
    case Descendente => 45.0
    case Recuperacion => 20.0
  }

  /** `_identificar_momento_circadiano`. */
  function MomentoCircadiano(m: Minuto): (r: Momento)
    ensures r.fase == FaseDe(m) && r.energiaBase == EnergiaBase(r.fase)
  {
    var f := FaseDe(m);
    match f
    case Ascendente => Momento("Fajr - Energía Ascendente", f, 85.0,
      "Ejercicio intenso, Estado Cero, tareas difíciles", "fajr")
    case Pico => Momento("Mañana - Pico Cognitivo", f, 95.0,
      "Trabajo profundo, decisiones importantes", "mañana")
    case Neutro => Momento("Dhuhr - Digestión", f, 75.0,
      "Comida principal, descanso ligero", "dhuhr")
    case Valle => Momento("Post-Almuerzo - Valle Energético", f, 55.0,
      "Siesta 20min, tareas mecánicas, no decisiones", "post_dhuhr")
    case PicoSecundario => Momento("Asr - Segundo Pico", f, 80.0,
      "Creatividad, socialización, reuniones", "asr")
    case Integracion => Momento("Maghrib - Integración", f, 65.0,
      "Espejo Nocturno, cierre del día, reflexión", "maghrib")
    case Descendente => Momento("Isha - Preparación Nocturna", f, 45.0,
      "Desconexión, ritual de sueño, soltar", "isha")
    case Recuperacion => Momento("Noche - Sueño Sagrado", f, 20.0,
      "Dormir, recuperación profunda", "noche")
  }

  /** The energy base tells the phase apart: different phases have
      different bases, the morning peak is the highest and the night the
      lowest. */
  lemma EnergyIdentifiesPhase(a: Fase, b: Fase)
    ensures EnergiaBase(a) == EnergiaBase(b) ==> a == b
    ensures EnergiaBase(Recuperacion) <= EnergiaBase(a) <= EnergiaBase(Pico)
  {
  }

  // ---------------------------------------------------------------------------
  // Fit of an action
  // ---------------------------------------------------------------------------

  const PalabrasAltaEnergia: seq<string> := [
    "ejercicio", "deporte", "correr", "entrenar", "físico",
    "trabajo intenso", "crear", "construir", "implementar"]

  const PalabrasCalma: seq<string> := [
    "meditar", "reflexionar", "leer", "escribir", "contemplar",
    "integrar", "procesar", "descansar"]

  predicate FaseDeEnergia(f: Fase) {
    f == Ascendente || f == Pico || f == PicoSecundario
  }

  predicate FaseDeCalma(f: Fase) {
    f == Integracion || f == Descendente || f == Recuperacion
  }

  /** `_evaluar_coherencia_circadiana`: high-energy actions are judged
      first, then calm ones; anything else is always acceptable. */
  function Coherencia(alta: bool, calma: bool, f: Fase): (r: real)
    ensures alta ==> (r == 90.0 <==> FaseDeEnergia(f)) && (r == 70.0 <==> f == Neutro)
                     && (r == 40.0 <==> !FaseDeEnergia(f) && f != Neutro)
    ensures !alta && calma ==> (r == 95.0 <==> FaseDeCalma(f)) && (r == 75.0 <==> f == Neutro)
                               && (r == 50.0 <==> !FaseDeCalma(f) && f != Neutro)
    ensures !alta && !calma ==> r == 70.0
  {
    if alta then
      if FaseDeEnergia(f) then 90.0 else if f == Neutro then 70.0 else 40.0
    else if calma then
      if FaseDeCalma(f) then 95.0 else if f == Neutro then 75.0 else 50.0
    else 70.0
  }

  /** The calm reading is never consulted for a high-energy action, and
      only the neutral action scores 70 outside the midday phase. */
  lemma HighEnergyFirst(calma: bool, f: Fase)
    ensures Coherencia(true, calma, f) == Coherencia(true, !calma, f)
    ensures Coherencia(true, true, Recuperacion) == 40.0
    ensures f != Neutro ==> (Coherencia(true, calma, f) != 70.0 && Coherencia(false, true, f) != 70.0)
  {
  }

  predicate Favorable(coherencia: real) {
    coherencia >= 70.0
  }

  // ---------------------------------------------------------------------------
  // Proposals and alerts
  // ---------------------------------------------------------------------------

  const ProponerPosponer := "⚠️ Momento de valle energético. Considera posponer 1-2h o hacer siesta de 20min primero."
  const ProponerFajr := "🌙 Momento de recuperación nocturna. Mejor ejecutar en Fajr (mañana)."
  const ProponerAprovechar := "☀️ Momento de pico energético. Aprovecha para acción antes de descansar."
  const ProponerEjercicio := "🌅 Momento ideal para ejercicio intenso antes de la acción."
  const ProponerSiesta := "😴 Siesta de 20min aumentaría energía en 30%."
  const ProponerEjecutar := "⚡ Energía óptima. Ejecuta sin preparación adicional."
  const ProponerReflexion := "🌆 Momento de integración. Considera reflexión post-acción."

  /** `_generar_propuestas_corporales`: one adjustment when the fit is low,
      then one proposal for the phase, both optional. */
  function Propuestas(accion: string, f: Fase, coherencia: real): (r: seq<string>)
    ensures |r| <= 2
    ensures coherencia >= 70.0 ==> |r| <= 1
    ensures f == Neutro || f == PicoSecundario || f == Descendente ==> |r| == 0
    ensures f == Valle ==> |r| == if coherencia < 70.0 then 2 else 1
  {
    var ajuste :=
      if coherencia < 70.0 then
        if f == Valle then [ProponerPosponer]
        else if f == Recuperacion then [ProponerFajr]
        else if f == Pico && Text.Contains(accion, "descansar") then [ProponerAprovechar]
        else []
      else [];
    var porFase :=
      if f == Ascendente then [ProponerEjercicio]
      else if f == Valle then [ProponerSiesta]
      else if f == Pico then [ProponerEjecutar]
      else if f == Integracion then [ProponerReflexion]
      else [];
    ajuste + porFase
  }

  const AlertaCoherencia := "⚠️ ALERTA: Coherencia circadiana muy baja. Riesgo de agotamiento."
  const AlertaSueno := "🌙 ALERTA: Momento de sueño. Ejecutar ahora compromete recuperación."
  const AlertaValle := "😴 ALERTA: Valle energético + acción intensa = alto riesgo de fracaso."

  /** `_generar_alertas`. */
  function Alertas(coherencia: real, f: Fase): (r: seq<string>)
    ensures AlertaCoherencia in r <==> coherencia < 50.0
    ensures AlertaSueno in r <==> f == Recuperacion
    ensures AlertaValle in r <==> f == Valle && coherencia < 60.0
    ensures |r| <= 3
  {
    (if coherencia < 50.0 then [AlertaCoherencia] else [])
    + (if f == Recuperacion then [AlertaSueno] else [])
    + (if f == Valle && coherencia < 60.0 then [AlertaValle] else [])
  }

  // ---------------------------------------------------------------------------
  // Answer to a decree
  // ---------------------------------------------------------------------------

  datatype Respuesta = Respuesta(
    favorable: bool,
    coherencia: real,
    momento: string,
    energiaDisponible: real,
    propuestas: seq<string>,
    alertas: seq<string>)

  predicate AltaEnergia(accion: string) {
    Text.ContainsAny(Text.Lower(accion), PalabrasAltaEnergia)
  }

  predicate Calma(accion: string) {
    Text.ContainsAny(Text.Lower(accion), PalabrasCalma)
  }

  /** `responder_a_decreto` for the decree's tangible action at a time. */
  function ResponderADecreto(accion: string, m: Minuto): (r: Respuesta)
    ensures r.coherencia == Coherencia(AltaEnergia(accion), Calma(accion), FaseDe(m))
    ensures r.favorable <==> r.coherencia >= 70.0
    ensures r.energiaDisponible == EnergiaBase(FaseDe(m))
    ensures r.alertas == Alertas(r.coherencia, FaseDe(m))
  {
    var momento := MomentoCircadiano(m);
    var a := Text.Lower(accion);
    var c := Coherencia(AltaEnergia(accion), Calma(accion), momento.fase);
    Respuesta(Favorable(c), c, momento.nombre, momento.energiaBase,
              Propuestas(a, momento.fase, c), Alertas(c, momento.fase))
  }

  /** When an answer is favorable, read off the action kind and the phase:
      high energy in the energetic phases or at midday, a calm action in
      the calm phases or at midday, or an action of neither kind. */
  lemma FavorableWhen(accion: string, m: Minuto)
    ensures var f := FaseDe(m);
      ResponderADecreto(accion, m).favorable <==>
        (AltaEnergia(accion) && (FaseDeEnergia(f) || f == Neutro))
        || (!AltaEnergia(accion) && Calma(accion) && (FaseDeCalma(f) || f == Neutro))
        || (!AltaEnergia(accion) && !Calma(accion))
  {
  }

  /** An answer carries alerts exactly at night, for a high-energy action
      in a phase that is neither energetic nor midday, or for any action of
      either kind in the afternoon valley — a calm action there scores 50
      and so raises the valley alert as well. */
  lemma AlertsWhen(accion: string, m: Minuto)
    ensures var f := FaseDe(m);
      |ResponderADecreto(accion, m).alertas| > 0 <==>
        f == Recuperacion
        || (AltaEnergia(accion) && !FaseDeEnergia(f) && f != Neutro)
        || (f == Valle && (AltaEnergia(accion) || Calma(accion)))
  {
    var f := FaseDe(m);
    var r := ResponderADecreto(accion, m);
    var al := Alertas(r.coherencia, f);
    assert |al| > 0 <==> (r.coherencia < 50.0 || f == Recuperacion || (f == Valle && r.coherencia < 60.0));
  }

  // ---------------------------------------------------------------------------
  // Health metrics
  // ---------------------------------------------------------------------------

  /** `_estimar_calidad_sueno`. */
  function CalidadSueno(m: Minuto): (r: real)
    ensures 300 <= m < 540 ==> r == 85.0
    ensures 540 <= m < 840 ==> r == 80.0
    ensures 840 <= m < 1080 ==> r == 70.0
    ensures 1080 <= m < 1320 ==> r == 60.0
    ensures (m < 300 || m >= 1320) ==> r == 40.0
  {
    if 300 <= m < 540 then 85.0
    else if 540 <= m < 840 then 80.0
    else if 840 <= m < 1080 then 70.0
    else if 1080 <= m < 1320 then 60.0
    else 40.0
  }

  /** From five in the morning on, the sleep estimate only goes down as
      the day goes on, and the night is the lowest estimate. */
  lemma SleepEstimateDecreases(a: Minuto, b: Minuto)
    requires 300 <= a <= b
    ensures CalidadSueno(b) <= CalidadSueno(a)
    ensures CalidadSueno(b) >= CalidadSueno(0)
  {
  }

  /** `_calcular_coherencia_ritmo`: awake at a reasonable hour. */
  function CoherenciaRitmo(m: Minuto): (r: real)
    ensures r == 85.0 <==> 300 <= m < 1380
    ensures r == 30.0 <==> !(300 <= m < 1380)
  {
    if 300 <= m < 1380 then 85.0 else 30.0
  }

  /** `metricas_salud`, in the source's key order. */
  function MetricasSalud(m: Minuto): (r: seq<(string, real)>)
    ensures |r| == 4
    ensures r[0] == ("calidad_sueno", CalidadSueno(m))
    ensures r[1] == ("energia_actual", EnergiaBase(FaseDe(m)))
    ensures r[2] == ("coherencia_circadiana", CoherenciaRitmo(m))
    ensures r[3] == ("movimiento_diario", 50.0)
  {
    [("calidad_sueno", CalidadSueno(m)),
     ("energia_actual", MomentoCircadiano(m).energiaBase),
     ("coherencia_circadiana", CoherenciaRitmo(m)),
     ("movimiento_diario", 50.0)]
  }

  /** Every metric stays within the documented 0..100. */
  lemma MetricsInRange(m: Minuto)
    ensures forall i :: 0 <= i < 4 ==> 0.0 <= MetricasSalud(m)[i].1 <= 100.0
  {
    var r := MetricasSalud(m);
    assert 0.0 <= r[0].1 <= 100.0 && 0.0 <= r[2].1 <= 100.0 && r[3].1 == 50.0;
    assert 0.0 <= r[1].1 <= 100.0 by {
      match FaseDe(m)
      case _ =>
    }
    CuatroEnRango(r);
  }

  /** Four metrics each in 0..100. */
  lemma CuatroEnRango(r: seq<(string, real)>)
    requires |r| == 4
    requires 0.0 <= r[0].1 <= 100.0 && 0.0 <= r[1].1 <= 100.0
    requires 0.0 <= r[2].1 <= 100.0 && 0.0 <= r[3].1 <= 100.0
    ensures forall i :: 0 <= i < 4 ==> 0.0 <= r[i].1 <= 100.0
  {
  }
}

/** The biological layer (`EstadoBiologico`, layer 3): energy, sleep and body
    resonance combine into a vitality score from 0 to 10 that drives three
    thresholds and the suggestion list.

    The point tables hold whole and half points only, so the score is a
    multiple of 0.5 and `round(score, 1)` leaves it unchanged; the model
    uses reals without the rounding.
 */
module Vitality {

  import opened Wrappers

  datatype Energia = MuyBajo | Bajo | Medio | Alto | MuyAlto
  datatype Sueno = Pesimo | Malo | Regular | Bueno | Excelente
  datatype Resonancia = Tension | Fatiga | Neutral | Fluido | Vibrante
  datatype Zona = Ninguna | Cabeza | CuelloHombros | PechoCorazon | Estomago | EspaldaBaja | Piernas | TodoCuerpo

  datatype EstadoBiologico = EstadoBiologico(
    energia: Energia,
    sueno: Sueno,
    resonancia: Resonancia,
    horasSueno: Option<real>,
    zona: Option<Zona>)

  /** Position of each level on its 1..5 scale, as the enum comments give it. */
  function NivelEnergia(e: Energia): (n: nat)
    ensures 1 <= n <= 5
  {
    match e
    case MuyBajo => 1 case Bajo => 2 case Medio => 3 case Alto => 4 case MuyAlto => 5
  }

  function NivelSueno(s: Sueno): (n: nat)
    ensures 1 <= n <= 5
  {
    match s
    case Pesimo => 1 case Malo => 2 case Regular => 3 case Bueno => 4 case Excelente => 5
  }

  function NivelResonancia(r: Resonancia): (n: nat)
    ensures 1 <= n <= 5
  {
    match r
    case Tension => 1 case Fatiga => 2 case Neutral => 3 case Fluido => 4 case Vibrante => 5
  }

  /** Energy points, 0 to 4. */
  function PuntosEnergia(e: Energia): real {
    match e
    case MuyBajo => 0.0 case Bajo => 1.0 case Medio => 2.0 case Alto => 3.0 case MuyAlto => 4.0
  }

  /** Sleep points, 0 to 3, in half steps. */
  function PuntosSueno(s: Sueno): real {
    match s
    case Pesimo => 0.0 case Malo => 0.5 case Regular => 1.5 case Bueno => 2.5 case Excelente => 3.0
  }

  /** Resonance points, 0 to 3. */
  function PuntosResonancia(r: Resonancia): real {
    match r
    case Tension => 0.0 case Fatiga => 1.0 case Neutral => 2.0 case Fluido => 2.5 case Vibrante => 3.0
  }

  /** `calcular_score_vitalidad`. */
  function Score(e: EstadoBiologico): (s: real)
    ensures 0.0 <= s <= 10.0
  {
    PuntosEnergia(e.energia) + PuntosSueno(e.sueno) + PuntosResonancia(e.resonancia)
  }

  /** The score is 0 only for the lowest level of all three inputs and 10
      only for the highest. */
  lemma ScoreExtremos(e: EstadoBiologico)
    ensures Score(e) == 0.0 <==> (e.energia == MuyBajo && e.sueno == Pesimo && e.resonancia == Tension)
    ensures Score(e) == 10.0 <==> (e.energia == MuyAlto && e.sueno == Excelente && e.resonancia == Vibrante)
  {
  }

  /** Each point table grows strictly with the level, so raising any one of
      the three inputs raises the score. */
  lemma ScoreMonotone(a: EstadoBiologico, b: EstadoBiologico)
    requires NivelEnergia(a.energia) <= NivelEnergia(b.energia)
    requires NivelSueno(a.sueno) <= NivelSueno(b.sueno)
    requires NivelResonancia(a.resonancia) <= NivelResonancia(b.resonancia)
    ensures Score(a) <= Score(b)
    ensures Score(a) == Score(b) <==>
      (a.energia == b.energia && a.sueno == b.sueno && a.resonancia == b.resonancia)
  {
  }

  /** The score is a whole number of half points, so rounding it to one
      decimal changes nothing. */
  lemma ScoreHalfPoints(e: EstadoBiologico)
    ensures (2.0 * Score(e)).Floor as real == 2.0 * Score(e)
  {
  }

  /** `esta_en_estado_optimo`. */
  predicate Optimo(e: EstadoBiologico) {
    Score(e) >= 6.5
  }

  /** `necesita_atencion_biologica`. */
  predicate NecesitaAtencion(e: EstadoBiologico) {
    Score(e) < 3.0
  }

  /** `esta_activa`: the score is extreme on either side. */
  predicate Activa(e: EstadoBiologico) {
    Score(e) < 6.0 || Score(e) > 8.0
  }

  /** How the three thresholds relate: attention and optimality exclude each
      other, attention makes the layer active, and an optimal state is
      inactive exactly when its score is at most 8. */
  lemma ThresholdsRelate(e: EstadoBiologico)
    ensures NecesitaAtencion(e) ==> !Optimo(e) && Activa(e)
    ensures Optimo(e) ==> (!Activa(e) <==> Score(e) <= 8.0)
    ensures !Activa(e) ==> Optimo(e) || Score(e) < 6.5
  {
  }

  /** Attention is only ever needed with at most medium energy; high energy
      alone scores 3. Conversely the lowest energy with bad sleep and a tense
      body always needs it. */
  lemma AttentionNeedsLowEnergy(e: EstadoBiologico)
    ensures NecesitaAtencion(e) ==> NivelEnergia(e.energia) <= 3
    ensures (e.energia == MuyBajo && NivelSueno(e.sueno) <= 3 && NivelResonancia(e.resonancia) <= 2)
            ==> NecesitaAtencion(e)
  {
  }

  /** Optimality is out of reach with the lowest energy (at most 6 points)
      or with both poor sleep and a fatigued or tense body; the best sleep
      and body with low energy already reach it. */
  lemma OptimalNeeds(e: EstadoBiologico)
    ensures Optimo(e) ==> e.energia != MuyBajo
    ensures Optimo(e) ==> NivelSueno(e.sueno) >= 3 || NivelResonancia(e.resonancia) >= 3
    ensures (e.energia == Bajo && e.sueno == Excelente && e.resonancia == Vibrante) ==> Optimo(e)
  {
  }

  // ---------------------------------------------------------------------------
  // Suggestions
  // ---------------------------------------------------------------------------

  datatype Urgencia = Baja | Media | Alta

  /** The urgency band of a vitality score. */
  function UrgenciaDe(vitalidad: real): (u: Urgencia)
    ensures u == Alta <==> vitalidad < 3.0
    ensures u == Media <==> 3.0 <= vitalidad < 5.0
    ensures u == Baja <==> vitalidad >= 5.0
  {
    if vitalidad < 3.0 then Alta
    else if vitalidad < 5.0 then Media
    else Baja
  }

  function ZonaTexto(z: Zona): string {
    match z
    case Ninguna => "ninguna"
    case Cabeza => "cabeza"
    case CuelloHombros => "cuello_hombros"
    case PechoCorazon => "pecho_corazon"
    case Estomago => "estomago"
    case EspaldaBaja => "espalda_baja"
    case Piernas => "piernas"
    case TodoCuerpo => "todo_cuerpo"
  }

  /** One suggestion of `generar_sugerencias_biologicas`, by its meaning;
      `Texto` gives the words the source returns. */
  datatype Sugerencia =
    | Siesta | RecuperarSueno | DeficitSueno | PracticaSomatica
    | AtenderZona(zona: Zona) | EstadoOptimo | Estable

  function Texto(s: Sugerencia): string {
    match s
    case Siesta => "Considerar siesta o descanso activo"
    case RecuperarSueno => "Priorizar recuperación de sueño esta noche"
    case DeficitSueno => "Déficit de sueño detectado - ajustar horarios"
    case PracticaSomatica => "Práctica somática: respiración, estiramiento, o movimiento consciente"
    case AtenderZona(z) => "Atender tensión en " + ZonaTexto(z)
    case EstadoOptimo => "Estado biológico óptimo - aprovechar para tareas exigentes"
    case Estable => "Estado biológico estable"
  }

  predicate EnergiaBaja(e: EstadoBiologico) {
    e.energia == MuyBajo || e.energia == Bajo
  }

  predicate SuenoMalo(e: EstadoBiologico) {
    e.sueno == Pesimo || e.sueno == Malo
  }

  /** `horas_sueno and horas_sueno < 6`: a recorded 0.0 hours is falsy in
      Python and raises no deficit. */
  predicate Deficit(e: EstadoBiologico) {
    e.horasSueno.Some? && e.horasSueno.value != 0.0 && e.horasSueno.value < 6.0
  }

  /** A tension zone other than `ninguna` was recorded. */
  predicate ZonaMarcada(e: EstadoBiologico) {
    e.zona.Some? && e.zona.value != Ninguna
  }

  /** `x` when the check `c` fires, else nothing. */
  function Si(c: bool, x: Sugerencia): (r: seq<Sugerencia>)
    ensures forall s :: s in r <==> c && s == x
  {
    if c then [x] else []
  }

  /** The suggestions the six checks give, in the order they run (the
      sleep one only inside the low-energy check), from the checks' outcomes. */
  function Lista(baja: bool, malo: bool, deficit: bool, tension: bool, marcada: bool, zona: Zona, optimo: bool): (r: seq<Sugerencia>)
    ensures forall s :: s in r <==>
      (s == Siesta && baja) || (s == RecuperarSueno && baja && malo) || (s == DeficitSueno && deficit)
      || (s == PracticaSomatica && tension) || (s == AtenderZona(zona) && marcada) || (s == EstadoOptimo && optimo)
  {
    Si(baja, Siesta) + Si(baja && malo, RecuperarSueno) + Si(deficit, DeficitSueno)
    + Si(tension, PracticaSomatica) + Si(marcada, AtenderZona(zona)) + Si(optimo, EstadoOptimo)
  }

  /** The suggestions before the stable-state fallback. */
  function Detectadas(e: EstadoBiologico): seq<Sugerencia> {
    Lista(EnergiaBaja(e), SuenoMalo(e), Deficit(e), e.resonancia == Tension,
          ZonaMarcada(e), if e.zona.Some? then e.zona.value else Ninguna, Optimo(e))
  }

  /** When a suggestion is due: each check's condition, and for the zone
      suggestion the zone recorded. The stable fallback is never detected. */
  predicate Aplica(e: EstadoBiologico, s: Sugerencia) {
    match s
    case Siesta => EnergiaBaja(e)
    case RecuperarSueno => EnergiaBaja(e) && SuenoMalo(e)
    case DeficitSueno => Deficit(e)
    case PracticaSomatica => e.resonancia == Tension
    case AtenderZona(z) => ZonaMarcada(e) && e.zona.value == z
    case EstadoOptimo => Optimo(e)
    case Estable => false
  }

  /** A suggestion is detected exactly when its condition holds. */
  lemma DetectadasSpec(e: EstadoBiologico, s: Sugerencia)
    ensures s in Detectadas(e) <==> Aplica(e, s)
  {
  }

  datatype Sugerencias = Sugerencias(sugerencias: seq<Sugerencia>, urgencia: Urgencia)

  /** `generar_sugerencias_biologicas`: the detected suggestions, or the
      stable fallback alone when none is; the urgency follows the score. */
  function GenerarSugerencias(e: EstadoBiologico): (r: Sugerencias)
    ensures |r.sugerencias| >= 1
    ensures r.urgencia == Alta <==> NecesitaAtencion(e)
    ensures r.urgencia == Baja ==> !NecesitaAtencion(e) && Score(e) >= 5.0
    ensures forall s :: s != Estable ==> (s in r.sugerencias <==> Aplica(e, s))
    ensures Estable in r.sugerencias <==> r.sugerencias == [Estable]
    ensures r.sugerencias == [Estable] <==>
      (!EnergiaBaja(e) && !Deficit(e) && e.resonancia != Tension && !ZonaMarcada(e) && !Optimo(e))
  {
    var d := Detectadas(e);
    DetectadasSpec(e, Estable);
    if |d| > 0 then
      assert d[0] in d;
      DetectadasSpec(e, d[0]);
      forall s | s != Estable ensures s in d <==> Aplica(e, s) {
        DetectadasSpec(e, s);
      }
      Sugerencias(d, UrgenciaDe(Score(e)))
    else
      forall s | s != Estable ensures s in d <==> Aplica(e, s) {
        DetectadasSpec(e, s);
      }
      Sugerencias([Estable], UrgenciaDe(Score(e)))
  }

  /** An optimal state never carries high or medium urgency. */
  lemma OptimalIsLowUrgency(e: EstadoBiologico)
    ensures Optimo(e) ==> GenerarSugerencias(e).urgencia == Baja
  {
  }

  // ---------------------------------------------------------------------------
  // Quick construction
  // ---------------------------------------------------------------------------

  /** `energia_map.get(energia, MEDIO)`. */
  function EnergiaDe(n: int): (e: Energia)
    ensures 1 <= n <= 5 ==> NivelEnergia(e) == n
    ensures !(1 <= n <= 5) ==> e == Medio
  {
    if n == 1 then MuyBajo else if n == 2 then Bajo else if n == 4 then Alto
    else if n == 5 then MuyAlto else Medio
  }

  /** `sueno_map.get(calidad_sueno, REGULAR)`. */
  function SuenoDe(n: int): (s: Sueno)
    ensures 1 <= n <= 5 ==> NivelSueno(s) == n
    ensures !(1 <= n <= 5) ==> s == Regular
  {
    if n == 1 then Pesimo else if n == 2 then Malo else if n == 4 then Bueno
    else if n == 5 then Excelente else Regular
  }

  function ResonanciaTexto(r: Resonancia): string {
    match r
    case Tension => "tension"
    case Fatiga => "fatiga"
    case Neutral => "neutral"
    case Fluido => "fluido"
    case Vibrante => "vibrante"
  }

  /** `resonancia_map.get(resonancia, NEUTRAL)`. */
  function ResonanciaDe(s: string): (r: Resonancia)
    ensures s == "tension" ==> r == Tension
    ensures s == "fatiga" ==> r == Fatiga
    ensures s == "fluido" ==> r == Fluido
    ensures s == "vibrante" ==> r == Vibrante
    ensures s !in {"tension", "fatiga", "fluido", "vibrante"} ==> r == Neutral
  {
    if s == "tension" then Tension
    else if s == "fatiga" then Fatiga
    else if s == "fluido" then Fluido
    else if s == "vibrante" then Vibrante
    else Neutral
  }

  /** Parsing a resonance's own name gives it back. */
  lemma ResonanciaRoundTrip(r: Resonancia)
    ensures ResonanciaDe(ResonanciaTexto(r)) == r
  {
  }

  /** `crear_estado_rapido`: no optional field is set. */
  function CrearEstadoRapido(energia: int, sueno: int, resonancia: string): (r: EstadoBiologico)
    ensures r.horasSueno.None? && r.zona.None?
    ensures 1 <= energia <= 5 ==> NivelEnergia(r.energia) == energia
    ensures 1 <= sueno <= 5 ==> NivelSueno(r.sueno) == sueno
    ensures !(1 <= energia <= 5) ==> r.energia == Medio
    ensures !(1 <= sueno <= 5) ==> r.sueno == Regular
    ensures r.resonancia == ResonanciaDe(resonancia)
  {
    EstadoBiologico(EnergiaDe(energia), SuenoDe(sueno), ResonanciaDe(resonancia), None, None)
  }

  /** Out-of-range input lands on the middle of every scale: score 5.5,
      neither optimal nor in need of attention, but active. */
  lemma QuickDefaultsScore(energia: int, sueno: int)
    requires !(1 <= energia <= 5) && !(1 <= sueno <= 5)
    ensures var e := CrearEstadoRapido(energia, sueno, "");
      Score(e) == 5.5 && !Optimo(e) && !NecesitaAtencion(e) && Activa(e)
  {
  }

  /** Building from levels and reading the levels back is the identity. */
  lemma QuickRoundTrip(e: EstadoBiologico)
    ensures var q := CrearEstadoRapido(NivelEnergia(e.energia), NivelSueno(e.sueno), ResonanciaTexto(e.resonancia));
      q == e.(horasSueno := None, zona := None)
  {
  }
}

/** The "Law of the Octave" model (`ley_octava.py`): seven notes, each tied to
    one weekday, one dimension and one colour; the just-intonation ratios of
    the notes; the two critical intervals (MI-FA and SI-DO) that need a
    conscious shock; the weekly plan; and the seven harmonics of a goal.
 */
module Octave {

  import opened Wrappers
  import Assoc
  import Seqs
  import Arith

  datatype Nota = DO | RE | MI | FA | SOL | LA | SI

  datatype Dia = Domingo | Lunes | Martes | Miercoles | Jueves | Viernes | Sabado

  datatype Dimension = Espiritual | Biologico | Financiero | Conocimiento | Relacional | Desarrollo | Creativo

  datatype Color = Rojo | Naranja | Amarillo | Verde | Azul | Indigo | Violeta

  datatype TipoShock = RevisionProfunda | CelebracionIntegracion

  /** The notes, days and dimensions in the order the source lists them. */
  function Notas(): seq<Nota> { [DO, RE, MI, FA, SOL, LA, SI] }
  function Dias(): seq<Dia> { [Domingo, Lunes, Martes, Miercoles, Jueves, Viernes, Sabado] }
  function Dimensiones(): seq<Dimension> {
    [Espiritual, Biologico, Financiero, Conocimiento, Relacional, Desarrollo, Creativo]
  }

  /** The position of a note in the scale. */
  function NotaIndex(n: Nota): (i: nat)
    ensures i < 7 && Notas()[i] == n
  {
    match n
    case DO => 0 case RE => 1 case MI => 2 case FA => 3 case SOL => 4 case LA => 5 case SI => 6
  }

  // ---------------------------------------------------------------------------
  // Correspondences (CORRESPONDENCIAS_OCTAVA)
  // ---------------------------------------------------------------------------

  function DiaDeNota(n: Nota): Dia {
    match n
    case DO => Domingo case RE => Lunes case MI => Martes case FA => Miercoles
    case SOL => Jueves case LA => Viernes case SI => Sabado
  }

  function DimensionDeNota(n: Nota): Dimension {
    match n
    case DO => Espiritual case RE => Biologico case MI => Financiero case FA => Conocimiento
    case SOL => Relacional case LA => Desarrollo case SI => Creativo
  }

  function ColorDeNota(n: Nota): Color {
    match n
    case DO => Rojo case RE => Naranja case MI => Amarillo case FA => Verde
    case SOL => Azul case LA => Indigo case SI => Violeta
  }

  function ColorHex(c: Color): string {
    match c
    case Rojo => "#DC2626" case Naranja => "#F97316" case Amarillo => "#F59E0B"
    case Verde => "#10B981" case Azul => "#3B82F6" case Indigo => "#6366F1" case Violeta => "#8B5CF6"
  }

  /** The note of a day: the inverse of `DiaDeNota`. */
  function NotaDeDia(d: Dia): (n: Nota)
    ensures DiaDeNota(n) == d
  {
    match d
    case Domingo => DO case Lunes => RE case Martes => MI case Miercoles => FA
    case Jueves => SOL case Viernes => LA case Sabado => SI
  }

  /** The note of a dimension: the search over the table in
      `generar_armonicos_iniciales`, which always finds one. */
  function NotaDeDimension(d: Dimension): (n: Nota)
    ensures DimensionDeNota(n) == d
  {
    match d
    case Espiritual => DO case Biologico => RE case Financiero => MI case Conocimiento => FA
    case Relacional => SOL case Desarrollo => LA case Creativo => SI
  }

  /** Note, day, dimension and colour are in one-to-one correspondence. */
  lemma CorrespondenceIsBijective(n: Nota, m: Nota, d: Dia, x: Dimension)
    ensures NotaDeDia(DiaDeNota(n)) == n && DiaDeNota(NotaDeDia(d)) == d
    ensures NotaDeDimension(DimensionDeNota(n)) == n && DimensionDeNota(NotaDeDimension(x)) == x
    ensures DiaDeNota(n) == DiaDeNota(m) ==> n == m
    ensures DimensionDeNota(n) == DimensionDeNota(m) ==> n == m
    ensures ColorDeNota(n) == ColorDeNota(m) ==> n == m
    ensures ColorHex(ColorDeNota(n)) == ColorHex(ColorDeNota(m)) ==> n == m
  {
  }

  /** The day sequence and the note sequence line up position by position. */
  lemma SequencesAlign(i: nat)
    requires i < 7
    ensures DiaDeNota(Notas()[i]) == Dias()[i]
    ensures DimensionDeNota(Notas()[i]) == Dimensiones()[i]
  {
  }

  // ---------------------------------------------------------------------------
  // Frequencies (FRECUENCIAS_OCTAVA)
  // ---------------------------------------------------------------------------

  /** Ratio of each note to the fundamental DO (just intonation). */
  function Frecuencia(n: Nota): (r: real)
    ensures 1.0 <= r < 2.0
  {
    match n
    case DO => 1.0 case RE => 9.0 / 8.0 case MI => 5.0 / 4.0 case FA => 4.0 / 3.0
    case SOL => 3.0 / 2.0 case LA => 5.0 / 3.0 case SI => 15.0 / 8.0
  }

  /** The step from each note to the next one. */
  function IntervaloSiguiente(n: Nota): real {
    match n
    case DO => 9.0 / 8.0 case RE => 10.0 / 9.0 case MI => 16.0 / 15.0 case FA => 9.0 / 8.0
    case SOL => 10.0 / 9.0 case LA => 9.0 / 8.0 case SI => 16.0 / 15.0
  }

  /** `es_intervalo_critico` of the frequency table. */
  predicate TablaCritico(n: Nota) {
    n == MI || n == SI
  }

  /** Each step multiplies into the next note's ratio, the step from SI closes
      the octave at 2, and the two critical steps are exactly the half-tones
      (the smallest step). */
  lemma FrequencyLadder(n: Nota)
    ensures NotaIndex(n) < 6 ==> Frecuencia(n) * IntervaloSiguiente(n) == Frecuencia(Notas()[NotaIndex(n) + 1])
    ensures n == SI ==> Frecuencia(n) * IntervaloSiguiente(n) == 2.0
    ensures TablaCritico(n) <==> IntervaloSiguiente(n) == 16.0 / 15.0
    ensures TablaCritico(n) ==> forall m: Nota :: IntervaloSiguiente(n) <= IntervaloSiguiente(m)
    ensures TablaCritico(n) <==> EsIntervaloCritico(n)
  {
  }

  /** 2 raised to an integer power; a negative exponent gives a fraction, as
      `2 ** k` does in Python. */
  function Pow2(k: int): (r: real)
    ensures r > 0.0
    decreases if k < 0 then -k else k
  {
    if k == 0 then 1.0 else if k > 0 then 2.0 * Pow2(k - 1) else Pow2(k + 1) / 2.0
  }

  /** `calcular_frecuencia_octava`: the base ratio times `2^(octava-1)`. */
  function FrecuenciaEnOctava(n: Nota, octava: int): (r: real)
    ensures octava == 1 ==> r == Frecuencia(n)
  {
    Frecuencia(n) * Pow2(octava - 1)
  }

  /** Going one octave up doubles every frequency. */
  lemma OctaveDoubles(n: Nota, octava: int)
    ensures FrecuenciaEnOctava(n, octava + 1) == 2.0 * FrecuenciaEnOctava(n, octava)
  {
    Pow2Step(octava - 1);
  }

  lemma Pow2Step(k: int)
    ensures Pow2(k + 1) == 2.0 * Pow2(k)
    decreases if k < 0 then -k else k
  {
    if k < -1 {
      Pow2Step(k + 1);
    }
  }

  // ---------------------------------------------------------------------------
  // Critical intervals and shocks
  // ---------------------------------------------------------------------------

  /** `es_intervalo_critico`: the note before a half-tone. */
  predicate EsIntervaloCritico(n: Nota) {
    n in [MI, SI]
  }

  /** `obtener_shock_requerido`. */
  function ShockRequerido(n: Nota): (r: Option<TipoShock>)
    ensures r.Some? <==> EsIntervaloCritico(n)
    ensures r == Some(RevisionProfunda) <==> n == MI
    ensures r == Some(CelebracionIntegracion) <==> n == SI
  {
    if n == MI then Some(RevisionProfunda)
    else if n == SI then Some(CelebracionIntegracion)
    else None
  }

  /** A conscious shock (`ShockConsciente`) as the model creates it. */
  datatype ShockConsciente = ShockConsciente(
    tipo: TipoShock,
    intervalo: string,
    dia: Dia,
    fechaProgramada: Option<int>,
    realizado: bool,
    notas: string,
    duracionMinutos: int)

  /** The fixed description of each shock. */
  function ShockDe(t: TipoShock): (r: ShockConsciente)
    ensures r.tipo == t && !r.realizado && r.fechaProgramada.None? && r.notas == ""
    ensures t == RevisionProfunda ==> r.intervalo == "MI-FA" && r.dia == Miercoles && r.duracionMinutos == 30
    ensures t == CelebracionIntegracion ==> r.intervalo == "SI-DO" && r.dia == Domingo && r.duracionMinutos == 45
  {
    match t
    case RevisionProfunda =>
      ShockConsciente(RevisionProfunda, "MI-FA", Miercoles, None, false, "", 30)
    case CelebracionIntegracion =>
      ShockConsciente(CelebracionIntegracion, "SI-DO", Domingo, None, false, "", 45)
  }

  // ---------------------------------------------------------------------------
  // Weekly plan
  // ---------------------------------------------------------------------------

  /** One day of the weekly plan (`FaseSemanal`), without the phase name
      and the suggested activity text. */
  datatype FaseSemanal = FaseSemanal(
    dia: Dia,
    nota: Nota,
    esIntervaloCritico: bool,
    shockRequerido: Option<TipoShock>,
    completada: bool)

  type Plan = Assoc.Dict<Dia, FaseSemanal>

  function FaseDe(n: Nota): FaseSemanal {
    FaseSemanal(DiaDeNota(n), n, EsIntervaloCritico(n), ShockRequerido(n), false)
  }

  /** `generar_plan_semanal_octava`: one uncompleted phase per day, Sunday
      (DO) to Saturday (SI). */
  function PlanSemanal(): (r: Plan)
    ensures |r| == 7
    ensures forall i :: 0 <= i < 7 ==> r[i].0 == Dias()[i] && r[i].1.dia == Dias()[i]
    ensures forall i :: 0 <= i < 7 ==> r[i].1.nota == Notas()[i]
    ensures forall i :: 0 <= i < 7 ==> !r[i].1.completada
    ensures forall i :: 0 <= i < 7 ==> r[i].1.shockRequerido == ShockRequerido(r[i].1.nota)
  {
    seq(7, i requires 0 <= i < 7 => (Dias()[i], FaseDe(Notas()[i])))
  }

  /** Every day has exactly one entry, and looking a day up gives its note's
      phase. */
  lemma PlanCoversWeek(d: Dia)
    ensures Assoc.DistinctKeys(PlanSemanal())
    ensures Assoc.Get(PlanSemanal(), d) == Some(FaseDe(NotaDeDia(d)))
  {
    var p := PlanSemanal();
    var i := NotaIndex(NotaDeDia(d));
    SequencesAlign(i);
    assert p[i].0 == d;
    Assoc.GetAt(p, i);
  }

  // ---------------------------------------------------------------------------
  // Harmonics
  // ---------------------------------------------------------------------------

  /** A harmonic (`Armonico`), without its question text. */
  datatype Armonico = Armonico(
    dimension: Dimension,
    nota: Nota,
    frecuencia: real,
    peso: real,
    satisfecho: bool,
    notas: string)

  const PesoPrimaria: real := 0.30
  const PesoSecundaria: real := (1.0 - 0.30) / 6.0

  function ArmonicoDe(d: Dimension, primaria: Dimension): Armonico {
    var n := NotaDeDimension(d);
    Armonico(d, n, Frecuencia(n), if d == primaria then PesoPrimaria else PesoSecundaria,
      false, "")
  }

  /** `generar_armonicos_iniciales`: all seven dimensions, each with its own
      note, the primary one weighted 0.30 and the other six sharing 0.70. */
  function ArmonicosIniciales(primaria: Dimension): (r: Assoc.Dict<Dimension, Armonico>)
    ensures |r| == 7
    ensures forall i :: 0 <= i < 7 ==> r[i].0 == Dimensiones()[i] && r[i].1.dimension == Dimensiones()[i]
    ensures forall i :: 0 <= i < 7 ==> DimensionDeNota(r[i].1.nota) == r[i].0 && !r[i].1.satisfecho
    ensures forall i :: 0 <= i < 7 ==> (r[i].1.peso == PesoPrimaria <==> r[i].0 == primaria)
  {
    seq(7, i requires 0 <= i < 7 => (Dimensiones()[i], ArmonicoDe(Dimensiones()[i], primaria)))
  }

  function Pesos(arms: Assoc.Dict<Dimension, Armonico>): (r: seq<real>)
    ensures |r| == |arms|
  {
    seq(|arms|, i requires 0 <= i < |arms| => arms[i].1.peso)
  }

  /** The initial weights add up to exactly 1. */
  lemma PesosSumToOne(primaria: Dimension)
    ensures Seqs.SumReal(Pesos(ArmonicosIniciales(primaria))) == 1.0
  {
    var w := Pesos(ArmonicosIniciales(primaria));
    var k := NotaIndex(NotaDeDimension(primaria));
    SequencesAlign(k);
    SumWithOneDistinguished(w, k, PesoPrimaria, PesoSecundaria);
  }

  /** A sequence that is `b` everywhere except `a` at one position sums to
      `a + (n-1) b`. */
  lemma {:induction false} SumWithOneDistinguished(w: seq<real>, k: nat, a: real, b: real)
    requires k < |w| && w[k] == a
    requires forall i :: 0 <= i < |w| && i != k ==> w[i] == b
    ensures Seqs.SumReal(w) == a + (|w| - 1) as real * b
    decreases |w|
  {
    var n := |w| - 1;
    var init, last := w[..n], w[n];
    assert w == init + [last];
    Seqs.SumRealAppend(init, [last]);
    assert Seqs.SumReal([last]) == last;
    if k == n {
      forall i | 0 <= i < |init|
        ensures b <= init[i] <= b
      {
        assert init[i] == w[i];
      }
      Seqs.SumRealBounds(init, b, b);
    } else {
      forall i | 0 <= i < |init| && i != k
        ensures init[i] == b
      {
        assert init[i] == w[i];
      }
      SumWithOneDistinguished(init, k, a, b);
      OneMore(n as real, b);
    }
  }

  lemma OneMore(n: real, b: real)
    ensures (n - 1.0) * b + b == n * b
  {
  }

  /** `calcular_coherencia_armonica`: the share of satisfied harmonics, in
      percent; 0 with no harmonics. */
  function CoherenciaArmonica(arms: Assoc.Dict<Dimension, Armonico>): (r: real)
    ensures |arms| == 0 ==> r == 0.0
    ensures |arms| > 0 ==> r * (|arms| as real) == (Satisfechos(arms) as real) * 100.0
  {
    var k, n := Satisfechos(arms), |arms|;
    PorcentajeSpec(k, n);
    Porcentaje(k, n)
  }

  /** Brings the ratio `Porcentaje` keeps into scope at a call site. */
  lemma PorcentajeSpec(k: nat, n: nat)
    requires k <= n
    ensures n > 0 ==> Porcentaje(k, n) * (n as real) == (k as real) * 100.0
  {
  }

  /** `k` out of `n` in percent, 0 when there is nothing to count. */
  function Porcentaje(k: nat, n: nat): (r: real)
    requires k <= n
    ensures n == 0 ==> r == 0.0
    ensures n > 0 ==> r * (n as real) == (k as real) * 100.0
  {
    if n == 0 then 0.0
    else
      var q := Arith.Fraction(k, n);
      Arith.Scale(q, n as real, k as real, 100.0);
      q * 100.0
  }

  /** `sum(1 for arm in armonicos.values() if arm.satisfecho)`. */
  function Satisfechos(arms: Assoc.Dict<Dimension, Armonico>): (r: nat)
    ensures r <= |arms|
    ensures r == |arms| <==> forall i :: 0 <= i < |arms| ==> arms[i].1.satisfecho
    ensures r == 0 <==> forall i :: 0 <= i < |arms| ==> !arms[i].1.satisfecho
  {
    if |arms| == 0 then 0
    else (if arms[0].1.satisfecho then 1 else 0) + Satisfechos(arms[1..])
  }

  /** Coherence lies in [0, 100]; it is 100 exactly when every harmonic is
      satisfied, and 0 exactly when none is. */
  lemma CoherenciaBounds(arms: Assoc.Dict<Dimension, Armonico>)
    ensures 0.0 <= CoherenciaArmonica(arms) <= 100.0
    ensures |arms| > 0 ==> (CoherenciaArmonica(arms) == 100.0 <==> forall i :: 0 <= i < |arms| ==> arms[i].1.satisfecho)
    ensures CoherenciaArmonica(arms) == 0.0 <==> forall i :: 0 <= i < |arms| ==> !arms[i].1.satisfecho
  {
    if |arms| > 0 {
      Arith.PercentBounds(Satisfechos(arms) as real, |arms| as real, CoherenciaArmonica(arms));
    }
  }

  // ---------------------------------------------------------------------------
  // Pending shock
  // ---------------------------------------------------------------------------

  /** `detectar_shock_pendiente`: today's phase, when it requires a shock and
      is not completed, yields that shock's description. */
  function ShockPendiente(plan: Plan, hoy: Dia): (r: Option<ShockConsciente>)
    ensures r.Some? <==> (Assoc.Get(plan, hoy).Some?
      && Assoc.Get(plan, hoy).value.shockRequerido.Some?
      && !Assoc.Get(plan, hoy).value.completada)
    ensures r.Some? ==> r.value == ShockDe(Assoc.Get(plan, hoy).value.shockRequerido.value)
  {
    match Assoc.Get(plan, hoy)
    case None => None
    case Some(f) =>
      if f.shockRequerido.Some? && !f.completada then Some(ShockDe(f.shockRequerido.value)) else None
  }

  /** On a fresh plan the shocks fall on Tuesday (MI) and Saturday (SI) only. */
  lemma FreshPlanShockDays(d: Dia)
    ensures ShockPendiente(PlanSemanal(), d).Some? <==> d == Martes || d == Sabado
  {
    PlanCoversWeek(d);
  }
}

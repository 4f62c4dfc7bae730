/** The octave goals manager (`GestorOctavas`): goals structured as octaves,
    the two conscious shocks scheduled in each week, the weekly status, shock
    application, advancing to the next octave, and the summary of active
    goals.

    Dates are `Dates.Day` ordinals; `date.today()` and `datetime.now()` are
    parameters.
 */
module OctaveGoals {

  import opened Wrappers
  import Assoc
  import Seqs
  import Dates
  import Arith
  import opened Octave

  /** `ObjetivoOctava`, without the free-text description, practice and
      timestamps. */
  datatype Objetivo = Objetivo(
    nombre: string,
    notaFundamental: Nota,
    dimensionPrimaria: Dimension,
    frecuenciaBase: real,
    armonicos: Assoc.Dict<Dimension, Armonico>,
    fechaInicio: Dates.Day,
    octavaActual: int,
    nivelFrecuencia: real,
    plan: Plan,
    shocks: seq<ShockConsciente>,
    completitud: real,
    estado: string)

  /** The manager's registry, keyed by goal id. */
  type Gestor = Assoc.Dict<string, Objetivo>

  /** A registry lookup; a missing id is an error. */
  function Buscar(g: Gestor, id: string): (r: Result<Objetivo, string>)
    ensures r.Ok? <==> Assoc.HasKey(g, id)
    ensures r.Ok? ==> Assoc.Get(g, id) == Some(r.value)
    ensures r.Err? ==> r.error == "Objetivo no encontrado: " + id
  {
    match Assoc.Get(g, id)
    case Some(o) => Ok(o)
    case None => Err("Objetivo no encontrado: " + id)
  }

  // ---------------------------------------------------------------------------
  // Weekdays
  // ---------------------------------------------------------------------------

  /** The weekday names in `date.weekday()` order, Monday first. */
  function DiasDesdeLunes(): seq<Dia> {
    [Lunes, Martes, Miercoles, Jueves, Viernes, Sabado, Domingo]
  }

  /** The day label of a date, Monday first (as the shock and priority
      lookups of the manager compute it). */
  function DiaDeFecha(d: Dates.Day): (r: Dia)
    ensures Dates.Weekday(d) == 0 <==> r == Lunes
    ensures Dates.Weekday(d) == 2 <==> r == Miercoles
    ensures Dates.Weekday(d) == 6 <==> r == Domingo
  {
    DiasDesdeLunes()[Dates.Weekday(d)]
  }

  /** Each label belongs to exactly one weekday, so seven consecutive days get
      seven different labels. */
  lemma DiaDeFechaInjective(a: Dates.Day, b: Dates.Day)
    ensures DiaDeFecha(a) == DiaDeFecha(b) <==> Dates.Weekday(a) == Dates.Weekday(b)
  {
  }

  /** The day label of a date as the weekly status computes it: the weekday
      number indexes a list that starts on Sunday. */
  function DiaDeFechaAsWritten(d: Dates.Day): (r: Dia)
    ensures r == DiaDeFecha(d - 1)
    ensures Dates.Weekday(d) == 0 ==> r == Domingo
  {
    Dates.WeekdayPeriodic(d - 1);
    Dias()[Dates.Weekday(d)]
  }

  /** The status labels every date with the day before: a Monday is reported
      as Sunday. */
  lemma AsWrittenIsOneDayBehind(d: Dates.Day)
    ensures DiaDeFechaAsWritten(d) == DiaDeFecha(d - 1)
    ensures Dates.Weekday(d) == 0 ==> DiaDeFechaAsWritten(d) == Domingo
    ensures DiaDeFechaAsWritten(d) != DiaDeFecha(d)
  {
    Dates.WeekdayPeriodic(d - 1);
  }

  // ---------------------------------------------------------------------------
  // Shocks
  // ---------------------------------------------------------------------------

  /** `_generar_shocks_conscientes`: a review on the Wednesday and a
      celebration on the Sunday of the start date's Monday-based week. */
  function GenerarShocks(inicio: Dates.Day): (r: seq<ShockConsciente>)
    ensures |r| == 2
    ensures r[0].tipo == RevisionProfunda && r[0].intervalo == "MI-FA" && r[0].dia == Miercoles
    ensures r[1].tipo == CelebracionIntegracion && r[1].intervalo == "SI-DO" && r[1].dia == Domingo
    ensures r[0].duracionMinutos == 30 && r[1].duracionMinutos == 45
    ensures forall i :: 0 <= i < 2 ==> !r[i].realizado && r[i].notas == "" && r[i].fechaProgramada.Some?
    ensures r[0].fechaProgramada.value == Dates.MondayOf(inicio) + 2
    ensures r[1].fechaProgramada.value == Dates.MondayOf(inicio) + 6
  {
    var lunes := Dates.MondayOf(inicio);
    [ ShockConsciente(RevisionProfunda, "MI-FA", Miercoles, Some(lunes + 2), false, "", 30),
      ShockConsciente(CelebracionIntegracion, "SI-DO", Domingo, Some(lunes + 6), false, "", 45) ]
  }

  /** Both shocks fall in the start date's week, no earlier than its Monday,
      and each on the weekday its own label names. */
  lemma ShocksInStartWeek(inicio: Dates.Day)
    ensures forall i :: 0 <= i < 2 ==>
      var f := GenerarShocks(inicio)[i].fechaProgramada.value;
      Dates.MondayOf(f) == Dates.MondayOf(inicio)
      && DiaDeFecha(f) == GenerarShocks(inicio)[i].dia
  {
    var m := Dates.MondayOf(inicio);
    Dates.MondayOfWeek(m, 2);
    Dates.MondayOfWeek(m, 6);
  }

  /** The index of the first unrealised shock of a type. */
  function PrimerPendiente(shocks: seq<ShockConsciente>, tipo: TipoShock): (r: Option<nat>)
    ensures r.Some? ==> r.value < |shocks| && shocks[r.value].tipo == tipo && !shocks[r.value].realizado
    ensures r.Some? ==> forall j :: 0 <= j < r.value ==> !(shocks[j].tipo == tipo && !shocks[j].realizado)
    ensures r.None? <==> forall j :: 0 <= j < |shocks| ==> !(shocks[j].tipo == tipo && !shocks[j].realizado)
    decreases |shocks|
  {
    if |shocks| == 0 then None
    else if shocks[0].tipo == tipo && !shocks[0].realizado then Some(0)
    else
      match PrimerPendiente(shocks[1..], tipo)
      case None => None
      case Some(k) => Some(k + 1)
  }

  /** What `aplicar_shock_consciente` leaves behind and returns. */
  datatype Aplicado = Aplicado(objetivo: Objetivo, shock: ShockConsciente)

  /** The next octave: one more octave, twice the frequency level, completion
      reset, and a fresh plan and pair of shocks from the given date. */
  function NuevaOctava(o: Objetivo, desde: Dates.Day): (r: Objetivo)
    ensures r.octavaActual == o.octavaActual + 1
    ensures r.nivelFrecuencia == 2.0 * o.nivelFrecuencia
    ensures r.completitud == 0.0
    ensures r.plan == PlanSemanal()
    ensures r.shocks == GenerarShocks(desde)
    ensures r.(octavaActual := o.octavaActual, nivelFrecuencia := o.nivelFrecuencia,
               completitud := o.completitud, plan := o.plan, shocks := o.shocks) == o
  {
    o.(octavaActual := o.octavaActual + 1, nivelFrecuencia := o.nivelFrecuencia * 2.0,
       completitud := 0.0, plan := PlanSemanal(), shocks := GenerarShocks(desde))
  }

  /** A shock marked done with the user's notes. */
  function Marcar(s: ShockConsciente, notas: string): (r: ShockConsciente)
    ensures r.realizado && r.notas == notas
    ensures r.(realizado := s.realizado, notas := s.notas) == s
  {
    s.(realizado := true, notas := notas)
  }

  /** `aplicar_shock_consciente` on one goal. The first unrealised shock of
      the type is marked realised with the user's notes; a celebration also
      starts the next octave the day after the shock's date. Without such a
      shock, or (for a celebration) without a date to continue from, it
      fails. */
  function AplicarShockEn(o: Objetivo, tipo: TipoShock, notas: string): (r: Result<Aplicado, string>)
    ensures PrimerPendiente(o.shocks, tipo).None? ==> r.Err?
    ensures PrimerPendiente(o.shocks, tipo).Some? ==>
      var k := PrimerPendiente(o.shocks, tipo).value;
      (r.Err? <==> tipo == CelebracionIntegracion && o.shocks[k].fechaProgramada.None?)
      && (r.Ok? ==> r.value.shock == Marcar(o.shocks[k], notas))
      && (r.Ok? && tipo == RevisionProfunda ==> r.value.objetivo == o.(shocks := o.shocks[k := r.value.shock]))
      && (r.Ok? && tipo == CelebracionIntegracion ==>
            r.value.objetivo == NuevaOctava(o, o.shocks[k].fechaProgramada.value + 1))
  {
    var p := PrimerPendiente(o.shocks, tipo);
    if p.None? then Err("No hay shock pendiente de tipo " + TipoTexto(tipo))
    else
      var hecho := Marcar(o.shocks[p.value], notas);
      if tipo == RevisionProfunda then Ok(Aplicado(o.(shocks := o.shocks[p.value := hecho]), hecho))
      else if hecho.fechaProgramada.None? then Err("fecha_programada is None")
      else Ok(Aplicado(NuevaOctava(o, hecho.fechaProgramada.value + 1), hecho))
  }

  function TipoTexto(t: TipoShock): string {
    match t
    case RevisionProfunda => "revision_profunda"
    case CelebracionIntegracion => "celebracion_integracion"
  }

  /** `aplicar_shock_consciente` through the registry. */
  function AplicarShock(g: Gestor, id: string, tipo: TipoShock, notas: string): (r: Result<(Gestor, ShockConsciente), string>)
    ensures !Assoc.HasKey(g, id) ==> r == Err("Objetivo no encontrado: " + id)
    ensures Assoc.HasKey(g, id) ==> (r.Ok? <==> AplicarShockEn(Assoc.Get(g, id).value, tipo, notas).Ok?)
    ensures r.Ok? ==>
      var a := AplicarShockEn(Assoc.Get(g, id).value, tipo, notas).value;
      r.value == (Assoc.Put(g, id, a.objetivo), a.shock)
  {
    var o :- Buscar(g, id);
    var a :- AplicarShockEn(o, tipo, notas);
    Ok((Assoc.Put(g, id, a.objetivo), a.shock))
  }

  /** A fresh week's review is always applicable, and applying it leaves
      only the celebration pending. */
  lemma ReviewThenCelebration(o: Objetivo, notas: string)
    requires o.shocks == GenerarShocks(o.fechaInicio)
    ensures AplicarShockEn(o, RevisionProfunda, notas).Ok?
    ensures var o2 := AplicarShockEn(o, RevisionProfunda, notas).value.objetivo;
      PrimerPendiente(o2.shocks, RevisionProfunda).None?
      && PrimerPendiente(o2.shocks, CelebracionIntegracion) == Some(1)
  {
    var o2 := AplicarShockEn(o, RevisionProfunda, notas).value.objetivo;
    assert o2.shocks[0].realizado;
  }

  /** A celebration is applicable once per week: after it the new week's
      review and celebration are both pending again, one octave higher. */
  lemma CelebrationStartsNextOctave(o: Objetivo, notas: string)
    requires o.shocks == GenerarShocks(o.fechaInicio)
    ensures AplicarShockEn(o, CelebracionIntegracion, notas).Ok?
    ensures var o2 := AplicarShockEn(o, CelebracionIntegracion, notas).value.objetivo;
      o2.octavaActual == o.octavaActual + 1
      && PrimerPendiente(o2.shocks, RevisionProfunda) == Some(0)
      && PrimerPendiente(o2.shocks, CelebracionIntegracion) == Some(1)
      && o2.shocks[0].fechaProgramada.value == Dates.MondayOf(o.fechaInicio) + 9
  {
    var m := Dates.MondayOf(o.fechaInicio);
    Dates.MondayOfWeek(m, 0);
    Dates.WeekdayPeriodic(m);
    assert Dates.Weekday(m + 7) == 0;
    Dates.MondayOfWeek(m + 7, 0);
  }

  // ---------------------------------------------------------------------------
  // Advancing a week
  // ---------------------------------------------------------------------------

  /** `avanzar_semana` on one goal: refused while the stored completion is
      below 100; otherwise the next octave, planned from today. */
  function AvanzarSemanaEn(o: Objetivo, hoy: Dates.Day): (r: Result<Objetivo, string>)
    ensures r.Err? <==> o.completitud < 100.0
    ensures r.Ok? ==> r.value == NuevaOctava(o, hoy)
  {
    if o.completitud < 100.0 then
      Err("La octava actual no está completa. Completa las 7 fases antes de avanzar.")
    else Ok(NuevaOctava(o, hoy))
  }

  /** `avanzar_semana` through the registry. */
  function AvanzarSemana(g: Gestor, id: string, hoy: Dates.Day): (r: Result<Gestor, string>)
    ensures !Assoc.HasKey(g, id) ==> r == Err("Objetivo no encontrado: " + id)
    ensures Assoc.HasKey(g, id) ==> (r.Ok? <==> Assoc.Get(g, id).value.completitud >= 100.0)
    ensures r.Ok? ==> r.value == Assoc.Put(g, id, NuevaOctava(Assoc.Get(g, id).value, hoy))
  {
    var o :- Buscar(g, id);
    var o2 :- AvanzarSemanaEn(o, hoy);
    Ok(Assoc.Put(g, id, o2))
  }

  /** Advancing twice from a complete octave (completion restored in
      between) quadruples the frequency level. */
  lemma AdvanceDoubles(o: Objetivo, hoy: Dates.Day, manana: Dates.Day)
    requires o.completitud >= 100.0
    ensures AvanzarSemanaEn(o, hoy).Ok?
    ensures var o1 := AvanzarSemanaEn(o, hoy).value;
      AvanzarSemanaEn(o1, manana).Err?
      && AvanzarSemanaEn(o1.(completitud := 100.0), manana).value.nivelFrecuencia == 4.0 * o.nivelFrecuencia
      && AvanzarSemanaEn(o1.(completitud := 100.0), manana).value.octavaActual == o.octavaActual + 2
  {
  }

  // ---------------------------------------------------------------------------
  // Weekly status
  // ---------------------------------------------------------------------------

  /** The number of completed phases in a plan. */
  function Completadas(plan: Plan): (r: nat)
    ensures r <= |plan|
    ensures r == |plan| <==> forall i :: 0 <= i < |plan| ==> plan[i].1.completada
    ensures r == 0 <==> forall i :: 0 <= i < |plan| ==> !plan[i].1.completada
  {
    if |plan| == 0 then 0
    else (if plan[0].1.completada then 1 else 0) + Completadas(plan[1..])
  }

  /** `EstadoOctava`. */
  datatype EstadoOctava = EstadoOctava(
    semanaActual: int,
    diaActual: Dia,
    notaActual: Nota,
    proximoIntervalo: Option<string>,
    diasHastaShock: Option<int>,
    shockPendiente: Option<ShockConsciente>,
    diasCompletados: nat,
    completitud: real,
    requiereAtencion: bool)

  /** `obtener_estado_octava_actual` on one goal, with today's label computed
      by `dia`. A plan without an entry for that day fails. */
  function EstadoCon(o: Objetivo, hoy: Dates.Day, dia: Dia): (r: Result<EstadoOctava, string>)
    ensures r.Err? <==> !Assoc.HasKey(o.plan, dia)
    ensures r.Ok? ==> r.value.diaActual == dia && r.value.notaActual == Assoc.Get(o.plan, dia).value.nota
    ensures r.Ok? ==> r.value.semanaActual == o.octavaActual
    ensures r.Ok? ==> r.value.shockPendiente == ShockPendiente(o.plan, dia)
    ensures r.Ok? ==> (r.value.requiereAtencion <==> r.value.shockPendiente.Some?)
    ensures r.Ok? ==> (r.value.proximoIntervalo.Some? <==> EsIntervaloCritico(r.value.notaActual))
    ensures r.Ok? ==> (r.value.diasHastaShock.Some? <==> EsIntervaloCritico(r.value.notaActual))
    ensures r.Ok? && r.value.notaActual == MI ==> r.value.diasHastaShock == Some(Dates.DaysUntil(hoy, 2))
    ensures r.Ok? && r.value.notaActual == SI ==> r.value.diasHastaShock == Some(Dates.DaysUntil(hoy, 6))
    ensures r.Ok? ==> (r.value.diasCompletados == Completadas(o.plan)
      && r.value.completitud * 7.0 == (Completadas(o.plan) as real) * 100.0)
  {
    match Assoc.Get(o.plan, dia)
    case None => Err("KeyError")
    case Some(fase) =>
      var nota := fase.nota;
      var intervalo := if nota == MI then Some("MI-FA") else if nota == SI then Some("SI-DO") else None;
      var hasta := if nota == MI then Some(Dates.DaysUntil(hoy, 2)) else if nota == SI then Some(Dates.DaysUntil(hoy, 6)) else None;
      var pendiente := ShockPendiente(o.plan, dia);
      var hechos := Completadas(o.plan);
      Ok(EstadoOctava(o.octavaActual, dia, nota, intervalo, hasta, pendiente, hechos,
        (hechos as real) / 7.0 * 100.0, pendiente.Some? && !pendiente.value.realizado))
  }

  /** The weekly status as written: today's label comes from the Sunday-first
      list. */
  function EstadoAsWritten(o: Objetivo, hoy: Dates.Day): (r: Result<EstadoOctava, string>)
    ensures r == EstadoCon(o, hoy, DiaDeFecha(hoy - 1))
  {
    EstadoCon(o, hoy, DiaDeFechaAsWritten(hoy))
  }

  /** On the Wednesday the review shock is scheduled for, the status as
      written reports Tuesday, the day whose phase (MI) is still counting down
      to the shock, instead of Wednesday. */
  lemma AsWrittenMisreportsShockDay(o: Objetivo)
    requires o.plan == PlanSemanal()
    requires o.shocks == GenerarShocks(o.fechaInicio)
    ensures var f := o.shocks[0].fechaProgramada.value;
      EstadoAsWritten(o, f).Ok?
      && EstadoAsWritten(o, f).value.diaActual == Martes
      && EstadoAsWritten(o, f).value.diaActual != o.shocks[0].dia
      && EstadoActual(o, f).Ok? && EstadoActual(o, f).value.diaActual == o.shocks[0].dia
  {
    var m := Dates.MondayOf(o.fechaInicio);
    var sh := GenerarShocks(o.fechaInicio);
    assert sh[0].dia == Miercoles && sh[0].fechaProgramada == Some(m + 2);
    var f := o.shocks[0].fechaProgramada.value;
    Dates.MondayOfWeek(m, 2);
    assert f == m + 2 && Dates.Weekday(f) == 2;
    assert DiaDeFechaAsWritten(f) == Martes;
    assert DiaDeFecha(f) == Miercoles;
    PlanCoversWeek(Martes);
    PlanCoversWeek(Miercoles);
    assert Assoc.HasKey(o.plan, Miercoles);
    var e := EstadoActual(o, f);
    assert e.Ok? && e.value.diaActual == Miercoles;
  }

  /** The weekly status with the Monday-first label, the order the manager's
      other day lookups use. */
  function EstadoActual(o: Objetivo, hoy: Dates.Day): (r: Result<EstadoOctava, string>)
    ensures r.Ok? ==> r.value.diaActual == DiaDeFecha(hoy)
    ensures r.Err? <==> !Assoc.HasKey(o.plan, DiaDeFecha(hoy))
  {
    EstadoCon(o, hoy, DiaDeFecha(hoy))
  }

  /** On a fresh plan the status never fails, and a shock is pending exactly
      on Tuesday and Saturday, the days of the critical notes. */
  lemma FreshEstado(o: Objetivo, hoy: Dates.Day)
    requires o.plan == PlanSemanal()
    ensures EstadoActual(o, hoy).Ok?
    ensures EstadoActual(o, hoy).value.requiereAtencion <==> (DiaDeFecha(hoy) == Martes || DiaDeFecha(hoy) == Sabado)
    ensures EstadoActual(o, hoy).value.diasCompletados == 0 && EstadoActual(o, hoy).value.completitud == 0.0
  {
    PlanCoversWeek(DiaDeFecha(hoy));
    FreshPlanShockDays(DiaDeFecha(hoy));
  }

  /** A full week of completed phases gives a completion of exactly 100. */
  lemma CompletitudFull(o: Objetivo, hoy: Dates.Day)
    requires |o.plan| == 7 && EstadoActual(o, hoy).Ok?
    ensures EstadoActual(o, hoy).value.completitud == 100.0 <==> forall i :: 0 <= i < 7 ==> o.plan[i].1.completada
    ensures 0.0 <= EstadoActual(o, hoy).value.completitud <= 100.0
  {
    var c := EstadoActual(o, hoy).value.completitud;
    assert c * 7.0 == (Completadas(o.plan) as real) * 100.0;
  }

  // ---------------------------------------------------------------------------
  // Day lookups over the registry
  // ---------------------------------------------------------------------------

  predicate Activa(o: Objetivo) {
    o.estado == "activa"
  }

  /** `calcular_dimension_prioritaria_hoy`: the dimension of the note whose
      day is today. */
  function DimensionPrioritaria(hoy: Dates.Day): (r: Dimension)
    ensures NotaDeDia(DiaDeFecha(hoy)) == NotaDeDimension(r)
  {
    DimensionDeNota(NotaDeDia(DiaDeFecha(hoy)))
  }

  /** `obtener_objetivos_por_dia`: the active goals whose phase for the day
      exists and is not completed, in registry order. */
  function ObjetivosPorDia(g: Gestor, dia: Dia): (r: seq<(Objetivo, FaseSemanal)>)
    ensures |r| <= |g|
    ensures forall i :: 0 <= i < |r| ==>
      Activa(r[i].0) && Assoc.Get(r[i].0.plan, dia) == Some(r[i].1) && !r[i].1.completada
  {
    if |g| == 0 then []
    else
      var o := g[0].1;
      var rest := ObjetivosPorDia(g[1..], dia);
      match Assoc.Get(o.plan, dia)
      case Some(f) => if Activa(o) && !f.completada then [(o, f)] + rest else rest
      case None => rest
  }

  /** Every active goal whose phase for the day exists and is not completed
      is listed, with that phase. */
  lemma {:induction false} ObjetivosPorDiaComplete(g: Gestor, dia: Dia, k: nat)
    requires k < |g| && Activa(g[k].1)
    requires Assoc.Get(g[k].1.plan, dia).Some? && !Assoc.Get(g[k].1.plan, dia).value.completada
    ensures (g[k].1, Assoc.Get(g[k].1.plan, dia).value) in ObjetivosPorDia(g, dia)
    decreases |g|
  {
    if k > 0 {
      ObjetivosPorDiaComplete(g[1..], dia, k - 1);
      assert g[1..][k - 1] == g[k];
    }
  }

  /** `obtener_shocks_pendientes_hoy`: the active goals with a pending shock
      today, in registry order. */
  function ShocksPendientesHoy(g: Gestor, hoy: Dates.Day): (r: seq<(Objetivo, ShockConsciente)>)
    ensures |r| <= |g|
    ensures forall i :: 0 <= i < |r| ==> Activa(r[i].0) && ShockPendiente(r[i].0.plan, DiaDeFecha(hoy)) == Some(r[i].1)
  {
    if |g| == 0 then []
    else
      var o := g[0].1;
      var rest := ShocksPendientesHoy(g[1..], hoy);
      match ShockPendiente(o.plan, DiaDeFecha(hoy))
      case Some(s) => if Activa(o) then [(o, s)] + rest else rest
      case None => rest
  }

  /** Every active goal with a pending shock today appears in the list. */
  lemma {:induction false} ShocksPendientesComplete(g: Gestor, hoy: Dates.Day, k: nat)
    requires k < |g| && Activa(g[k].1) && ShockPendiente(g[k].1.plan, DiaDeFecha(hoy)).Some?
    ensures exists i :: 0 <= i < |ShocksPendientesHoy(g, hoy)| && ShocksPendientesHoy(g, hoy)[i].0 == g[k].1
    decreases |g|
  {
    var r := ShocksPendientesHoy(g, hoy);
    if k == 0 {
      assert r[0].0 == g[0].1;
    } else {
      ShocksPendientesComplete(g[1..], hoy, k - 1);
      var rest := ShocksPendientesHoy(g[1..], hoy);
      var i :| 0 <= i < |rest| && rest[i].0 == g[k].1;
      if ShockPendiente(g[0].1.plan, DiaDeFecha(hoy)).Some? && Activa(g[0].1) {
        assert r[i + 1] == rest[i];
      } else {
        assert r[i] == rest[i];
      }
    }
  }

  // ---------------------------------------------------------------------------
  // Summary
  // ---------------------------------------------------------------------------

  /** The goals in state 'activa', in registry order. */
  function Activos(g: Gestor): (r: seq<Objetivo>)
    ensures |r| <= |g|
    ensures forall i :: 0 <= i < |r| ==> Activa(r[i])
  {
    if |g| == 0 then []
    else (if Activa(g[0].1) then [g[0].1] else []) + Activos(g[1..])
  }

  /** A goal is summarised exactly when it is registered and active. */
  lemma {:induction false} ActivosSpec(g: Gestor, o: Objetivo)
    ensures o in Activos(g) <==> Activa(o) && exists k :: 0 <= k < |g| && g[k].1 == o
    decreases |g|
  {
    if |g| > 0 {
      ActivosSpec(g[1..], o);
      if exists k :: 0 <= k < |g| && g[k].1 == o {
        var k :| 0 <= k < |g| && g[k].1 == o;
        if k > 0 {
          assert g[1..][k - 1].1 == o;
        }
      }
      if exists k :: 0 <= k < |g| - 1 && g[1..][k].1 == o {
        var k :| 0 <= k < |g| - 1 && g[1..][k].1 == o;
        assert g[k + 1].1 == o;
      }
    }
  }

  function Pendientes(shocks: seq<ShockConsciente>): (r: nat)
    ensures r <= |shocks|
  {
    if |shocks| == 0 then 0
    else (if shocks[0].realizado then 0 else 1) + Pendientes(shocks[1..])
  }

  /** `generar_resumen_octavas_activas`, without the per-dimension grouping. */
  datatype Resumen = Resumen(
    totalObjetivos: nat,
    octavasEnProgreso: int,
    shocksPendientes: nat,
    coherenciaPromedio: real,
    nivelFrecuenciaPromedio: real)

  function SumaOctavas(os: seq<Objetivo>): int {
    if |os| == 0 then 0 else os[0].octavaActual + SumaOctavas(os[1..])
  }

  function SumaPendientes(os: seq<Objetivo>): nat {
    if |os| == 0 then 0 else Pendientes(os[0].shocks) + SumaPendientes(os[1..])
  }

  function Coherencias(os: seq<Objetivo>): (r: seq<real>)
    ensures |r| == |os|
    ensures forall i :: 0 <= i < |os| ==> r[i] == CoherenciaArmonica(os[i].armonicos)
  {
    seq(|os|, i requires 0 <= i < |os| => CoherenciaArmonica(os[i].armonicos))
  }

  function Niveles(os: seq<Objetivo>): (r: seq<real>)
    ensures |r| == |os|
  {
    seq(|os|, i requires 0 <= i < |os| => os[i].nivelFrecuencia)
  }

  /** With no active goals every count is zero; otherwise the coherence
      average is the mean over the active goals, so it lies in [0, 100]. */
  function ResumenActivas(g: Gestor): (r: Resumen)
    ensures |Activos(g)| == 0 ==> r == Resumen(0, 0, 0, 0.0, 0.0)
    ensures r.totalObjetivos == |Activos(g)|
    ensures r.totalObjetivos > 0 ==> r.coherenciaPromedio == Seqs.Mean(Coherencias(Activos(g)))
    ensures 0.0 <= r.coherenciaPromedio <= 100.0
  {
    var act := Activos(g);
    if |act| == 0 then Resumen(0, 0, 0, 0.0, 0.0)
    else
      var cs := Coherencias(act);
      CoherenciasBounded(act);
      Seqs.MeanBounds(cs, 0.0, 100.0);
      Resumen(|act|, SumaOctavas(act), SumaPendientes(act), Seqs.Mean(cs), Seqs.Mean(Niveles(act)))
  }

  lemma CoherenciasBounded(os: seq<Objetivo>)
    ensures forall i :: 0 <= i < |os| ==> 0.0 <= Coherencias(os)[i] <= 100.0
  {
    forall i | 0 <= i < |os|
      ensures 0.0 <= Coherencias(os)[i] <= 100.0
    {
      CoherenciaBounds(os[i].armonicos);
    }
  }


  // ---------------------------------------------------------------------------
  // Goal creation
  // ---------------------------------------------------------------------------

  /** `crear_objetivo_octava`: the note of the primary dimension, its
      harmonics, a fresh plan and the two shocks of the start week; the first
      octave at frequency level 1. Every dimension has a note, so the
      "invalid dimension" error cannot arise. */
  function CrearObjetivo(nombre: string, dim: Dimension, inicio: Dates.Day): (r: Objetivo)
    ensures DimensionDeNota(r.notaFundamental) == dim && r.dimensionPrimaria == dim
    ensures r.frecuenciaBase == Frecuencia(r.notaFundamental)
    ensures r.armonicos == ArmonicosIniciales(dim)
    ensures r.plan == PlanSemanal() && r.shocks == GenerarShocks(inicio)
    ensures r.octavaActual == 1 && r.nivelFrecuencia == 1.0 && r.completitud == 0.0 && Activa(r)
  {
    var n := NotaDeDimension(dim);
    Objetivo(nombre, n, dim, Frecuencia(n), ArmonicosIniciales(dim), inicio,
      1, 1.0, PlanSemanal(), GenerarShocks(inicio), 0.0, "activa")
  }

  /** A new goal cannot advance until its completion is set: `avanzar_semana`
      refuses it. */
  lemma NewGoalCannotAdvance(nombre: string, dim: Dimension, inicio: Dates.Day, hoy: Dates.Day)
    ensures AvanzarSemanaEn(CrearObjetivo(nombre, dim, inicio), hoy).Err?
  {
  }
}

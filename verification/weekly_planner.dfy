/** The personal weekly planner (`AgenteEntrelazador`): for each day of a
    week it weaves the profile's sport routines, meals, budget, learning
    topics, development projects and investment matters into one plan,
    detects conflicts and synergies, and estimates the energy the day needs;
    over the week it finds the low-demand days kept free for emergencies.

    Dates are ordinals (see `Dates`); `date.max` is 9999-12-31.
 */
module WeeklyPlanner {

  import opened Wrappers
  import Seqs
  import Text
  import Dates

  // ---------------------------------------------------------------------------
  // Profile
  // ---------------------------------------------------------------------------

  datatype Rutina = Rutina(
    nombre: string,
    diasSemana: seq<string>,
    horaPreferida: string,
    duracionMinutos: int,
    tipo: string,
    intensidad: int)

  datatype ComidaConfig = ComidaConfig(
    tipo: string,
    horaAproximada: string,
    duracionPreparacion: int,
    recetasPreferidas: seq<string>,
    batchCooking: bool,
    diasBatch: Option<seq<string>>)

  datatype Categoria = Categoria(nombre: string, asignadoMensual: real, gastadoMesActual: real)

  datatype Tema = Tema(
    nombre: string,
    dominio: string,
    prioridad: int,
    tiempoSemanalDeseado: int,
    recursos: seq<string>)

  datatype Proyecto = Proyecto(
    nombre: string,
    tipo: string,
    estado: string,
    prioridad: int,
    horasSemanalesDeseadas: int,
    deadline: Option<Dates.Day>,
    hitos: seq<string>)

  datatype Asunto = Asunto(
    nombre: string,
    tipo: string,
    montoInvolucrado: Option<real>,
    fechaDecision: Option<Dates.Day>,
    prioridad: int)

  datatype Perfil = Perfil(
    rutinas: seq<Rutina>,
    comidas: seq<ComidaConfig>,
    diaCompraSemanal: string,
    presupuesto: seq<Categoria>,
    temas: seq<Tema>,
    proyectos: seq<Proyecto>,
    asuntos: seq<Asunto>)

  // ---------------------------------------------------------------------------
  // The parts of a day
  // ---------------------------------------------------------------------------

  datatype Deporte = Deporte(nombre: string, tipo: string, horaSugerida: string, duracion: int, intensidad: int)

  datatype Comida = Comida(tipo: string, hora: string, tiempoCocinar: int, receta: string, esBatchCooking: bool)

  datatype TemaSugerido = TemaSugerido(
    tema: string,
    dominio: string,
    tiempoSugerido: int,
    prioridad: int,
    recursos: seq<string>)

  datatype ProyectoSugerido = ProyectoSugerido(
    proyecto: string,
    tipo: string,
    tiempoSugerido: int,
    prioridad: int,
    hitosHoy: seq<string>,
    deadline: Option<Dates.Day>)

  /** "DECIDIR HOY", or "Decidir en N días". */
  datatype Accion = DecidirHoy | DecidirEn(dias: nat)

  datatype Urgencia = Alta | Media

  datatype AsuntoDia = AsuntoDia(
    asunto: string,
    tipo: string,
    accion: Accion,
    monto: Option<real>,
    prioridad: int,
    urgencia: Urgencia)

  datatype Conflicto =
    | DemasiadaEnergia
    | BatchYProyecto
    | TiempoExcesivo(horas: int, minutos: int)

  datatype Sinergia = EjercicioCreatividad | BatchLiberaEstudio | DiaBalanceado

  const DiasSemana: seq<string> := ["lunes", "martes", "miércoles", "jueves", "viernes", "sábado", "domingo"]

  /** `_nombre_dia`: the Spanish name of the day's weekday. */
  function NombreDia(d: Dates.Day): (r: string)
    ensures r == DiasSemana[Dates.Weekday(d)]
    ensures Dates.Weekday(d) == 0 ==> r == "lunes"
    ensures Dates.Weekday(d) == 6 ==> r == "domingo"
  {
    DiasSemana[Dates.Weekday(d)]
  }

  // ---------------------------------------------------------------------------
  // Sport and meals
  // ---------------------------------------------------------------------------

  /** The weekday name appears in the list, ignoring (ASCII) case. */
  predicate NombradoEn(dia: string, dias: seq<string>) {
    exists k :: 0 <= k < |dias| && Text.Lower(dias[k]) == Text.Lower(dia)
  }

  function ProgramadaEl(dia: string): Rutina -> bool {
    (r: Rutina) => NombradoEn(dia, r.diasSemana)
  }

  function DeporteDe(r: Rutina): Deporte {
    Deporte(r.nombre, r.tipo, r.horaPreferida, r.duracionMinutos, r.intensidad)
  }

  /** `_obtener_deportes_dia`: the routines scheduled on this weekday, in
      profile order. */
  function DeportesDia(rs: seq<Rutina>, dia: string): (r: seq<Deporte>)
    ensures |r| <= |rs|
    ensures forall i :: 0 <= i < |r| ==>
      exists j :: 0 <= j < |rs| && NombradoEn(dia, rs[j].diasSemana) && r[i] == DeporteDe(rs[j])
    ensures forall j :: 0 <= j < |rs| && NombradoEn(dia, rs[j].diasSemana) ==> DeporteDe(rs[j]) in r
  {
    var f := Seqs.Filter(rs, ProgramadaEl(dia));
    var r := seq(|f|, i requires 0 <= i < |f| => DeporteDe(f[i]));
    assert forall i :: 0 <= i < |f| ==> r[i] == DeporteDe(f[i]);
    r
  }

  /** A routine added at the end of the profile is listed last on the days
      it names, so the sports keep the profile order. */
  lemma DeportesDiaAlFinal(rs: seq<Rutina>, x: Rutina, dia: string)
    ensures DeportesDia(rs + [x], dia) ==
      DeportesDia(rs, dia) + (if NombradoEn(dia, x.diasSemana) then [DeporteDe(x)] else [])
  {
    Seqs.FilterSnoc(rs, x, ProgramadaEl(dia));
  }

  /** A meal is batch-cooked on a day when batch cooking is on, the batch
      days are given and non-empty, and they name this day. */
  predicate EsBatch(c: ComidaConfig, dia: string) {
    c.batchCooking && c.diasBatch.Some? && |c.diasBatch.value| > 0 && NombradoEn(dia, c.diasBatch.value)
  }

  /** One meal of `_planificar_comidas_dia`: the first preferred recipe, or
      "Por definir" when there is none. */
  function ComidaDe(c: ComidaConfig, dia: string): (r: Comida)
    ensures r.esBatchCooking <==> EsBatch(c, dia)
    ensures |c.recetasPreferidas| > 0 ==> r.receta == c.recetasPreferidas[0]
    ensures |c.recetasPreferidas| == 0 ==> r.receta == "Por definir"
    ensures r.tiempoCocinar == c.duracionPreparacion
  {
    var receta := if |c.recetasPreferidas| > 0 then c.recetasPreferidas[0] else "Por definir";
    Comida(c.tipo, c.horaAproximada, c.duracionPreparacion, receta, EsBatch(c, dia))
  }

  /** `_planificar_comidas_dia`: one meal per configuration, in order. */
  function ComidasDia(cs: seq<ComidaConfig>, dia: string): (r: seq<Comida>)
    ensures |r| == |cs|
    ensures forall i :: 0 <= i < |cs| ==> r[i] == ComidaDe(cs[i], dia)
  {
    seq(|cs|, i requires 0 <= i < |cs| => ComidaDe(cs[i], dia))
  }

  // ---------------------------------------------------------------------------
  // Budget
  // ---------------------------------------------------------------------------

  /** What is left in one category, never below zero: `max(0, asignado - gastado)`. */
  function Disponible(c: Categoria): (r: real)
    ensures r >= 0.0 && r >= c.asignadoMensual - c.gastadoMesActual
    ensures r == 0.0 || r == c.asignadoMensual - c.gastadoMesActual
  {
    if c.asignadoMensual - c.gastadoMesActual > 0.0 then c.asignadoMensual - c.gastadoMesActual else 0.0
  }

  /** `_calcular_presupuesto_disponible`. */
  function PresupuestoDisponible(cs: seq<Categoria>): (r: real)
    ensures r >= 0.0
  {
    if |cs| == 0 then 0.0 else Disponible(cs[0]) + PresupuestoDisponible(cs[1..])
  }

  /** What each category has left, negative when it is overspent. */
  function Netos(cs: seq<Categoria>): seq<real> {
    seq(|cs|, i requires 0 <= i < |cs| => cs[i].asignadoMensual - cs[i].gastadoMesActual)
  }

  /** The available budget is at least the net of every category, is at
      least what any single category has left, and is zero exactly when no
      category has anything left. */
  lemma {:induction false} PresupuestoSpec(cs: seq<Categoria>)
    ensures PresupuestoDisponible(cs) >= Seqs.SumReal(Netos(cs))
    ensures forall i :: 0 <= i < |cs| ==> PresupuestoDisponible(cs) >= Disponible(cs[i])
    ensures PresupuestoDisponible(cs) == 0.0 <==>
      (forall i :: 0 <= i < |cs| ==> cs[i].asignadoMensual <= cs[i].gastadoMesActual)
    decreases |cs|
  {
    if |cs| > 0 {
      PresupuestoSpec(cs[1..]);
      assert Netos(cs)[1..] == Netos(cs[1..]);
      assert forall i :: 1 <= i < |cs| ==> cs[i] == cs[1..][i - 1];
    }
  }

  /** The share of a category already spent is above 90%. */
  predicate SobreNoventa(c: Categoria)
    requires c.asignadoMensual != 0.0
  {
    c.gastadoMesActual / c.asignadoMensual * 100.0 > 90.0
  }

  /** `_detectar_alertas_financieras`: the names of the categories above 90%
      spent; a category with nothing allocated divides by zero. */
  function AlertasFinancieras(cs: seq<Categoria>): (r: Result<seq<string>, string>)
    ensures r.Err? <==> exists i :: 0 <= i < |cs| && cs[i].asignadoMensual == 0.0
    ensures r.Ok? ==> |r.value| <= |cs|
  {
    if |cs| == 0 then Ok([])
    else if cs[0].asignadoMensual == 0.0 then Err("ZeroDivisionError")
    else
      var resto := AlertasFinancieras(cs[1..]);
      assert forall i :: 1 <= i < |cs| ==> cs[i] == cs[1..][i - 1];
      if resto.Err? then resto
      else Ok((if SobreNoventa(cs[0]) then [cs[0].nombre] else []) + resto.value)
  }

  /** With every category funded, the alerts name exactly the categories
      above 90% spent. */
  lemma {:induction false} AlertasSpec(cs: seq<Categoria>)
    requires forall i :: 0 <= i < |cs| ==> cs[i].asignadoMensual != 0.0
    ensures AlertasFinancieras(cs).Ok?
    ensures forall i :: 0 <= i < |cs| && SobreNoventa(cs[i]) ==> cs[i].nombre in AlertasFinancieras(cs).value
    ensures forall n :: n in AlertasFinancieras(cs).value ==>
      exists i :: 0 <= i < |cs| && SobreNoventa(cs[i]) && cs[i].nombre == n
    decreases |cs|
  {
    if |cs| > 0 {
      AlertasSpec(cs[1..]);
      assert forall i :: 1 <= i < |cs| ==> cs[i] == cs[1..][i - 1];
    }
  }

  // ---------------------------------------------------------------------------
  // Learning topics
  // ---------------------------------------------------------------------------

  function PorPrioridadTema(): Tema -> real {
    (t: Tema) => t.prioridad as real
  }

  /** The topics ranked by priority, highest first and ties in profile order,
      cut to the first three. */
  function TemasPrioritarios(ts: seq<Tema>): (r: seq<Tema>)
    ensures |r| == if |ts| < 3 then |ts| else 3
  {
    Seqs.Take(Seqs.SortDesc(ts, PorPrioridadTema()), 3)
  }

  /** The selection is the top three: each chosen topic comes from the
      profile, they go by non-increasing priority, every topic of strictly
      higher priority than a chosen one is chosen too, and with at most
      three topics all of them are. */
  lemma TopTres(ts: seq<Tema>)
    ensures var r := TemasPrioritarios(ts);
      && (forall i :: 0 <= i < |r| ==> r[i] in ts)
      && (forall i, j :: 0 <= i < j < |r| ==> r[i].prioridad >= r[j].prioridad)
      && (forall j, i :: 0 <= j < |ts| && 0 <= i < |r| && ts[j].prioridad > r[i].prioridad ==> ts[j] in r)
      && (|ts| <= 3 ==> multiset(r) == multiset(ts))
  {
    Seqs.TopK(ts, PorPrioridadTema(), 3);
    TopTresOrdenados(ts);
    TopTresContenidos(ts);
    if |ts| <= 3 {
      TopTresCompletos(ts);
    }
  }

  lemma TopTresOrdenados(ts: seq<Tema>)
    ensures var r := TemasPrioritarios(ts);
      forall i, j :: 0 <= i < j < |r| ==> r[i].prioridad >= r[j].prioridad
  {
    var s := Seqs.SortDesc(ts, PorPrioridadTema());
    Seqs.SortDescSpec(ts, PorPrioridadTema());
    assert TemasPrioritarios(ts) == s[..|TemasPrioritarios(ts)|];
  }

  lemma TopTresContenidos(ts: seq<Tema>)
    ensures var r := TemasPrioritarios(ts);
      forall i :: 0 <= i < |r| ==> r[i] in ts
  {
    var s := Seqs.SortDesc(ts, PorPrioridadTema());
    Seqs.SortDescSameElements(ts, PorPrioridadTema());
    assert TemasPrioritarios(ts) == s[..|TemasPrioritarios(ts)|];
  }

  lemma TopTresCompletos(ts: seq<Tema>)
    requires |ts| <= 3
    ensures multiset(TemasPrioritarios(ts)) == multiset(ts)
  {
    Seqs.SortDescPermutes(ts, PorPrioridadTema());
    assert TemasPrioritarios(ts) == Seqs.SortDesc(ts, PorPrioridadTema());
  }

  /** One suggested topic: a seventh of the weekly minutes, rounded down,
      and at most the first two resources. */
  function SugerirTema(t: Tema): (r: TemaSugerido)
    ensures 7 * r.tiempoSugerido <= t.tiempoSemanalDeseado < 7 * r.tiempoSugerido + 7
    ensures r.recursos <= t.recursos && |r.recursos| == if |t.recursos| < 2 then |t.recursos| else 2
    ensures r.tema == t.nombre && r.prioridad == t.prioridad
  {
    TemaSugerido(t.nombre, t.dominio, t.tiempoSemanalDeseado / 7, t.prioridad, Seqs.Take(t.recursos, 2))
  }

  /** `_sugerir_temas_aprendizaje_dia`. */
  function TemasDia(ts: seq<Tema>): (r: seq<TemaSugerido>)
    ensures |r| == |TemasPrioritarios(ts)| <= 3
    ensures forall i :: 0 <= i < |r| ==> r[i] == SugerirTema(TemasPrioritarios(ts)[i])
  {
    var sel := TemasPrioritarios(ts);
    seq(|sel|, i requires 0 <= i < |sel| => SugerirTema(sel[i]))
  }

  // ---------------------------------------------------------------------------
  // Development projects
  // ---------------------------------------------------------------------------

  /** Ordinal of `date.max`, 9999-12-31. */
  const FechaMax: Dates.Day := 3652059

  predicate Activo(p: Proyecto) {
    p.estado == "activo"
  }

  function EsActivo(): Proyecto -> bool {
    p => Activo(p)
  }

  /** `p.deadline or date.max`. */
  function Limite(p: Proyecto): Dates.Day {
    if p.deadline.Some? then p.deadline.value else FechaMax
  }

  /** `a` sorts strictly before `b` under the key `(deadline or date.max,
      -prioridad)`. */
  predicate MasUrgente(a: Proyecto, b: Proyecto) {
    Limite(a) < Limite(b) || (Limite(a) == Limite(b) && a.prioridad > b.prioridad)
  }

  function PorPrioridad(): Proyecto -> real {
    (p: Proyecto) => p.prioridad as real
  }

  function PorLimite(): Proyecto -> real {
    p => -(Limite(p) as real)
  }

  /** The active projects in ascending `(deadline or date.max, -prioridad)`
      order. Python sorts by the pair in one stable pass; here two stable
      passes sort, the minor key first, and `OrdenUrgenciaSpec` with
      `OrdenUrgenciaEstable` shows the result is ordered by the pair with
      ties in profile order, as the single pass gives. */
  function OrdenUrgencia(ps: seq<Proyecto>): (r: seq<Proyecto>)
    ensures |r| == |Seqs.Filter(ps, EsActivo())|
  {
    Seqs.SortDesc(Seqs.SortDesc(Seqs.Filter(ps, EsActivo()), PorPrioridad()), PorLimite())
  }

  /** The urgency order holds exactly the active projects, rearranged, and
      never puts a project after a strictly more urgent one. */
  lemma OrdenUrgenciaSpec(ps: seq<Proyecto>)
    ensures var r := OrdenUrgencia(ps);
      && multiset(r) == multiset(Seqs.Filter(ps, EsActivo()))
      && (forall i :: 0 <= i < |r| ==> Activo(r[i]) && r[i] in ps)
      && (forall j :: 0 <= j < |ps| && Activo(ps[j]) ==> ps[j] in r)
      && (forall i, j :: 0 <= i < j < |r| ==> !MasUrgente(r[j], r[i]))
  {
    var a := Seqs.Filter(ps, EsActivo());
    var s1 := Seqs.SortDesc(a, PorPrioridad());
    var r := Seqs.SortDesc(s1, PorLimite());
    assert multiset(r) == multiset(a) by {
      Seqs.SortDescPermutes(a, PorPrioridad());
      Seqs.SortDescPermutes(s1, PorLimite());
    }
    assert forall i :: 0 <= i < |r| ==> r[i] in a by {
      Seqs.SortDescSameElements(a, PorPrioridad());
      Seqs.SortDescSameElements(s1, PorLimite());
    }
    assert forall j :: 0 <= j < |ps| && Activo(ps[j]) ==> ps[j] in r by {
      assert forall j :: 0 <= j < |ps| && Activo(ps[j]) ==> ps[j] in a;
      assert forall x :: x in a ==> x in multiset(r);
    }
    UrgenciaOrdenada(a);
  }

  lemma UrgenciaOrdenada(a: seq<Proyecto>)
    ensures var r := Seqs.SortDesc(Seqs.SortDesc(a, PorPrioridad()), PorLimite());
      forall i, j :: 0 <= i < j < |r| ==> !MasUrgente(r[j], r[i])
  {
    var s1 := Seqs.SortDesc(a, PorPrioridad());
    var r := Seqs.SortDesc(s1, PorLimite());
    Seqs.SortDescSpec(a, PorPrioridad());
    Seqs.SortDescSpec(s1, PorLimite());
    var p2 := Seqs.SortPerm(s1, PorLimite());
    forall i, j | 0 <= i < j < |r|
      ensures !MasUrgente(r[j], r[i])
    {
      assert PorLimite()(r[i]) >= PorLimite()(r[j]);
      if Limite(r[i]) == Limite(r[j]) {
        assert p2[i] < p2[j];
        assert r[i] == s1[p2[i]] && r[j] == s1[p2[j]];
        assert PorPrioridad()(s1[p2[i]]) >= PorPrioridad()(s1[p2[j]]);
      }
    }
  }

  /** Projects with the same deadline and priority keep their profile
      order, as Python's stable sort by the pair keeps them: the `i`-th
      project is the `q(i)`-th active one, where `q` composes the two
      passes' permutations, and `q` grows across ties. With
      `OrdenUrgenciaSpec` this is the whole of a stable sort by the pair. */
  lemma OrdenUrgenciaEstable(ps: seq<Proyecto>)
    ensures var a := Seqs.Filter(ps, EsActivo());
      var s1 := Seqs.SortDesc(a, PorPrioridad());
      var p1, p2 := Seqs.SortPerm(a, PorPrioridad()), Seqs.SortPerm(s1, PorLimite());
      var r := OrdenUrgencia(ps);
      && (forall i :: 0 <= i < |r| ==> p2[i] < |a| && p1[p2[i]] < |a| && r[i] == a[p1[p2[i]]])
      && (forall i, j :: 0 <= i < j < |r| && Limite(r[i]) == Limite(r[j]) && r[i].prioridad == r[j].prioridad ==>
            p1[p2[i]] < p1[p2[j]])
  {
    Seqs.SortDescTwice(Seqs.Filter(ps, EsActivo()), PorPrioridad(), PorLimite());
  }

  /** The (at most two) projects worked on today. */
  function ProyectosUrgentes(ps: seq<Proyecto>): (r: seq<Proyecto>)
    ensures |r| <= 2 && r <= OrdenUrgencia(ps)
    ensures |r| == 2 || r == OrdenUrgencia(ps)
  {
    Seqs.Take(OrdenUrgencia(ps), 2)
  }

  /** The chosen projects are active ones from the profile, and any active
      project more urgent than a chosen one is chosen too. */
  lemma DosMasUrgentes(ps: seq<Proyecto>)
    ensures var r := ProyectosUrgentes(ps);
      && (forall i :: 0 <= i < |r| ==> Activo(r[i]) && r[i] in ps)
      && (forall j, i :: 0 <= j < |ps| && 0 <= i < |r| && Activo(ps[j]) && MasUrgente(ps[j], r[i]) ==> ps[j] in r)
      && (|r| == 2 || forall j :: 0 <= j < |ps| && Activo(ps[j]) ==> ps[j] in r)
  {
    OrdenUrgenciaSpec(ps);
    PrefijoUrgente(ps, OrdenUrgencia(ps), ProyectosUrgentes(ps));
  }

  /** A prefix of an urgency order of the active projects keeps every
      project more urgent than one of its own, and is all of them unless it
      holds two. */
  lemma PrefijoUrgente(ps: seq<Proyecto>, s: seq<Proyecto>, r: seq<Proyecto>)
    requires forall i :: 0 <= i < |s| ==> Activo(s[i]) && s[i] in ps
    requires forall j :: 0 <= j < |ps| && Activo(ps[j]) ==> ps[j] in s
    requires forall i, j :: 0 <= i < j < |s| ==> !MasUrgente(s[j], s[i])
    requires r <= s && (|r| == 2 || r == s)
    ensures forall i :: 0 <= i < |r| ==> Activo(r[i]) && r[i] in ps
    ensures forall j, i :: 0 <= j < |ps| && 0 <= i < |r| && Activo(ps[j]) && MasUrgente(ps[j], r[i]) ==> ps[j] in r
    ensures |r| == 2 || forall j :: 0 <= j < |ps| && Activo(ps[j]) ==> ps[j] in r
  {
    forall i | 0 <= i < |r|
      ensures Activo(r[i]) && r[i] in ps
    {
      assert r[i] == s[i];
    }
    forall j, i | 0 <= j < |ps| && 0 <= i < |r| && Activo(ps[j]) && MasUrgente(ps[j], r[i])
      ensures ps[j] in r
    {
      var k :| 0 <= k < |s| && s[k] == ps[j];
      assert r[i] == s[i];
      if k >= |r| {
        assert false;
      }
      assert r[k] == ps[j];
    }
  }

  /** `int(horas / 7 * 60)`: a seventh of the weekly hours in minutes,
      truncated toward zero. */
  function MinutosDiarios(horas: int): (m: int)
    ensures horas >= 0 ==> m >= 0 && 7 * m <= 60 * horas < 7 * m + 7
    ensures horas < 0 ==> m <= 0 && 7 * m - 7 < 60 * horas <= 7 * m
  {
    if horas >= 0 then (60 * horas) / 7 else -((-60 * horas) / 7)
  }

  /** One suggested project: its first two milestones, or a default one. */
  function SugerirProyecto(p: Proyecto): (r: ProyectoSugerido)
    ensures 1 <= |r.hitosHoy| <= 2
    ensures |p.hitos| > 0 ==> r.hitosHoy <= p.hitos
    ensures |p.hitos| == 0 ==> r.hitosHoy == ["Avanzar en el proyecto"]
    ensures r.tiempoSugerido == MinutosDiarios(p.horasSemanalesDeseadas)
    ensures r.proyecto == p.nombre && r.deadline == p.deadline
  {
    var hitos := if |p.hitos| > 0 then Seqs.Take(p.hitos, 2) else ["Avanzar en el proyecto"];
    ProyectoSugerido(p.nombre, p.tipo, MinutosDiarios(p.horasSemanalesDeseadas), p.prioridad, hitos, p.deadline)
  }

  /** `_sugerir_proyectos_dia`. */
  function ProyectosDia(ps: seq<Proyecto>): (r: seq<ProyectoSugerido>)
    ensures |r| == |ProyectosUrgentes(ps)| <= 2
    ensures forall i :: 0 <= i < |r| ==> r[i] == SugerirProyecto(ProyectosUrgentes(ps)[i])
  {
    var sel := ProyectosUrgentes(ps);
    seq(|sel|, i requires 0 <= i < |sel| => SugerirProyecto(sel[i]))
  }

  // ---------------------------------------------------------------------------
  // Investment matters
  // ---------------------------------------------------------------------------

  /** The decision date falls between today and a week ahead, both included. */
  predicate EnVentana(a: Asunto, dia: Dates.Day) {
    a.fechaDecision.Some? && 0 <= a.fechaDecision.value - dia <= 7
  }

  function EnVentanaDe(dia: Dates.Day): Asunto -> bool {
    a => EnVentana(a, dia)
  }

  /** One listed matter. */
  function FichaAsunto(a: Asunto, dia: Dates.Day): (r: AsuntoDia)
    requires EnVentana(a, dia)
    ensures r.accion == DecidirHoy <==> a.fechaDecision.value == dia
    ensures r.accion.DecidirEn? ==> r.accion.dias == a.fechaDecision.value - dia
    ensures r.urgencia == Alta <==> a.fechaDecision.value - dia <= 2
    ensures r.asunto == a.nombre && r.prioridad == a.prioridad
  {
    var dias := a.fechaDecision.value - dia;
    AsuntoDia(
      a.nombre, a.tipo,
      if dias == 0 then DecidirHoy else DecidirEn(dias),
      a.montoInvolucrado, a.prioridad,
      if dias <= 2 then Alta else Media)
  }

  /** `_obtener_asuntos_dia`: the matters due within the coming week, in
      profile order. */
  function AsuntosDia(asuntos: seq<Asunto>, dia: Dates.Day): (r: seq<AsuntoDia>)
    ensures |r| <= |asuntos|
    ensures forall i :: 0 <= i < |r| ==>
      exists j :: 0 <= j < |asuntos| && EnVentana(asuntos[j], dia) && r[i] == FichaAsunto(asuntos[j], dia)
    ensures forall j :: 0 <= j < |asuntos| && EnVentana(asuntos[j], dia) ==> FichaAsunto(asuntos[j], dia) in r
  {
    var f := Seqs.Filter(asuntos, EnVentanaDe(dia));
    var r := seq(|f|, i requires 0 <= i < |f| => FichaAsunto(f[i], dia));
    assert forall i :: 0 <= i < |f| ==> r[i] == FichaAsunto(f[i], dia);
    r
  }

  /** A matter added at the end of the profile is listed last when it is
      due within the week, so the matters keep the profile order. */
  lemma AsuntosDiaAlFinal(asuntos: seq<Asunto>, a: Asunto, dia: Dates.Day)
    ensures AsuntosDia(asuntos + [a], dia) ==
      AsuntosDia(asuntos, dia) + (if EnVentana(a, dia) then [FichaAsunto(a, dia)] else [])
  {
    Seqs.FilterSnoc(asuntos, a, EnVentanaDe(dia));
  }

  /** A matter decided today is listed as "DECIDIR HOY" and is urgent;
      one past or more than a week away is not listed. */
  lemma AsuntoHoy(a: Asunto, dia: Dates.Day)
    ensures a.fechaDecision == Some(dia) ==> AsuntosDia([a], dia) == [AsuntoDia(a.nombre, a.tipo, DecidirHoy, a.montoInvolucrado, a.prioridad, Alta)]
    ensures a.fechaDecision.Some? && (a.fechaDecision.value < dia || a.fechaDecision.value > dia + 7) ==> AsuntosDia([a], dia) == []
  {
    assert [a][1..] == [];
  }

  // ---------------------------------------------------------------------------
  // Conflicts, synergies and energy
  // ---------------------------------------------------------------------------

  function Duraciones(ds: seq<Deporte>): seq<int> {
    seq(|ds|, i requires 0 <= i < |ds| => ds[i].duracion)
  }

  function TiemposCocina(cs: seq<Comida>): seq<int> {
    seq(|cs|, i requires 0 <= i < |cs| => cs[i].tiempoCocinar)
  }

  function TiemposTemas(ts: seq<TemaSugerido>): seq<int> {
    seq(|ts|, i requires 0 <= i < |ts| => ts[i].tiempoSugerido)
  }

  function TiemposProyectos(ps: seq<ProyectoSugerido>): seq<int> {
    seq(|ps|, i requires 0 <= i < |ps| => ps[i].tiempoSugerido)
  }

  /** Minutes the day's activities add up to. */
  function TiempoTotal(ds: seq<Deporte>, cs: seq<Comida>, ts: seq<TemaSugerido>, ps: seq<ProyectoSugerido>): int {
    Seqs.SumInt(Duraciones(ds)) + Seqs.SumInt(TiemposCocina(cs))
      + Seqs.SumInt(TiemposTemas(ts)) + Seqs.SumInt(TiemposProyectos(ps))
  }

  function AltaIntensidad(): Deporte -> bool {
    (d: Deporte) => d.intensidad >= 4
  }

  predicate HayProyectoDemandante(ps: seq<ProyectoSugerido>) {
    exists i :: 0 <= i < |ps| && ps[i].tiempoSugerido > 120
  }

  predicate HayBatch(cs: seq<Comida>) {
    exists i :: 0 <= i < |cs| && cs[i].esBatchCooking
  }

  /** `_detectar_conflictos_dia`. */
  function ConflictosDia(ds: seq<Deporte>, cs: seq<Comida>, ts: seq<TemaSugerido>, ps: seq<ProyectoSugerido>): (r: seq<Conflicto>)
    ensures DemasiadaEnergia in r <==> Seqs.CountIf(ds, AltaIntensidad()) >= 2 && HayProyectoDemandante(ps)
    ensures BatchYProyecto in r <==> HayBatch(cs) && HayProyectoDemandante(ps)
    ensures (|r| > 0 && r[|r| - 1].TiempoExcesivo?) <==> TiempoTotal(ds, cs, ts, ps) > 480
    ensures forall i :: 0 <= i < |r| && r[i].TiempoExcesivo? ==>
      i == |r| - 1 && 0 <= r[i].minutos < 60 && r[i].horas * 60 + r[i].minutos == TiempoTotal(ds, cs, ts, ps)
  {
    var demandantes := HayProyectoDemandante(ps);
    var total := TiempoTotal(ds, cs, ts, ps);
    (if Seqs.CountIf(ds, AltaIntensidad()) >= 2 && demandantes then [DemasiadaEnergia] else [])
      + (if HayBatch(cs) && demandantes then [BatchYProyecto] else [])
      + (if total > 480 then [TiempoExcesivo(total / 60, total % 60)] else [])
  }

  /** The hour string starts with "06", "07" or "08". */
  predicate Matutina(hora: string) {
    |hora| >= 2 && hora[..2] in ["06", "07", "08"]
  }

  /** `_detectar_sinergias_dia`. */
  function SinergiasDia(ds: seq<Deporte>, cs: seq<Comida>, ts: seq<TemaSugerido>, ps: seq<ProyectoSugerido>): (r: seq<Sinergia>)
    ensures EjercicioCreatividad in r <==>
      (exists i :: 0 <= i < |ds| && Matutina(ds[i].horaSugerida))
      && (exists i :: 0 <= i < |ps| && ps[i].tipo in ["diseño", "escritura"])
    ensures BatchLiberaEstudio in r <==> HayBatch(cs) && |ts| > 0
    ensures DiaBalanceado in r <==> |ds| > 0 && |ts| > 0 && |ps| > 0
    ensures |r| <= 3
  {
    var manana := exists i :: 0 <= i < |ds| && Matutina(ds[i].horaSugerida);
    var creativos := exists i :: 0 <= i < |ps| && ps[i].tipo in ["diseño", "escritura"];
    (if manana && creativos then [EjercicioCreatividad] else [])
      + (if HayBatch(cs) && |ts| > 0 then [BatchLiberaEstudio] else [])
      + (if |ds| > 0 && |ts| > 0 && |ps| > 0 then [DiaBalanceado] else [])
  }

  /** Energy points of a project by its minutes: 4 above three hours, 3
      above ninety minutes, 2 otherwise. */
  function PuntosProyecto(minutos: int): (e: int)
    ensures 2 <= e <= 4
    ensures e == 4 <==> minutos > 180
    ensures e == 2 <==> minutos <= 90
  {
    if minutos > 180 then 4 else if minutos > 90 then 3 else 2
  }

  /** Energy points of a topic: 2 above an hour, 1 otherwise. */
  function PuntosTema(minutos: int): (e: int)
    ensures 1 <= e <= 2
    ensures e == 2 <==> minutos > 60
  {
    if minutos > 60 then 2 else 1
  }

  function Intensidades(ds: seq<Deporte>): seq<int> {
    seq(|ds|, i requires 0 <= i < |ds| => ds[i].intensidad)
  }

  function PuntosProyectos(ps: seq<ProyectoSugerido>): seq<int> {
    seq(|ps|, i requires 0 <= i < |ps| => PuntosProyecto(ps[i].tiempoSugerido))
  }

  function PuntosTemas(ts: seq<TemaSugerido>): seq<int> {
    seq(|ts|, i requires 0 <= i < |ts| => PuntosTema(ts[i].tiempoSugerido))
  }

  /** The energy before the cap. */
  function EnergiaBruta(ds: seq<Deporte>, ps: seq<ProyectoSugerido>, ts: seq<TemaSugerido>): int {
    Seqs.SumInt(Intensidades(ds)) + Seqs.SumInt(PuntosProyectos(ps)) + Seqs.SumInt(PuntosTemas(ts))
  }

  /** `_calcular_energia_requerida`: capped at 10. */
  function EnergiaRequerida(ds: seq<Deporte>, ps: seq<ProyectoSugerido>, ts: seq<TemaSugerido>): (r: int)
    ensures r <= 10
    ensures r <= EnergiaBruta(ds, ps, ts)
    ensures r == 10 || r == EnergiaBruta(ds, ps, ts)
  {
    var e := EnergiaBruta(ds, ps, ts);
    if e < 10 then e else 10
  }

  /** With sport intensities of at least 1, every activity costs at least
      one point: the energy is at least the number of activities (up to
      the cap) and at least twice the number of projects. */
  lemma EnergiaAlMenos(ds: seq<Deporte>, ps: seq<ProyectoSugerido>, ts: seq<TemaSugerido>)
    requires forall i :: 0 <= i < |ds| ==> ds[i].intensidad >= 1
    ensures EnergiaRequerida(ds, ps, ts) >= if |ds| + |ps| + |ts| < 10 then |ds| + |ps| + |ts| else 10
    ensures EnergiaRequerida(ds, ps, ts) >= if 2 * |ps| < 10 then 2 * |ps| else 10
  {
    Seqs.SumIntAtLeast(Intensidades(ds), 1);
    Seqs.SumIntAtLeast(PuntosProyectos(ps), 2);
    Seqs.SumIntAtLeast(PuntosTemas(ts), 1);
  }

  // ---------------------------------------------------------------------------
  // The day and the week
  // ---------------------------------------------------------------------------

  datatype DiaEntrelazado = DiaEntrelazado(
    fecha: Dates.Day,
    deportes: seq<Deporte>,
    comidas: seq<Comida>,
    necesitaCompra: bool,
    presupuestoDisponible: real,
    categoriasAlerta: seq<string>,
    temas: seq<TemaSugerido>,
    proyectos: seq<ProyectoSugerido>,
    asuntos: seq<AsuntoDia>,
    conflictos: seq<Conflicto>,
    sinergias: seq<Sinergia>,
    energiaRequerida: int)

  /** `_generar_entrelazamiento_dia`; the financial alerts raise when a
      category has nothing allocated. */
  function EntrelazarDia(p: Perfil, fecha: Dates.Day): (r: Result<DiaEntrelazado, string>)
    ensures r.Err? <==> AlertasFinancieras(p.presupuesto).Err?
    ensures r.Ok? ==> var d := r.value;
      && d.fecha == fecha
      && (d.necesitaCompra <==> NombreDia(fecha) == p.diaCompraSemanal)
      && d.presupuestoDisponible >= 0.0
      && |d.temas| <= 3 && |d.proyectos| <= 2
      && d.energiaRequerida <= 10
      && d.energiaRequerida == EnergiaRequerida(d.deportes, d.proyectos, d.temas)
      && d.conflictos == ConflictosDia(d.deportes, d.comidas, d.temas, d.proyectos)
  {
    var dia := NombreDia(fecha);
    var alertas := AlertasFinancieras(p.presupuesto);
    if alertas.Err? then Err(alertas.error)
    else
      var ds := DeportesDia(p.rutinas, dia);
      var cs := ComidasDia(p.comidas, dia);
      var ts := TemasDia(p.temas);
      var ps := ProyectosDia(p.proyectos);
      Ok(DiaEntrelazado(
        fecha, ds, cs, dia == p.diaCompraSemanal, PresupuestoDisponible(p.presupuesto), alertas.value,
        ts, ps, AsuntosDia(p.asuntos, fecha),
        ConflictosDia(ds, cs, ts, ps), SinergiasDia(ds, cs, ts, ps),
        EnergiaRequerida(ds, ps, ts)))
  }

  datatype Espacio = Espacio(dia: string, fecha: Dates.Day, energiaDisponible: int)

  predicate BajaDemanda(d: DiaEntrelazado) {
    d.energiaRequerida < 5
  }

  function EsBajaDemanda(): DiaEntrelazado -> bool {
    d => BajaDemanda(d)
  }

  function EspacioDe(d: DiaEntrelazado): Espacio {
    Espacio(NombreDia(d.fecha), d.fecha, 10 - d.energiaRequerida)
  }

  /** `_identificar_espacios_emergencia`: the days needing less than 5
      energy, each with what is left of 10. */
  function EspaciosEmergencia(dias: seq<DiaEntrelazado>): (r: seq<Espacio>)
    ensures |r| <= |dias|
    ensures forall i :: 0 <= i < |r| ==> r[i].energiaDisponible > 5
    ensures forall i :: 0 <= i < |r| ==>
      exists j :: 0 <= j < |dias| && BajaDemanda(dias[j]) && r[i] == EspacioDe(dias[j])
    ensures forall j :: 0 <= j < |dias| && BajaDemanda(dias[j]) ==> EspacioDe(dias[j]) in r
  {
    var f := Seqs.Filter(dias, EsBajaDemanda());
    var r := seq(|f|, i requires 0 <= i < |f| => EspacioDe(f[i]));
    assert forall i :: 0 <= i < |f| ==> r[i] == EspacioDe(f[i]);
    r
  }

  /** A day added at the end of the plan is the last slot when it is a
      low-demand day, so the slots keep the day order. */
  lemma EspaciosEmergenciaAlFinal(dias: seq<DiaEntrelazado>, d: DiaEntrelazado)
    ensures EspaciosEmergencia(dias + [d]) ==
      EspaciosEmergencia(dias) + (if BajaDemanda(d) then [EspacioDe(d)] else [])
  {
    Seqs.FilterSnoc(dias, d, EsBajaDemanda());
  }

  /** A planned day whose energy is not negative leaves at most 10 for an
      emergency slot, and one with no sport, project or topic is always a
      slot with the full 10. */
  lemma EspacioDeDiaVacio(d: DiaEntrelazado)
    requires d.energiaRequerida == EnergiaRequerida(d.deportes, d.proyectos, d.temas)
    requires d.deportes == [] && d.proyectos == [] && d.temas == []
    ensures EspaciosEmergencia([d]) == [Espacio(NombreDia(d.fecha), d.fecha, 10)]
  {
    assert EnergiaBruta([], [], []) == 0;
    assert Seqs.Filter([d], EsBajaDemanda()) == [d];
  }
}

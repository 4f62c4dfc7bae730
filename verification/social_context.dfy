/** The social layer (`ContextoSocial`, layer 2): today's non-negotiables,
    the active projects, social tensions and external commitments, with the
    activity flag, the one-line synthesis and the priority ranking of
    projects.
 */
module SocialContext {

  import opened Wrappers
  import Text
  import Seqs

  /** Priorities and intensities are validated to 1..5. */
  type Escala = i: int | 1 <= i <= 5 witness 1

  datatype TipoNoNegociable = Biologico | Espiritual | Financiero | Social | Creativo | Aprendizaje

  datatype EstadoProyecto = Activo | Pausado | Completado | Archivado

  datatype NoNegociable = NoNegociable(
    nombre: string,
    tipo: TipoNoNegociable,
    diasSemana: seq<string>,
    duracionMinutos: int,
    prioridad: Escala)

  datatype Proyecto = Proyecto(nombre: string, tipo: string, estado: EstadoProyecto, prioridad: Escala)

  datatype TensionSocial = TensionSocial(
    descripcion: string,
    ambito: string,
    intensidad: Escala,
    requiereAtencionHoy: bool)

  datatype ContextoSocial = ContextoSocial(
    noNegociablesHoy: seq<NoNegociable>,
    proyectosActivos: seq<Proyecto>,
    tensionesActuales: seq<TensionSocial>,
    compromisosExternos: seq<string>)

  /** Building a project through the validating model: a priority outside
      1..5 is rejected, the default is 3 and the default state active. */
  function CrearProyecto(nombre: string, tipo: string, prioridad: Option<int>): (r: Result<Proyecto, string>)
    ensures r.Ok? <==> (prioridad.None? || 1 <= prioridad.value <= 5)
    ensures r.Ok? ==> r.value.prioridad == prioridad.GetOr(3) && r.value.estado == Activo
  {
    var p := prioridad.GetOr(3);
    if 1 <= p <= 5 then Ok(Proyecto(nombre, tipo, Activo, p)) else Err("prioridad fuera de rango")
  }

  /** Building a tension: the intensity is required and must lie in 1..5. */
  function CrearTension(descripcion: string, ambito: string, intensidad: int): (r: Result<TensionSocial, string>)
    ensures r.Ok? <==> 1 <= intensidad <= 5
    ensures r.Ok? ==> r.value.intensidad == intensidad && !r.value.requiereAtencionHoy
  {
    if 1 <= intensidad <= 5 then Ok(TensionSocial(descripcion, ambito, intensidad, false))
    else Err("intensidad fuera de rango")
  }

  predicate Intensa(t: TensionSocial) {
    t.intensidad >= 4
  }

  function EsIntensa(): TensionSocial -> bool {
    (t: TensionSocial) => Intensa(t)
  }

  /** `esta_activa`. */
  predicate EstaActiva(c: ContextoSocial) {
    |c.noNegociablesHoy| > 0 || |c.proyectosActivos| > 0
    || (exists i :: 0 <= i < |c.tensionesActuales| && Intensa(c.tensionesActuales[i]))
  }

  // ---------------------------------------------------------------------------
  // Synthesis
  // ---------------------------------------------------------------------------

  const SinCompromisos := "Sin compromisos sociales significativos"

  function NombresNN(xs: seq<NoNegociable>): (r: seq<string>)
    ensures |r| == |xs|
  {
    if |xs| == 0 then [] else [xs[0].nombre] + NombresNN(xs[1..])
  }

  function NombresProy(xs: seq<Proyecto>): (r: seq<string>)
    ensures |r| == |xs|
  {
    if |xs| == 0 then [] else [xs[0].nombre] + NombresProy(xs[1..])
  }

  /** The pieces of the synthesis, in order; each is present only when its
      list (for tensions: of intense ones) is non-empty. */
  function Partes(c: ContextoSocial): seq<string> {
    var intensas := Seqs.Filter(c.tensionesActuales, EsIntensa());
    (if |c.noNegociablesHoy| > 0
     then ["no-negociables: " + Text.Join(", ", NombresNN(Seqs.Take(c.noNegociablesHoy, 2)))] else [])
    + (if |c.proyectosActivos| > 0
       then ["proyectos: " + Text.Join(", ", NombresProy(Seqs.Take(c.proyectosActivos, 2)))] else [])
    + (if |intensas| > 0 then [Text.IntToString(|intensas|) + " tensiones intensas"] else [])
    + (if |c.compromisosExternos| > 0
       then [Text.IntToString(|c.compromisosExternos|) + " compromisos externos"] else [])
  }

  /** No piece starts with the fallback's first letter. */
  lemma PartesInitials(c: ContextoSocial)
    ensures forall i :: 0 <= i < |Partes(c)| ==> |Partes(c)[i]| > 0 && Partes(c)[i][0] != 'S'
  {
    var intensas := Seqs.Filter(c.tensionesActuales, EsIntensa());
    var a := if |c.noNegociablesHoy| > 0
      then ["no-negociables: " + Text.Join(", ", NombresNN(Seqs.Take(c.noNegociablesHoy, 2)))] else [];
    var b := if |c.proyectosActivos| > 0
      then ["proyectos: " + Text.Join(", ", NombresProy(Seqs.Take(c.proyectosActivos, 2)))] else [];
    var t := if |intensas| > 0 then [Text.IntToString(|intensas|) + " tensiones intensas"] else [];
    var k := if |c.compromisosExternos| > 0
      then [Text.IntToString(|c.compromisosExternos|) + " compromisos externos"] else [];
    assert Partes(c) == a + b + t + k;
    if |t| > 0 {
      assert Text.IntToString(|intensas|)[0] != '-';
    }
    if |k| > 0 {
      assert Text.IntToString(|c.compromisosExternos|)[0] != '-';
      assert Text.IsDigit(Text.IntToString(|c.compromisosExternos|)[0]);
    }
  }

  /** `generar_sintesis`: the pieces joined with ", ", or the fallback text
      when there are none. */
  function GenerarSintesis(c: ContextoSocial): (r: string)
    ensures r == SinCompromisos <==> |Partes(c)| == 0
  {
    var partes := Partes(c);
    if |partes| > 0 then
      PartesInitials(c);
      Text.JoinFirst(", ", partes);
      assert Text.Join(", ", partes)[0] == partes[0][0];
      Text.Join(", ", partes)
    else SinCompromisos
  }

  /** An active context never falls back to the fixed text; a context with
      only external commitments is not active but still has a synthesis. */
  lemma ActiveHasSynthesis(c: ContextoSocial)
    ensures EstaActiva(c) ==> GenerarSintesis(c) != SinCompromisos
    ensures |c.noNegociablesHoy| == 0 && |c.proyectosActivos| == 0 && |c.tensionesActuales| == 0
            && |c.compromisosExternos| > 0
            ==> !EstaActiva(c) && GenerarSintesis(c) != SinCompromisos
  {
    var intensas := Seqs.Filter(c.tensionesActuales, EsIntensa());
    if exists i :: 0 <= i < |c.tensionesActuales| && Intensa(c.tensionesActuales[i]) {
      var i :| 0 <= i < |c.tensionesActuales| && Intensa(c.tensionesActuales[i]);
      assert c.tensionesActuales[i] in intensas;
    }
  }

  // ---------------------------------------------------------------------------
  // Priorities
  // ---------------------------------------------------------------------------

  function PrioridadDe(): Proyecto -> real {
    (p: Proyecto) => p.prioridad as real
  }

  /** `obtener_proyectos_prioritarios`: the projects by priority, highest
      first (ties in their original order), cut with Python's `[:top_n]`. */
  function ProyectosPrioritarios(c: ContextoSocial, topN: int): (r: seq<Proyecto>)
    ensures topN >= 0 ==> |r| == if topN <= |c.proyectosActivos| then topN else |c.proyectosActivos|
    ensures |r| <= |c.proyectosActivos|
  {
    Seqs.Take(Seqs.SortDesc(c.proyectosActivos, PrioridadDe()), topN)
  }

  /** The result is a selection of the projects in non-increasing priority,
      and no project left out has a higher priority than one kept. */
  lemma PrioritariosSpec(c: ContextoSocial, topN: int)
    ensures var r := ProyectosPrioritarios(c, topN);
      (forall i :: 0 <= i < |r| ==> r[i] in c.proyectosActivos)
      && (forall i, j :: 0 <= i < j < |r| ==> r[i].prioridad >= r[j].prioridad)
  {
    var s := Seqs.SortDesc(c.proyectosActivos, PrioridadDe());
    Seqs.SortDescSpec(c.proyectosActivos, PrioridadDe());
    Seqs.SortDescSameElements(c.proyectosActivos, PrioridadDe());
    var r := ProyectosPrioritarios(c, topN);
    assert r <= s;
    forall i, j | 0 <= i < j < |r|
      ensures r[i].prioridad >= r[j].prioridad
    {
      assert r[i] == s[i] && r[j] == s[j];
      assert PrioridadDe()(s[i]) >= PrioridadDe()(s[j]);
    }
    forall i | 0 <= i < |r|
      ensures r[i] in c.proyectosActivos
    {
      assert r[i] == s[i];
    }
  }

  /** Every project that is kept ranks at least as high as every project in
      the sorted tail that was cut off. */
  lemma PrioritariosKeepTop(c: ContextoSocial, topN: nat)
    requires topN <= |c.proyectosActivos|
    ensures var s := Seqs.SortDesc(c.proyectosActivos, PrioridadDe());
      ProyectosPrioritarios(c, topN) == s[..topN]
      && forall i, j :: 0 <= i < topN <= j < |s| ==> s[i].prioridad >= s[j].prioridad
  {
    var s := Seqs.SortDesc(c.proyectosActivos, PrioridadDe());
    Seqs.SortDescSpec(c.proyectosActivos, PrioridadDe());
    forall i, j | 0 <= i < topN <= j < |s|
      ensures s[i].prioridad >= s[j].prioridad
    {
      assert PrioridadDe()(s[i]) >= PrioridadDe()(s[j]);
    }
  }
}

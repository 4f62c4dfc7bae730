/** The rules the action documenter (`DocumentadorMejorado`) applies to an
    action: its priority from urgency and impact, the ranking of a list of
    actions, its due date, frequency, optimal moment, prerequisites and
    steps.

    Urgency and impact are fractions in [0, 1] held as reals; priority 1 is
    the highest. Today's date is a parameter.
 */
module ActionDocumenter {

  import Seqs
  import Dates

  /** The part of `AccionDocumentada` the rules read and write. */
  datatype Accion = Accion(nombre: string, tipo: string, prioridad: int, urgencia: real, impacto: real, dominios: seq<string>)

  // ---------------------------------------------------------------------------
  // Priority
  // ---------------------------------------------------------------------------

  /** `_calcular_prioridad`: the mean of urgency and impact, cut at 0.8, 0.6,
      0.4 and 0.2 into the priorities 1 to 5. */
  function CalcularPrioridad(urgencia: real, impacto: real): (p: int)
    ensures 1 <= p <= 5
    ensures p == 1 <==> (urgencia + impacto) / 2.0 >= 0.8
    ensures p == 5 <==> (urgencia + impacto) / 2.0 < 0.2
  {
    var score := (urgencia + impacto) / 2.0;
    if score >= 0.8 then 1
    else if score >= 0.6 then 2
    else if score >= 0.4 then 3
    else if score >= 0.2 then 4
    else 5
  }

  /** The priority bands as a reference: priority `p` covers the scores in
      `[1 - 0.2 p, 1.2 - 0.2 p)`, open above for 1 and below for 5. */
  predicate EnBanda(score: real, p: int) {
    && (p > 1 ==> score < 1.2 - 0.2 * p as real)
    && (p < 5 ==> score >= 1.0 - 0.2 * p as real)
  }

  /** Every score gets the priority of the band it falls in, and no other. */
  lemma PrioridadSpec(urgencia: real, impacto: real, p: int)
    requires 1 <= p <= 5
    ensures CalcularPrioridad(urgencia, impacto) == p <==> EnBanda((urgencia + impacto) / 2.0, p)
  {
  }

  /** More urgency or more impact never lowers the priority (never raises
      its number). */
  lemma PrioridadMonotona(u1: real, i1: real, u2: real, i2: real)
    requires u1 <= u2 && i1 <= i2
    ensures CalcularPrioridad(u2, i2) <= CalcularPrioridad(u1, i1)
  {
  }

  // ---------------------------------------------------------------------------
  // Ranking
  // ---------------------------------------------------------------------------

  /** `calcular_score`: 0.4 urgency + 0.4 impact + 0.2 of the inverted
      priority. */
  function Score(a: Accion): real {
    a.urgencia * 0.4 + a.impacto * 0.4 + (6 - a.prioridad) as real / 5.0 * 0.2
  }

  function ScoreClave(): Accion -> real {
    (a: Accion) => Score(a)
  }

  /** `min(i, 5)` with ranks counted from 1. */
  function PrioridadDeRango(i: nat): (p: int)
    ensures 1 <= p <= 5
  {
    if i + 1 < 5 then i + 1 else 5
  }

  /** `_priorizar_acciones`: the actions sorted by score, highest first,
      ties in their original order, then renumbered by rank with every rank
      past the fifth getting priority 5. */
  function PriorizarAcciones(acciones: seq<Accion>): (r: seq<Accion>)
    ensures |r| == |acciones|
    ensures forall i :: 0 <= i < |r| ==> r[i].prioridad == PrioridadDeRango(i)
  {
    var s := Seqs.SortDesc(acciones, ScoreClave());
    seq(|s|, i requires 0 <= i < |s| => s[i].(prioridad := PrioridadDeRango(i)))
  }

  /** Ranking only reorders the actions and rewrites their priorities: the
      ranked list is a permutation of the input, by non-increasing score
      before renumbering, and each entry is an input action with only its
      priority replaced. */
  lemma PriorizarSpec(acciones: seq<Accion>)
    ensures var s := Seqs.SortDesc(acciones, ScoreClave());
      var r := PriorizarAcciones(acciones);
      && multiset(s) == multiset(acciones)
      && (forall i, j :: 0 <= i < j < |s| ==> Score(s[i]) >= Score(s[j]))
      && (forall i :: 0 <= i < |r| ==> r[i] == s[i].(prioridad := PrioridadDeRango(i)))
  {
    Seqs.SortDescSpec(acciones, ScoreClave());
    Seqs.SortDescPermutes(acciones, ScoreClave());
  }

  /** Actions with equal scores keep their input order, as Python's stable
      `sorted` keeps them: the `i`-th ranked action is the `p[i]`-th input
      action with its priority rewritten. */
  lemma PriorizarEstable(acciones: seq<Accion>)
    ensures var r, p := PriorizarAcciones(acciones), Seqs.SortPerm(acciones, ScoreClave());
      && |p| == |r| == |acciones|
      && (forall i :: 0 <= i < |r| ==> p[i] < |acciones| && r[i] == acciones[p[i]].(prioridad := PrioridadDeRango(i)))
      && (forall i, j :: 0 <= i < j < |r| && Score(acciones[p[i]]) == Score(acciones[p[j]]) ==> p[i] < p[j])
  {
    Seqs.SortDescSpec(acciones, ScoreClave());
  }

  /** The first four ranks get distinct priorities 1 to 4, and only the
      fifth rank onwards shares priority 5. */
  lemma PrioridadesDistintas(acciones: seq<Accion>, i: nat, j: nat)
    requires i < j < |acciones|
    ensures var r := PriorizarAcciones(acciones);
      r[i].prioridad == r[j].prioridad <==> i >= 4
  {
  }

  // ---------------------------------------------------------------------------
  // Scheduling
  // ---------------------------------------------------------------------------

  /** `_calcular_fecha_vencimiento`: 1, 3, 7 or 14 days from today as the
      urgency falls below 0.8, 0.6 and 0.4. */
  function FechaVencimiento(hoy: Dates.Day, urgencia: real): (d: Dates.Day)
    ensures hoy + 1 <= d <= hoy + 14
    ensures urgencia >= 0.8 <==> d == hoy + 1
    ensures urgencia < 0.4 <==> d == hoy + 14
  {
    if urgencia >= 0.8 then hoy + 1
    else if urgencia >= 0.6 then hoy + 3
    else if urgencia >= 0.4 then hoy + 7
    else hoy + 14
  }

  /** A more urgent action is never due later. */
  lemma VencimientoMonotono(hoy: Dates.Day, u1: real, u2: real)
    requires u1 <= u2
    ensures FechaVencimiento(hoy, u2) <= FechaVencimiento(hoy, u1)
  {
  }

  /** `_determinar_frecuencia`: routines are daily, experiments weekly, any
      other type happens once. */
  function Frecuencia(tipo: string): (f: string)
    ensures f in ["única", "diaria", "semanal"]
    ensures f == "diaria" <==> tipo == "rutina"
    ensures f == "semanal" <==> tipo == "experimento"
  {
    if tipo == "inmediata" then "única"
    else if tipo == "planificada" then "única"
    else if tipo == "rutina" then "diaria"
    else if tipo == "experimento" then "semanal"
    else "única"
  }

  /** The moment each domain's actions are best done in. */
  function MomentoDeDominio(dominio: string): (m: string) {
    if dominio == "biologico" then "fajr"
    else if dominio == "espiritual" then "isha"
    else if dominio == "financiero" then "dhuhr"
    else if dominio == "conocimiento" then "asr"
    else "fajr"
  }

  /** `_determinar_momento_optimo_dominios`: the first domain decides; with
      no domain, or an unknown first one, fajr. */
  function MomentoOptimo(dominios: seq<string>): (m: string)
    ensures m in ["fajr", "isha", "dhuhr", "asr"]
    ensures |dominios| == 0 ==> m == "fajr"
    ensures |dominios| > 0 ==> m == MomentoDeDominio(dominios[0])
  {
    if |dominios| > 0 then MomentoDeDominio(dominios[0]) else "fajr"
  }

  /** Only the first domain matters: domains listed after it never change
      the moment. */
  lemma MomentoSoloPrimero(d: string, resto1: seq<string>, resto2: seq<string>)
    ensures MomentoOptimo([d] + resto1) == MomentoOptimo([d] + resto2)
  {
  }

  /** Each known domain has its own moment, so the moment tells the first
      domain apart among the four. */
  lemma MomentoDeDominioInyectivo(a: string, b: string)
    requires a in ["biologico", "espiritual", "financiero", "conocimiento"]
    requires b in ["biologico", "espiritual", "financiero", "conocimiento"]
    requires MomentoDeDominio(a) == MomentoDeDominio(b)
    ensures a == b
  {
  }

  // ---------------------------------------------------------------------------
  // Plan of an action
  // ---------------------------------------------------------------------------

  /** `_generar_prerequisitos`: a completed Estado Cero, plus one
      prerequisite for immediate, planned and experimental actions. */
  function Prerequisitos(tipo: string): (r: seq<string>)
    ensures |r| >= 1 && r[0] == "Estado Cero completado"
    ensures |r| == 2 <==> tipo in ["inmediata", "planificada", "experimento"]
    ensures |r| <= 2
  {
    var base := ["Estado Cero completado"];
    if tipo == "inmediata" then base + ["Tiempo disponible inmediato"]
    else if tipo == "planificada" then base + ["Planificación previa"]
    else if tipo == "experimento" then base + ["Mentalidad experimental"]
    else base
  }

  /** `_generar_secuencia_pasos`: prepare, carry out the description,
      observe, document. */
  function SecuenciaPasos(descripcion: string): (r: seq<string>)
    ensures |r| == 4
    ensures r[1] == "Ejecutar: " + descripcion
  {
    ["Preparar entorno y recursos", "Ejecutar: " + descripcion, "Observar resultados", "Documentar en próximo Estado Cero"]
  }

  /** The description can be read back from the steps. */
  lemma SecuenciaPasosRoundTrip(descripcion: string)
    ensures SecuenciaPasos(descripcion)[1][|"Ejecutar: "|..] == descripcion
  {
    var s := SecuenciaPasos(descripcion)[1];
    assert s == "Ejecutar: " + descripcion;
  }
}

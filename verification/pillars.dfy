/** The pillar verifier (`VerificadorPilares`): a decision is scored against
    eight pillars. Three have specific checks that start at 100 and subtract
    a fixed penalty per violation; the other five are a fixed heuristic 80.

    The decision dictionary is modelled by the truthiness of the keys the
    checks read, and `str(decision.get("descripcion", ""))` by its text.
    Scores are whole numbers, as every penalty is.
 */
module Pillars {

  import opened Wrappers

  datatype Decision = Decision(
    accionEspecifica: bool,
    descripcion: string,
    postergar: bool,
    creaDependenciaExterna: bool,
    tipo: Option<string>,
    vendorLockin: bool,
    culpaExterna: bool,
    requiereExpertoCritico: bool,
    comprendeImplicaciones: bool)

  /** The violations the three specific checks can find. */
  datatype Violacion =
    | FaltaClaridad | DescripcionLarga | Postergacion
    | DependenciaExterna | Consumo | VendorLockin
    | CulpaExterna | ExpertoCritico | FaltaComprension

  /** The penalty of each violation. */
  function Penalizacion(v: Violacion): int {
    match v
    case FaltaClaridad => 25 case DescripcionLarga => 15 case Postergacion => 30
    case DependenciaExterna => 40 case Consumo => 20 case VendorLockin => 30
    case CulpaExterna => 40 case ExpertoCritico => 25 case FaltaComprension => 20
  }

  function ViolacionTexto(v: Violacion): string {
    match v
    case FaltaClaridad => "Falta claridad sobre acción específica"
    case DescripcionLarga => "Descripción demasiado elaborada (>200 chars)"
    case Postergacion => "Postergación de lo claro"
    case DependenciaExterna => "Crea dependencia de plataforma externa"
    case Consumo => "Acción de consumo, no creación"
    case VendorLockin => "Riesgo de vendor lock-in"
    case CulpaExterna => "Proyección de culpa externa"
    case ExpertoCritico => "Dependencia crítica de experto externo"
    case FaltaComprension => "Falta comprensión de implicaciones"
  }

  /** The advice recorded with each violation. */
  function Recomendacion(v: Violacion): string {
    match v
    case FaltaClaridad => "Formular acción concreta y directa"
    case DescripcionLarga => "Simplificar a lo esencial"
    case Postergacion => "Si es claro, actuar sin demora"
    case DependenciaExterna => "Buscar alternativa self-hosted o local-first"
    case Consumo => "Transformar en acción generativa"
    case VendorLockin => "Asegurar portabilidad y alternativas"
    case CulpaExterna => "Asumir propiedad total"
    case ExpertoCritico => "Desarrollar capacidad propia"
    case FaltaComprension => "Investigar y comprender antes de decidir"
  }

  datatype Resultado = Resultado(
    pilar: string,
    score: int,
    cumple: bool,
    fortalezas: seq<string>,
    violaciones: seq<Violacion>,
    recomendaciones: seq<string>)

  const Umbral := 70

  function SumaPenalizaciones(vs: seq<Violacion>): int {
    if |vs| == 0 then 0 else SumaPenalizaciones(vs[..|vs| - 1]) + Penalizacion(vs[|vs| - 1])
  }

  /** A result is consistent when its score is 100 minus the penalties of the
      violations it lists, floored at 0, each violation comes with its
      advice, and it passes exactly at 70 or more. */
  predicate Coherente(r: Resultado) {
    r.score == (if 100 - SumaPenalizaciones(r.violaciones) < 0 then 0 else 100 - SumaPenalizaciones(r.violaciones))
    && |r.recomendaciones| == |r.violaciones|
    && (forall i :: 0 <= i < |r.violaciones| ==> r.recomendaciones[i] == Recomendacion(r.violaciones[i]))
    && (r.cumple <==> r.score >= Umbral)
  }

  /** The state of a check in progress. */
  datatype Paso = Paso(score: int, fortalezas: seq<string>, violaciones: seq<Violacion>, recomendaciones: seq<string>)

  function Inicio(): Paso {
    Paso(100, [], [], [])
  }

  function Violar(p: Paso, v: Violacion): Paso {
    Paso(p.score - Penalizacion(v), p.fortalezas, p.violaciones + [v], p.recomendaciones + [Recomendacion(v)])
  }

  function Fortaleza(p: Paso, f: string): Paso {
    p.(fortalezas := p.fortalezas + [f])
  }

  /** Steps keep the score equal to 100 minus the penalties so far, with
      one advice per violation. */
  predicate PasoCoherente(p: Paso) {
    p.score == 100 - SumaPenalizaciones(p.violaciones)
    && |p.recomendaciones| == |p.violaciones|
    && (forall i :: 0 <= i < |p.violaciones| ==> p.recomendaciones[i] == Recomendacion(p.violaciones[i]))
  }

  lemma ViolarCoherente(p: Paso, v: Violacion)
    requires PasoCoherente(p)
    ensures PasoCoherente(Violar(p, v))
  {
    var q := Violar(p, v);
    assert q.violaciones[..|q.violaciones| - 1] == p.violaciones;
  }

  function Cerrar(nombre: string, p: Paso): (r: Resultado)
    requires PasoCoherente(p)
    ensures Coherente(r)
    ensures r.violaciones == p.violaciones && r.score == (if p.score < 0 then 0 else p.score)
  {
    Resultado(nombre, if p.score < 0 then 0 else p.score, p.score >= Umbral,
              p.fortalezas, p.violaciones, p.recomendaciones)
  }

  /** One check of a pillar: when `falla` holds, the violation is recorded
      with its penalty and advice; otherwise the strength, if any, is noted. */
  function Comprobar(p: Paso, falla: bool, v: Violacion, fortaleza: Option<string>): (r: Paso)
    requires PasoCoherente(p)
    ensures PasoCoherente(r)
    ensures r.score == p.score - (if falla then Penalizacion(v) else 0)
    ensures r.violaciones == p.violaciones + (if falla then [v] else [])
  {
    if falla then
      ViolarCoherente(p, v);
      Violar(p, v)
    else if fortaleza.Some? then Fortaleza(p, fortaleza.value)
    else p
  }

  /** The violations of three checks, in order. */
  function Tres(f1: bool, v1: Violacion, f2: bool, v2: Violacion, f3: bool, v3: Violacion): seq<Violacion> {
    (if f1 then [v1] else []) + (if f2 then [v2] else []) + (if f3 then [v3] else [])
  }

  /** Three checks in a row from a clean start, then the verdict: the score
      loses the penalty of each failed check, and the violations are the
      failed ones in order. */
  function TresChequeos(nombre: string, f1: bool, v1: Violacion, s1: Option<string>,
                        f2: bool, v2: Violacion, s2: Option<string>,
                        f3: bool, v3: Violacion, s3: Option<string>): (r: Resultado)
    requires Penalizacion(v1) + Penalizacion(v2) + Penalizacion(v3) <= 100
    ensures r.score == 100 - (if f1 then Penalizacion(v1) else 0) - (if f2 then Penalizacion(v2) else 0)
                           - (if f3 then Penalizacion(v3) else 0)
    ensures Coherente(r)
    ensures r.violaciones == Tres(f1, v1, f2, v2, f3, v3)
  {
    Cerrar(nombre, TresPasos(f1, v1, s1, f2, v2, s2, f3, v3, s3))
  }

  /** The state after the three checks. */
  function TresPasos(f1: bool, v1: Violacion, s1: Option<string>,
                     f2: bool, v2: Violacion, s2: Option<string>,
                     f3: bool, v3: Violacion, s3: Option<string>): (p: Paso)
    ensures PasoCoherente(p)
    ensures p.score == 100 - (if f1 then Penalizacion(v1) else 0) - (if f2 then Penalizacion(v2) else 0)
                           - (if f3 then Penalizacion(v3) else 0)
    ensures p.violaciones == Tres(f1, v1, f2, v2, f3, v3)
  {
    var p1 := Comprobar(Inicio(), f1, v1, s1);
    var p2 := Comprobar(p1, f2, v2, s2);
    Comprobar(p2, f3, v3, s3)
  }

  /** `verificar_pureza_operativa`. */
  function PurezaOperativa(d: Decision): (r: Resultado)
    ensures r.score == 100 - (if d.accionEspecifica then 0 else 25)
                           - (if |d.descripcion| > 200 then 15 else 0)
                           - (if d.postergar then 30 else 0)
    ensures 30 <= r.score <= 100
    ensures Coherente(r)
    ensures r.violaciones == Tres(!d.accionEspecifica, FaltaClaridad, |d.descripcion| > 200, DescripcionLarga,
                                  d.postergar, Postergacion)
  {
    TresChequeos("Pureza Operativa",
      !d.accionEspecifica, FaltaClaridad, Some("Acción específica y clara"),
      |d.descripcion| > 200, DescripcionLarga, None,
      d.postergar, Postergacion, Some("Sin postergación innecesaria"))
  }

  /** `verificar_soberania_creativa`: only the exact type `consumo` is
      penalised, and only `creacion` counts as a strength. */
  function SoberaniaCreativa(d: Decision): (r: Resultado)
    ensures r.score == 100 - (if d.creaDependenciaExterna then 40 else 0)
                           - (if d.tipo == Some("consumo") then 20 else 0)
                           - (if d.vendorLockin then 30 else 0)
    ensures 10 <= r.score <= 100
    ensures Coherente(r)
    ensures r.violaciones == Tres(d.creaDependenciaExterna, DependenciaExterna, d.tipo == Some("consumo"), Consumo,
                                  d.vendorLockin, VendorLockin)
  {
    TresChequeos("Soberanía Creativa",
      d.creaDependenciaExterna, DependenciaExterna, Some("No crea dependencias críticas"),
      d.tipo == Some("consumo"), Consumo, if d.tipo == Some("creacion") then Some("Acción generativa") else None,
      d.vendorLockin, VendorLockin, None)
  }

  /** `verificar_responsabilidad_consciente`. */
  function ResponsabilidadConsciente(d: Decision): (r: Resultado)
    ensures r.score == 100 - (if d.culpaExterna then 40 else 0)
                           - (if d.requiereExpertoCritico then 25 else 0)
                           - (if d.comprendeImplicaciones then 0 else 20)
    ensures 15 <= r.score <= 100
    ensures Coherente(r)
    ensures r.violaciones == Tres(d.culpaExterna, CulpaExterna, d.requiereExpertoCritico, ExpertoCritico,
                                  !d.comprendeImplicaciones, FaltaComprension)
  {
    TresChequeos("Responsabilidad Consciente",
      d.culpaExterna, CulpaExterna, Some("Propiedad de resultados asumida"),
      d.requiereExpertoCritico, ExpertoCritico, None,
      !d.comprendeImplicaciones, FaltaComprension, Some("Comprensión profunda"))
  }

  /** `_verificar_pilar_heuristico`. */
  function PilarHeuristico(nombre: string): (r: Resultado)
    ensures r.score == 80 && r.cumple && |r.violaciones| == 0
    ensures r.pilar == nombre
  {
    Resultado(nombre, 80, true, ["No se detectaron violaciones obvias"], [],
              ["Implementar verificador específico para " + nombre])
  }

  /** The three specific pillars never go below zero, so the `max(0, ·)`
      floor never applies and passing is read off the reported score. */
  lemma FloorNeverApplies(d: Decision)
    ensures PurezaOperativa(d).score > 0 && SoberaniaCreativa(d).score > 0 && ResponsabilidadConsciente(d).score > 0
  {
  }

  // ---------------------------------------------------------------------------
  // All eight pillars
  // ---------------------------------------------------------------------------

  datatype Global = Global(
    scoreGlobal: real,
    pilaresCumplidos: nat,
    totalPilares: nat,
    cumpleArquitectura: bool,
    resultados: seq<Resultado>)

  function Heuristicos(): seq<Resultado> {
    [PilarHeuristico("Expresión Auténtica"), PilarHeuristico("Implementación Técnica"),
     PilarHeuristico("Contribución Ecosistémica"), PilarHeuristico("Sabiduría Integrada"),
     PilarHeuristico("Evolución Continua")]
  }

  function Resultados(d: Decision): (rs: seq<Resultado>)
    ensures |rs| == 8
  {
    [PurezaOperativa(d), SoberaniaCreativa(d), ResponsabilidadConsciente(d)] + Heuristicos()
  }

  function SumaScores(rs: seq<Resultado>): int {
    if |rs| == 0 then 0 else rs[0].score + SumaScores(rs[1..])
  }

  function Cumplidos(rs: seq<Resultado>): (n: nat)
    ensures n <= |rs|
  {
    if |rs| == 0 then 0 else (if rs[0].cumple then 1 else 0) + Cumplidos(rs[1..])
  }

  lemma {:induction false} TotalsAppend(a: seq<Resultado>, b: seq<Resultado>)
    ensures SumaScores(a + b) == SumaScores(a) + SumaScores(b)
    ensures Cumplidos(a + b) == Cumplidos(a) + Cumplidos(b)
    decreases |a|
  {
    if |a| > 0 {
      assert (a + b)[1..] == a[1..] + b;
      TotalsAppend(a[1..], b);
    } else {
      assert a + b == b;
    }
  }

  /** Every heuristic pillar scores 80 and passes. */
  lemma {:induction false} AllHeuristic(rs: seq<Resultado>)
    requires forall i :: 0 <= i < |rs| ==> rs[i].score == 80 && rs[i].cumple
    ensures SumaScores(rs) == 80 * |rs| && Cumplidos(rs) == |rs|
    decreases |rs|
  {
    if |rs| > 0 {
      AllHeuristic(rs[1..]);
    }
  }

  /** `verificar_todos_pilares`. */
  function VerificarTodos(d: Decision): (g: Global)
    ensures |g.resultados| == 8 && g.totalPilares == 8
    ensures g.scoreGlobal == SumaScores(g.resultados) as real / 8.0
    ensures g.cumpleArquitectura <==> g.pilaresCumplidos >= 6
    ensures g.pilaresCumplidos == Cumplidos(g.resultados)
  {
    Resumir(Resultados(d))
  }

  /** The summary of a list of pillar results. */
  function Resumir(rs: seq<Resultado>): (g: Global)
    requires |rs| > 0
    ensures g.resultados == rs && g.totalPilares == |rs|
    ensures g.scoreGlobal == SumaScores(rs) as real / |rs| as real
    ensures g.pilaresCumplidos == Cumplidos(rs)
    ensures g.cumpleArquitectura <==> g.pilaresCumplidos >= 6
  {
    var n := Cumplidos(rs);
    Global(SumaScores(rs) as real / |rs| as real, n, |rs|, n >= 6, rs)
  }

  /** Three results followed by the five heuristic ones: the totals are
      those of the three plus 400 points and five passes. */
  lemma ThreePlusHeuristics(a: Resultado, b: Resultado, c: Resultado)
    ensures SumaScores([a, b, c] + Heuristicos()) == a.score + b.score + c.score + 400
    ensures Cumplidos([a, b, c] + Heuristicos())
            == (if a.cumple then 1 else 0) + (if b.cumple then 1 else 0) + (if c.cumple then 1 else 0) + 5
  {
    var es := [a, b, c];
    var hs := Heuristicos();
    assert forall i :: 0 <= i < |hs| ==> hs[i].score == 80 && hs[i].cumple;
    AllHeuristic(hs);
    TotalsAppend(es, hs);
    assert es[1..] == [b, c] && es[1..][1..] == [c] && [c][1..] == [];
    assert SumaScores([c]) == c.score;
    assert SumaScores([b, c]) == b.score + c.score;
    assert Cumplidos([c]) == (if c.cumple then 1 else 0);
  }

  /** The five heuristic pillars always pass, so the architecture passes
      exactly when at least one of the three specific pillars does, and the
      global score is the specific scores plus 400, over eight. */
  lemma ArchitectureNeedsOneSpecific(d: Decision)
    ensures var g := VerificarTodos(d);
      (g.cumpleArquitectura <==>
        (PurezaOperativa(d).cumple || SoberaniaCreativa(d).cumple || ResponsabilidadConsciente(d).cumple))
      && g.scoreGlobal
         == (PurezaOperativa(d).score + SoberaniaCreativa(d).score + ResponsabilidadConsciente(d).score + 400) as real / 8.0
      && 56.875 <= g.scoreGlobal <= 87.5
  {
    ResumenTres(PurezaOperativa(d), SoberaniaCreativa(d), ResponsabilidadConsciente(d));
  }

  /** Three specific results ahead of the heuristic ones, with scores in
      the ranges the three specific pillars produce. */
  lemma ResumenTres(a: Resultado, b: Resultado, c: Resultado)
    requires 30 <= a.score <= 100 && 10 <= b.score <= 100 && 15 <= c.score <= 100
    ensures var g := Resumir([a, b, c] + Heuristicos());
      (g.cumpleArquitectura <==> (a.cumple || b.cumple || c.cumple))
      && g.scoreGlobal == (a.score + b.score + c.score + 400) as real / 8.0
      && 56.875 <= g.scoreGlobal <= 87.5
  {
    ThreePlusHeuristics(a, b, c);
  }

  /** A decision with no flags raised scores 100 on every specific pillar. */
  lemma CleanDecisionIsPerfect(descripcion: string)
    requires |descripcion| <= 200
    ensures var d := Decision(true, descripcion, false, false, Some("creacion"), false, false, false, true);
      PurezaOperativa(d).score == 100 && SoberaniaCreativa(d).score == 100
      && ResponsabilidadConsciente(d).score == 100
  {
  }
}

/** The pattern analyser (`AnalizadorPatrones`): the energy pattern of the
    recent Estados Cero, the conflicts and synergies between domains that
    their texts show, and the actions those findings call for.

    Loading and parsing the notes is outside the model: each state arrives
    as its moment, tendency, intensity and body text.
 */
module PatternAnalysis {

  import Arith
  import Seqs
  import Text

  datatype Estado = Estado(momento: string, tendencia: string, intensidad: real, contenido: string)

  datatype PatronEnergia = PatronEnergia(tendencia: string, intensidad: real, consistencia: real, momentoPredominante: string)

  function Tendencias(es: seq<Estado>): (r: seq<string>)
    ensures |r| == |es|
    ensures forall i :: 0 <= i < |es| ==> r[i] == es[i].tendencia
  {
    seq(|es|, i requires 0 <= i < |es| => es[i].tendencia)
  }

  function Momentos(es: seq<Estado>): (r: seq<string>)
    ensures |r| == |es|
    ensures forall i :: 0 <= i < |es| ==> r[i] == es[i].momento
  {
    seq(|es|, i requires 0 <= i < |es| => es[i].momento)
  }

  function Intensidades(es: seq<Estado>): (r: seq<real>)
    ensures |r| == |es|
    ensures forall i :: 0 <= i < |es| ==> r[i] == es[i].intensidad
  {
    seq(|es|, i requires 0 <= i < |es| => es[i].intensidad)
  }

  // ---------------------------------------------------------------------------
  // Energy pattern
  // ---------------------------------------------------------------------------

  /** The share of the states with tendency `t`. */
  function Cuota(ts: seq<string>, t: string): (q: real)
    requires |ts| > 0
    ensures 0.0 <= q <= 1.0
    ensures q * |ts| as real == Seqs.Count(ts, t) as real
  {
    Arith.FractionSpec(Seqs.Count(ts, t), |ts|);
    Arith.Fraction(Seqs.Count(ts, t), |ts|)
  }

  /** A tendency seen at least as often has at least the same share. */
  lemma CuotaMonotona(ts: seq<string>, a: string, b: string)
    requires |ts| > 0
    requires Seqs.Count(ts, a) <= Seqs.Count(ts, b)
    ensures Cuota(ts, a) <= Cuota(ts, b)
  {
    Arith.FractionMonotone(Seqs.Count(ts, a), Seqs.Count(ts, b), |ts|);
  }

  /** How many states share the moment of each state. */
  function Conteos(ms: seq<string>): (cs: seq<nat>)
    ensures |cs| == |ms|
    ensures forall j :: 0 <= j < |ms| ==> cs[j] == Seqs.Count(ms, ms[j])
  {
    seq(|ms|, j requires 0 <= j < |ms| => Seqs.Count(ms, ms[j]))
  }

  /** The loop over the moments: a later moment replaces the current one
      only with strictly more states, so the first moment in list order
      with the largest number of states wins; with none, fajr. */
  method MomentoPredominante(ms: seq<string>) returns (m: string)
    ensures |ms| == 0 ==> m == "fajr"
    ensures |ms| > 0 ==> m in ms
    ensures forall j :: 0 <= j < |ms| ==> Seqs.Count(ms, ms[j]) <= Seqs.Count(ms, m)
    ensures forall j :: 0 <= j < |ms| && Seqs.Count(ms, ms[j]) == Seqs.Count(ms, m) ==> m in ms[..j + 1]
  {
    var cs := Conteos(ms);
    m := "fajr";
    var maximo := 0;
    var i := 0;
    ghost var pos := 0;
    while i < |ms|
      invariant 0 <= i <= |ms|
      invariant i == 0 ==> m == "fajr" && maximo == 0
      invariant i > 0 ==> pos < i && m == ms[pos] && maximo == cs[pos]
      invariant forall j :: 0 <= j < i ==> cs[j] <= maximo
      invariant forall j :: 0 <= j < i && cs[j] == maximo ==> pos <= j
    {
      if cs[i] > maximo {
        maximo := cs[i];
        m := ms[i];
        pos := i;
      }
      i := i + 1;
    }
    if |ms| > 0 {
      PrimerMaximo(ms, cs, pos);
    }
  }

  /** The first position with the largest count names the predominant
      moment. */
  lemma PrimerMaximo(ms: seq<string>, cs: seq<nat>, pos: nat)
    requires pos < |ms| && cs == Conteos(ms)
    requires forall j :: 0 <= j < |ms| ==> cs[j] <= cs[pos]
    requires forall j :: 0 <= j < |ms| && cs[j] == cs[pos] ==> pos <= j
    ensures forall j :: 0 <= j < |ms| ==> Seqs.Count(ms, ms[j]) <= Seqs.Count(ms, ms[pos])
    ensures forall j :: 0 <= j < |ms| && Seqs.Count(ms, ms[j]) == Seqs.Count(ms, ms[pos]) ==> ms[pos] in ms[..j + 1]
  {
    forall j | 0 <= j < |ms| && Seqs.Count(ms, ms[j]) == Seqs.Count(ms, ms[pos])
      ensures ms[pos] in ms[..j + 1]
    {
      assert cs[j] == cs[pos];
      assert ms[..j + 1][pos] == ms[pos];
    }
  }

  /** `_analizar_patron_energia`: with no state, balance at zero in fajr;
      otherwise the most frequent tendency, the mean intensity, the share of
      states with the chosen tendency, and the predominant moment. */
  method AnalizarPatronEnergia(es: seq<Estado>) returns (p: PatronEnergia)
    ensures |es| == 0 ==> p == PatronEnergia("equilibrio", 0.0, 0.0, "fajr")
    ensures |es| > 0 ==>
      var ts := Tendencias(es);
      && p.tendencia in ts
      && (forall t :: t in ts ==> Seqs.Count(ts, t) <= Seqs.Count(ts, p.tendencia))
      && p.consistencia == Cuota(ts, p.tendencia)
      && p.intensidad == Seqs.Mean(Intensidades(es))
      && p.momentoPredominante in Momentos(es)
    ensures |es| > 0 ==> forall j :: 0 <= j < |es| ==>
      Seqs.Count(Momentos(es), es[j].momento) <= Seqs.Count(Momentos(es), p.momentoPredominante)
  {
    if |es| == 0 {
      return PatronEnergia("equilibrio", 0.0, 0.0, "fajr");
    }
    var ts := Tendencias(es);
    var t := Seqs.MostCommon(ts);
    var m := MomentoPredominante(Momentos(es));
    p := PatronEnergia(t, Seqs.Mean(Intensidades(es)), Cuota(ts, t), m);
  }

  /** The consistency is never zero once there is a state, and no other
      tendency has a larger share than the chosen one. */
  lemma ConsistenciaSpec(es: seq<Estado>, t: string, otra: string)
    requires |es| > 0
    requires t in Tendencias(es)
    requires forall u :: u in Tendencias(es) ==> Seqs.Count(Tendencias(es), u) <= Seqs.Count(Tendencias(es), t)
    ensures 0.0 < Cuota(Tendencias(es), t) <= 1.0
    ensures Cuota(Tendencias(es), otra) <= Cuota(Tendencias(es), t)
  {
    var ts := Tendencias(es);
    assert Seqs.Count(ts, t) > 0;
    if otra in ts {
      CuotaMonotona(ts, otra, t);
    } else {
      assert Seqs.Count(ts, otra) == 0;
      CuotaMonotona(ts, otra, t);
    }
  }

  // ---------------------------------------------------------------------------
  // Conflicts
  // ---------------------------------------------------------------------------

  const PalabrasBiologicas: seq<string> := ["cuerpo", "energía", "ejercicio", "movimiento", "salud"]
  const PalabrasEspirituales: seq<string> := ["espíritu", "conexión", "propósito", "significado", "fe"]

  /** Whether a state's body, lower-cased, mentions one of the words. */
  predicate Menciona(e: Estado, palabras: seq<string>) {
    Text.ContainsAny(Text.Lower(e.contenido), palabras)
  }

  /** The tendencies of the states that mention one of the words, in order. */
  function TendenciasQueMencionan(es: seq<Estado>, palabras: seq<string>): (r: seq<string>)
    ensures |r| <= |es|
    ensures |r| == 0 <==> forall i :: 0 <= i < |es| ==> !Menciona(es[i], palabras)
  {
    if |es| == 0 then []
    else
      var resto := TendenciasQueMencionan(es[..|es| - 1], palabras);
      assert forall i :: 0 <= i < |es| - 1 ==> es[..|es| - 1][i] == es[i];
      if Menciona(es[|es| - 1], palabras) then resto + [es[|es| - 1].tendencia] else resto
  }

  datatype Conflicto = Conflicto(dominios: seq<string>, tipo: string, intensidad: real, recomendacion: string)

  function Abs(x: real): real {
    if x < 0.0 then -x else x
  }

  /** The gap between the share of expansion among the body-related states
      and the share of contraction among the spirit-related ones. */
  function Brecha(bio: seq<string>, esp: seq<string>): (g: real)
    requires |bio| > 0 && |esp| > 0
    ensures 0.0 <= g <= 1.0
  {
    Abs(Cuota(bio, "expansión") - Cuota(esp, "contracción"))
  }

  /** `_detectar_conflictos_dominios`: one energy conflict between the
      biological and the spiritual domain when both are mentioned and the
      gap between their shares exceeds 0.6, its intensity being the gap. */
  function DetectarConflictos(es: seq<Estado>): (r: seq<Conflicto>)
    ensures |r| <= 1
    ensures |r| == 1 ==> r[0].dominios == ["biologico", "espiritual"] && r[0].tipo == "energia"
    ensures |r| == 1 ==> 0.6 < r[0].intensidad <= 1.0
  {
    var bio := TendenciasQueMencionan(es, PalabrasBiologicas);
    var esp := TendenciasQueMencionan(es, PalabrasEspirituales);
    if |bio| > 0 && |esp| > 0 && Brecha(bio, esp) > 0.6 then
      [Conflicto(["biologico", "espiritual"], "energia", Brecha(bio, esp),
                 "Buscar equilibrio entre movimiento físico y quietud espiritual")]
    else []
  }

  /** A conflict is reported exactly when some state mentions the body,
      some state mentions the spirit, and the gap exceeds 0.6. */
  lemma ConflictoSpec(es: seq<Estado>)
    ensures |DetectarConflictos(es)| == 1 <==>
      (exists i :: 0 <= i < |es| && Menciona(es[i], PalabrasBiologicas))
      && (exists i :: 0 <= i < |es| && Menciona(es[i], PalabrasEspirituales))
      && Brecha(TendenciasQueMencionan(es, PalabrasBiologicas), TendenciasQueMencionan(es, PalabrasEspirituales)) > 0.6
  {
  }

  /** When every body-related state expands and every spirit-related one
      contracts the shares agree, so there is no conflict. */
  lemma SinConflictoSiConcuerdan(es: seq<Estado>)
    requires forall i :: 0 <= i < |es| && Menciona(es[i], PalabrasBiologicas) ==> es[i].tendencia == "expansión"
    requires forall i :: 0 <= i < |es| && Menciona(es[i], PalabrasEspirituales) ==> es[i].tendencia == "contracción"
    ensures DetectarConflictos(es) == []
  {
    var bio := TendenciasQueMencionan(es, PalabrasBiologicas);
    var esp := TendenciasQueMencionan(es, PalabrasEspirituales);
    if |bio| > 0 && |esp| > 0 {
      TodasIguales(es, PalabrasBiologicas, "expansión");
      TodasIguales(es, PalabrasEspirituales, "contracción");
      assert Cuota(bio, "expansión") == 1.0;
      assert Cuota(esp, "contracción") == 1.0;
    }
  }

  /** If every mentioning state has tendency `t`, all the collected
      tendencies are `t`. */
  lemma {:induction false} TodasIguales(es: seq<Estado>, palabras: seq<string>, t: string)
    requires forall i :: 0 <= i < |es| && Menciona(es[i], palabras) ==> es[i].tendencia == t
    ensures Seqs.Count(TendenciasQueMencionan(es, palabras), t) == |TendenciasQueMencionan(es, palabras)|
    decreases |es|
  {
    if |es| > 0 {
      var init := es[..|es| - 1];
      assert forall i :: 0 <= i < |init| ==> init[i] == es[i];
      TodasIguales(init, palabras, t);
      var resto := TendenciasQueMencionan(init, palabras);
      if Menciona(es[|es| - 1], palabras) {
        CountAppend(resto, [t], t);
      }
    }
  }

  lemma {:induction false} CountAppend(a: seq<string>, b: seq<string>, x: string)
    ensures Seqs.Count(a + b, x) == Seqs.Count(a, x) + Seqs.Count(b, x)
    decreases |a|
  {
    if |a| == 0 {
      assert a + b == b;
    } else {
      assert (a + b)[1..] == a[1..] + b;
      CountAppend(a[1..], b, x);
    }
  }

  // ---------------------------------------------------------------------------
  // Synergies
  // ---------------------------------------------------------------------------

  datatype Sinergia = Sinergia(dominios: seq<string>, tipo: string, potencial: real, accion: string)

  /** How many of the three domains a state expands in: a domain counts
      when the body mentions one of its words and the tendency is
      expansion. */
  function DominiosEnExpansion(e: Estado): (k: nat)
    ensures k <= 3
    ensures e.tendencia != "expansión" ==> k == 0
  {
    if e.tendencia != "expansión" then 0
    else
      (if Menciona(e, ["cuerpo", "energía", "movimiento"]) then 1 else 0)
      + (if Menciona(e, ["espíritu", "conexión", "propósito"]) then 1 else 0)
      + (if Menciona(e, ["dinero", "trabajo", "proyecto"]) then 1 else 0)
  }

  /** `_detectar_sinergias_dominios`: one amplification synergy for every
      state expanding in at least two domains, its potential being the
      share of the three domains. */
  function DetectarSinergias(es: seq<Estado>): (r: seq<Sinergia>)
    ensures |r| <= |es|
    ensures forall i :: 0 <= i < |r| ==> r[i].tipo == "amplificacion" && 2.0 / 3.0 <= r[i].potencial <= 1.0
  {
    if |es| == 0 then []
    else
      var resto := DetectarSinergias(es[..|es| - 1]);
      var k := DominiosEnExpansion(es[|es| - 1]);
      if k >= 2 then
        resto + [Sinergia(["biologico", "espiritual", "financiero"], "amplificacion", k as real / 3.0,
                          "Aprovechar momento de expansión general para acciones significativas")]
      else resto
  }

  /** A synergy is found for exactly the states that expand in two domains
      or more: none when no state expands. */
  lemma {:induction false} SinergiasCuentan(es: seq<Estado>)
    ensures |DetectarSinergias(es)| == Seqs.CountIf(es, AmplificaDos())
    decreases |es|
  {
    if |es| > 0 {
      var init := es[..|es| - 1];
      SinergiasCuentan(init);
      CountIfSnoc(init, es[|es| - 1], AmplificaDos());
      assert init + [es[|es| - 1]] == es;
    }
  }

  function AmplificaDos(): Estado -> bool {
    (e: Estado) => DominiosEnExpansion(e) >= 2
  }

  lemma {:induction false} CountIfSnoc<T>(xs: seq<T>, x: T, p: T -> bool)
    ensures Seqs.CountIf(xs + [x], p) == Seqs.CountIf(xs, p) + (if p(x) then 1 else 0)
    decreases |xs|
  {
    if |xs| == 0 {
      assert xs + [x] == [x];
    } else {
      assert (xs + [x])[1..] == xs[1..] + [x];
      CountIfSnoc(xs[1..], x, p);
    }
  }

  /** No state in expansion, no synergy. */
  lemma SinExpansionSinSinergias(es: seq<Estado>)
    requires forall i :: 0 <= i < |es| ==> es[i].tendencia != "expansión"
    ensures DetectarSinergias(es) == []
  {
    SinergiasCuentan(es);
    NingunoCuenta(es);
  }

  lemma {:induction false} NingunoCuenta(es: seq<Estado>)
    requires forall i :: 0 <= i < |es| ==> es[i].tendencia != "expansión"
    ensures Seqs.CountIf(es, AmplificaDos()) == 0
    decreases |es|
  {
    if |es| > 0 {
      NingunoCuenta(es[1..]);
    }
  }

  // ---------------------------------------------------------------------------
  // Emergent actions
  // ---------------------------------------------------------------------------

  datatype AccionEmergente = AccionEmergente(tipo: string, dominio: string, urgencia: real, impacto: real)

  /** The action the energy pattern calls for: only a very consistent
      pattern (over 0.7) of expansion or contraction yields one. */
  function AccionDePatron(p: PatronEnergia): (r: seq<AccionEmergente>)
    ensures |r| == 1 <==> p.consistencia > 0.7 && p.tendencia in ["expansión", "contracción"]
    ensures |r| <= 1
  {
    if p.consistencia > 0.7 then
      if p.tendencia == "expansión" then [AccionEmergente("inmediata", "general", 0.8, 0.9)]
      else if p.tendencia == "contracción" then [AccionEmergente("rutina", "espiritual", 0.6, 0.7)]
      else []
    else []
  }

  /** The planned action for an energy conflict, on its first domain. */
  function AccionDeConflicto(c: Conflicto): AccionEmergente
    requires |c.dominios| > 0
  {
    AccionEmergente("planificada", c.dominios[0], c.intensidad, 0.8)
  }

  /** The experiment an amplification synergy suggests. */
  function AccionDeSinergia(s: Sinergia): AccionEmergente {
    AccionEmergente("experimento", "general", 0.7, s.potencial)
  }

  function EsEnergia(): Conflicto -> bool {
    (c: Conflicto) => c.tipo == "energia"
  }

  function EsAmplificacion(): Sinergia -> bool {
    (s: Sinergia) => s.tipo == "amplificacion"
  }

  /** Every energy conflict names a domain: the action for it reads its
      first domain, which raises on an empty list. */
  predicate ConDominio(cs: seq<Conflicto>) {
    forall c :: c in cs && c.tipo == "energia" ==> |c.dominios| > 0
  }

  /** The conflicts the detector reports always name their two domains. */
  lemma DetectadosConDominio(es: seq<Estado>)
    ensures ConDominio(DetectarConflictos(es))
  {
  }

  /** One planned action per energy conflict, in conflict order; other
      conflicts yield none. */
  function AccionesDeConflictos(cs: seq<Conflicto>): (r: seq<AccionEmergente>)
    requires ConDominio(cs)
    ensures |r| == Seqs.CountIf(cs, EsEnergia())
    ensures forall i :: 0 <= i < |r| ==> r[i].tipo == "planificada"
    ensures forall j :: 0 <= j < |cs| && cs[j].tipo == "energia" ==> AccionDeConflicto(cs[j]) in r
    ensures forall i :: 0 <= i < |r| ==>
      exists c :: c in cs && c.tipo == "energia" && r[i] == AccionDeConflicto(c)
  {
    var f := Seqs.Filter(cs, EsEnergia());
    var r := seq(|f|, i requires 0 <= i < |f| => AccionDeConflicto(f[i]));
    assert forall i :: 0 <= i < |f| ==> r[i] == AccionDeConflicto(f[i]);
    r
  }

  /** A conflict added at the end yields the last action when it is an
      energy conflict, so the actions keep the conflict order. */
  lemma AccionesDeConflictosAlFinal(cs: seq<Conflicto>, c: Conflicto)
    requires ConDominio(cs + [c])
    ensures ConDominio(cs)
    ensures AccionesDeConflictos(cs + [c]) ==
      AccionesDeConflictos(cs) + (if c.tipo == "energia" then [AccionDeConflicto(c)] else [])
  {
    Seqs.FilterSnoc(cs, c, EsEnergia());
  }

  /** One experiment per amplification synergy, in synergy order; other
      synergies yield none. */
  function AccionesDeSinergias(ss: seq<Sinergia>): (r: seq<AccionEmergente>)
    ensures |r| == Seqs.CountIf(ss, EsAmplificacion())
    ensures forall i :: 0 <= i < |r| ==> r[i].tipo == "experimento"
    ensures forall j :: 0 <= j < |ss| && ss[j].tipo == "amplificacion" ==> AccionDeSinergia(ss[j]) in r
    ensures forall i :: 0 <= i < |r| ==>
      exists s :: s in ss && s.tipo == "amplificacion" && r[i] == AccionDeSinergia(s)
  {
    var f := Seqs.Filter(ss, EsAmplificacion());
    var r := seq(|f|, i requires 0 <= i < |f| => AccionDeSinergia(f[i]));
    assert forall i :: 0 <= i < |f| ==> r[i] == AccionDeSinergia(f[i]);
    r
  }

  /** A synergy added at the end yields the last experiment when it is an
      amplification, so the experiments keep the synergy order. */
  lemma AccionesDeSinergiasAlFinal(ss: seq<Sinergia>, s: Sinergia)
    ensures AccionesDeSinergias(ss + [s]) ==
      AccionesDeSinergias(ss) + (if s.tipo == "amplificacion" then [AccionDeSinergia(s)] else [])
  {
    Seqs.FilterSnoc(ss, s, EsAmplificacion());
  }

  /** `_generar_acciones_emergentes`: the pattern's action, then one planned
      action per energy conflict, then one experiment per amplification
      synergy. */
  function GenerarAcciones(p: PatronEnergia, cs: seq<Conflicto>, ss: seq<Sinergia>): (r: seq<AccionEmergente>)
    requires ConDominio(cs)
    ensures var np, nc := |AccionDePatron(p)|, Seqs.CountIf(cs, EsEnergia());
      && |r| == np + nc + Seqs.CountIf(ss, EsAmplificacion())
      && r[..np] == AccionDePatron(p)
      && (forall i :: np <= i < np + nc ==> r[i].tipo == "planificada")
      && (forall i :: np + nc <= i < |r| ==> r[i].tipo == "experimento")
  {
    AccionDePatron(p) + AccionesDeConflictos(cs) + AccionesDeSinergias(ss)
  }

  /** An immediate or routine action appears only when the pattern is
      consistent beyond 0.7, and then it comes first. */
  lemma AccionSoloSiConsistente(p: PatronEnergia, cs: seq<Conflicto>, ss: seq<Sinergia>, i: nat)
    requires ConDominio(cs)
    requires i < |GenerarAcciones(p, cs, ss)|
    requires GenerarAcciones(p, cs, ss)[i].tipo in ["inmediata", "rutina"]
    ensures p.consistencia > 0.7 && i == 0
  {
  }
}

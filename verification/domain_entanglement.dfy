/** The domain entangler (`EntrelazadorDominios`): the state of each life
    domain read off the recent Estados Cero, the entanglement of every pair
    of domains, and the coordinated actions the entanglements call for.

    The states arrive already parsed, their body text lower-cased; loading
    them from the vault is outside the model. Action names, descriptions
    and success indicators are fixed texts and are left out.
 */
module DomainEntanglement {

  import opened Wrappers
  import Seqs
  import Text

  datatype EstadoCero = EstadoCero(tendencia: string, intensidad: real, contenido: string)

  /** The fixed configuration of one domain. */
  datatype Config = Config(nombre: string, indicadores: seq<string>, recursos: seq<string>, necesidades: seq<string>)

  datatype Dominio = Dominio(nombre: string, estado: string, energia: real, urgencia: real,
                             recursos: seq<string>, necesidades: seq<string>)

  /** The names of the four principal domains. */
  const Biologico: string := "biologico"
  const Espiritual: string := "espiritual"
  const Financiero: string := "financiero"
  const Conocimiento: string := "conocimiento"

  /** The tendencies a state can report, and the state of a domain nobody
      mentions. */
  const Expansion: string := "expansión"
  const Contraccion: string := "contracción"
  const Equilibrio: string := "equilibrio"

  /** The fixed order a conflict is balanced in, and the resources the
      conflict and sequence actions ask for. */
  const OrdenEquilibrio: seq<string> := [Espiritual, Biologico, Financiero, Conocimiento]
  const RecursosConflicto: seq<string> := ["tiempo", "atención", "espacio tranquilo"]
  const RecursosSecuencia: seq<string> := ["tiempo", "atención", "energía"]

  /** The four principal domains, in the order they are declared. */
  const Principales: seq<Config> := [
    Config(Biologico, ["movimiento", "cuerpo", "ejercicio", "salud", "energía"],
           ["tiempo", "espacio", "equipamiento", "motivación"],
           ["movimiento regular", "nutrición adecuada", "descanso", "cuidado"]),
    Config(Espiritual, ["espíritu", "conexión", "propósito", "significado", "fe", "meditación"],
           ["tiempo", "espacio sagrado", "atención", "compromiso"],
           ["quietud", "reflexión", "conexión", "propósito claro"]),
    Config(Financiero, ["dinero", "finanzas", "trabajo", "proyecto", "inversión", "ingresos"],
           ["dinero", "tiempo", "habilidades", "red", "oportunidades"],
           ["flujo de ingresos", "gestión eficiente", "crecimiento", "seguridad"]),
    Config(Conocimiento, ["aprender", "crear", "estudiar", "leer", "escribir", "conocimiento"],
           ["tiempo", "atención", "materiales", "mentores", "experiencia"],
           ["tiempo de estudio", "experimentación", "reflexión", "aplicación"])
  ]

  // ---------------------------------------------------------------------------
  // State of one domain
  // ---------------------------------------------------------------------------

  /** A state mentions a domain when its text holds one of the domain's
      indicators; it counts once however many it holds. */
  predicate Menciona(e: EstadoCero, c: Config) {
    Text.ContainsAny(e.contenido, c.indicadores)
  }

  /** Contraction signals urgency, expansion little, anything else some. */
  function FactorUrgencia(tendencia: string): real {
    if tendencia == Contraccion then 0.8
    else if tendencia == Expansion then 0.3
    else 0.5
  }

  /** The states that mention the domain, in order. */
  function Menciones(es: seq<EstadoCero>, c: Config): (r: seq<EstadoCero>)
    ensures |r| <= |es|
    ensures forall k :: 0 <= k < |r| ==> r[k] in es && Menciona(r[k], c)
    ensures |r| == 0 <==> forall k :: 0 <= k < |es| ==> !Menciona(es[k], c)
    ensures Seqs.Subsequence(r, es)
    ensures forall e {:trigger Seqs.Count(r, e)} :: Seqs.Count(r, e) == if Menciona(e, c) then Seqs.Count(es, e) else 0
  {
    Seqs.FilterOrder(es, MencionaDe(c));
    Seqs.Filter(es, MencionaDe(c))
  }

  function MencionaDe(c: Config): EstadoCero -> bool {
    (e: EstadoCero) => Menciona(e, c)
  }

  /** A state added at the end is the last mention when it mentions the
      domain. */
  lemma MencionesAlFinal(es: seq<EstadoCero>, e: EstadoCero, c: Config)
    ensures Menciones(es + [e], c) == Menciones(es, c) + (if Menciona(e, c) then [e] else [])
  {
    Seqs.FilterSnoc(es, e, MencionaDe(c));
  }

  function TendenciasDe(ms: seq<EstadoCero>): (r: seq<string>)
    ensures |r| == |ms|
    ensures forall k :: 0 <= k < |ms| ==> r[k] == ms[k].tendencia
  {
    seq(|ms|, k requires 0 <= k < |ms| => ms[k].tendencia)
  }

  function IntensidadesDe(ms: seq<EstadoCero>): (r: seq<real>)
    ensures |r| == |ms|
    ensures forall k :: 0 <= k < |ms| ==> r[k] == ms[k].intensidad
  {
    seq(|ms|, k requires 0 <= k < |ms| => ms[k].intensidad)
  }

  function UrgenciasDe(ms: seq<EstadoCero>): (r: seq<real>)
    ensures |r| == |ms|
    ensures forall k :: 0 <= k < |ms| ==> r[k] == ms[k].intensidad * FactorUrgencia(ms[k].tendencia)
  {
    seq(|ms|, k requires 0 <= k < |ms| => ms[k].intensidad * FactorUrgencia(ms[k].tendencia))
  }

  /** `_analizar_dominio_especifico`: with no mention the domain is in
      balance with energy 0.5 and urgency 0.3; otherwise its state is the
      most frequent tendency of the mentioning states, its energy their
      mean intensity and its urgency the mean of their weighted
      intensities. */
  function AnalizarDominio(es: seq<EstadoCero>, c: Config): (d: Dominio)
    ensures d.nombre == c.nombre && d.recursos == c.recursos && d.necesidades == c.necesidades
    ensures |Menciones(es, c)| == 0 ==> d.estado == Equilibrio && d.energia == 0.5 && d.urgencia == 0.3
    ensures |Menciones(es, c)| > 0 ==>
      var ts := TendenciasDe(Menciones(es, c));
      && d.estado in ts
      && (forall t :: t in ts ==> Seqs.Count(ts, t) <= Seqs.Count(ts, d.estado))
      && d.energia == Seqs.Mean(IntensidadesDe(Menciones(es, c)))
      && d.urgencia == Seqs.Mean(UrgenciasDe(Menciones(es, c)))
  {
    var ms := Menciones(es, c);
    if |ms| == 0 then Dominio(c.nombre, Equilibrio, 0.5, 0.3, c.recursos, c.necesidades)
    else
      Dominio(c.nombre, Seqs.MostCommon(TendenciasDe(ms)), Seqs.Mean(IntensidadesDe(ms)),
              Seqs.Mean(UrgenciasDe(ms)), c.recursos, c.necesidades)
  }

  /** With intensities in [0, 1], a domain's energy lies in [0, 1] and its
      urgency in [0, 0.8]. */
  lemma DominioAcotado(es: seq<EstadoCero>, c: Config)
    requires forall k :: 0 <= k < |es| ==> 0.0 <= es[k].intensidad <= 1.0
    ensures 0.0 <= AnalizarDominio(es, c).energia <= 1.0
    ensures 0.0 <= AnalizarDominio(es, c).urgencia <= 0.8
  {
    var ms := Menciones(es, c);
    if |ms| > 0 {
      MencionesAcotadas(es, c);
      Seqs.MeanBounds(IntensidadesDe(ms), 0.0, 1.0);
      UrgenciasAcotadas(ms);
      Seqs.MeanBounds(UrgenciasDe(ms), 0.0, 0.8);
    }
  }

  lemma MencionesAcotadas(es: seq<EstadoCero>, c: Config)
    requires forall k :: 0 <= k < |es| ==> 0.0 <= es[k].intensidad <= 1.0
    ensures forall k :: 0 <= k < |Menciones(es, c)| ==> 0.0 <= Menciones(es, c)[k].intensidad <= 1.0
  {
    var ms := Menciones(es, c);
    forall k | 0 <= k < |ms|
      ensures 0.0 <= ms[k].intensidad <= 1.0
    {
      assert ms[k] in es;
    }
  }

  lemma UrgenciasAcotadas(ms: seq<EstadoCero>)
    requires forall k :: 0 <= k < |ms| ==> 0.0 <= ms[k].intensidad <= 1.0
    ensures forall k :: 0 <= k < |ms| ==> 0.0 <= UrgenciasDe(ms)[k] <= 0.8
  {
    forall k | 0 <= k < |ms|
      ensures 0.0 <= UrgenciasDe(ms)[k] <= 0.8
    {
      var f := FactorUrgencia(ms[k].tendencia);
      assert 0.0 <= ms[k].intensidad * f <= 1.0 * f;
    }
  }

  /** `analizar_estado_dominios`: every principal domain, in order. */
  function AnalizarEstadoDominios(es: seq<EstadoCero>): (ds: seq<Dominio>)
    ensures |ds| == |Principales|
    ensures forall k :: 0 <= k < |ds| ==> ds[k] == AnalizarDominio(es, Principales[k])
  {
    seq(|Principales|, k requires 0 <= k < |Principales| => AnalizarDominio(es, Principales[k]))
  }

  // ---------------------------------------------------------------------------
  // Pairs of domains
  // ---------------------------------------------------------------------------

  /** Pair `(p, q)` comes before pair `(p', q')` in row-major order. */
  predicate Antes(a: (nat, nat), b: (nat, nat)) {
    a.0 < b.0 || (a.0 == b.0 && a.1 < b.1)
  }

  /** The pairs `(desde, j)` with `desde < j < n`, in order of `j`. */
  function Fila(desde: nat, n: nat): (r: seq<(nat, nat)>)
    requires desde < n
    ensures |r| == n - desde - 1
    ensures forall k :: 0 <= k < |r| ==> r[k] == (desde, desde + 1 + k)
  {
    seq(n - desde - 1, k requires 0 <= k < n - desde - 1 => (desde, desde + 1 + k))
  }

  /** The pairs `(i, j)` with `desde <= i < j < n`, in the order of the two
      nested loops. */
  function Pares(desde: nat, n: nat): (r: seq<(nat, nat)>)
    decreases n - desde
  {
    if desde >= n then [] else Fila(desde, n) + Pares(desde + 1, n)
  }

  /** Every pair `i < j` is visited and nothing else is. */
  lemma {:induction false} ParesMiembros(desde: nat, n: nat)
    ensures forall p: (nat, nat) :: p in Pares(desde, n) <==> desde <= p.0 < p.1 < n
    decreases n - desde
  {
    if desde < n {
      ParesMiembros(desde + 1, n);
      var fila, resto := Fila(desde, n), Pares(desde + 1, n);
      assert Pares(desde, n) == fila + resto;
      forall p: (nat, nat) | p in fila
        ensures desde <= p.0 < p.1 < n
      {
        var k :| 0 <= k < |fila| && fila[k] == p;
      }
      forall p: (nat, nat) | desde <= p.0 < p.1 < n
        ensures p in fila + resto
      {
        if p.0 == desde {
          assert fila[p.1 - desde - 1] == p;
        } else {
          assert p in resto;
        }
      }
    }
  }

  /** The pairs are visited in strictly increasing order, so each
      unordered pair is examined exactly once. */
  lemma {:induction false} ParesOrden(desde: nat, n: nat)
    ensures forall k, l :: 0 <= k < l < |Pares(desde, n)| ==> Antes(Pares(desde, n)[k], Pares(desde, n)[l])
    decreases n - desde
  {
    if desde < n {
      ParesOrden(desde + 1, n);
      ParesMiembros(desde + 1, n);
      var fila, resto := Fila(desde, n), Pares(desde + 1, n);
      assert Pares(desde, n) == fila + resto;
      forall k, l | 0 <= k < l < |fila + resto|
        ensures Antes((fila + resto)[k], (fila + resto)[l])
      {
        if l < |fila| {
        } else if k < |fila| {
          assert resto[l - |fila|] in resto;
        } else {
          assert (fila + resto)[k] == resto[k - |fila|];
        }
      }
    }
  }

  // ---------------------------------------------------------------------------
  // Entanglement of a pair
  // ---------------------------------------------------------------------------

  datatype Tipo = Sinergia | Conflicto | Secuencia | Apoyo | Neutral

  datatype Entrelazamiento = Entrelazamiento(dominios: seq<string>, tipo: Tipo, intensidad: real)

  /** The sequential dependencies: body before spirit, spirit before
      knowledge, knowledge before money, money before body. */
  predicate Depende(a: string, b: string) {
    || (a == Biologico && b == Espiritual)
    || (a == Espiritual && b == Conocimiento)
    || (a == Conocimiento && b == Financiero)
    || (a == Financiero && b == Biologico)
  }

  /** Mutual support: each domain supports its two neighbours. */
  predicate Apoya(a: string, b: string) {
    || (a == Biologico && (b == Espiritual || b == Conocimiento))
    || (a == Espiritual && (b == Biologico || b == Financiero))
    || (a == Financiero && (b == Espiritual || b == Conocimiento))
    || (a == Conocimiento && (b == Financiero || b == Biologico))
  }

  predicate Opuestos(d1: Dominio, d2: Dominio) {
    || (d1.estado == Expansion && d2.estado == Contraccion)
    || (d1.estado == Contraccion && d2.estado == Expansion)
  }

  function Abs(x: real): real {
    if x < 0.0 then -x else x
  }

  function Max(a: real, b: real): real {
    if a >= b then a else b
  }

  /** `_analizar_entrelazamiento_par` as written: the first rule that
      matches decides the type, in the order synergy, conflict, sequence,
      support; the sequence rule only asks whether the first domain of the
      pair comes before the second. */
  function TipoEscrito(d1: Dominio, d2: Dominio): Tipo {
    if d1.estado == Expansion && d2.estado == Expansion then Sinergia
    else if Opuestos(d1, d2) then Conflicto
    else if Depende(d1.nombre, d2.nombre) then Secuencia
    else if Apoya(d1.nombre, d2.nombre) then Apoyo
    else Neutral
  }

  /** The type of a pair with the sequence rule asking for a dependency in
      either direction. */
  function TipoDe(d1: Dominio, d2: Dominio): (t: Tipo)
    ensures t == Sinergia <==> d1.estado == Expansion && d2.estado == Expansion
    ensures t == Conflicto <==> Opuestos(d1, d2)
    ensures t == Secuencia <==>
      !(d1.estado == Expansion && d2.estado == Expansion) && !Opuestos(d1, d2)
      && (Depende(d1.nombre, d2.nombre) || Depende(d2.nombre, d1.nombre))
    ensures t == Apoyo <==>
      !(d1.estado == Expansion && d2.estado == Expansion) && !Opuestos(d1, d2)
      && !Depende(d1.nombre, d2.nombre) && !Depende(d2.nombre, d1.nombre) && Apoya(d1.nombre, d2.nombre)
  {
    if d1.estado == Expansion && d2.estado == Expansion then Sinergia
    else if Opuestos(d1, d2) then Conflicto
    else if Depende(d1.nombre, d2.nombre) || Depende(d2.nombre, d1.nombre) then Secuencia
    else if Apoya(d1.nombre, d2.nombre) then Apoyo
    else Neutral
  }

  /** The intensity each type takes: the mean energy for synergy and
      support, the energy gap for conflict, the larger urgency for a
      sequence. */
  function IntensidadDe(d1: Dominio, d2: Dominio, t: Tipo): real {
    match t
    case Sinergia => (d1.energia + d2.energia) / 2.0
    case Conflicto => Abs(d1.energia - d2.energia)
    case Secuencia => Max(d1.urgencia, d2.urgencia)
    case Apoyo => (d1.energia + d2.energia) / 2.0
    case Neutral => 0.0
  }

  /** The pair's names in the order a sequence runs: the domain that comes
      first leads. */
  function Orden(d1: Dominio, d2: Dominio, t: Tipo): (ns: seq<string>)
    ensures |ns| == 2
    ensures multiset(ns) == multiset([d1.nombre, d2.nombre])
  {
    if t == Secuencia && !Depende(d1.nombre, d2.nombre) then [d2.nombre, d1.nombre] else [d1.nombre, d2.nombre]
  }

  /** Kept only when the type is not neutral and the intensity exceeds
      0.3. */
  function AnalizarParEscrito(d1: Dominio, d2: Dominio): (r: Option<Entrelazamiento>)
    ensures r.Some? <==> TipoEscrito(d1, d2) != Neutral && IntensidadDe(d1, d2, TipoEscrito(d1, d2)) > 0.3
  {
    var t := TipoEscrito(d1, d2);
    var i := IntensidadDe(d1, d2, t);
    if t != Neutral && i > 0.3 then Some(Entrelazamiento([d1.nombre, d2.nombre], t, i)) else None
  }

  /** The entanglement of a pair, with a sequence in either direction
      recognised and named in the order it runs. */
  function AnalizarPar(d1: Dominio, d2: Dominio): (r: Option<Entrelazamiento>)
    ensures r.Some? <==> TipoDe(d1, d2) != Neutral && IntensidadDe(d1, d2, TipoDe(d1, d2)) > 0.3
    ensures r.Some? ==> r.value.tipo == TipoDe(d1, d2) && r.value.intensidad > 0.3
    ensures r.Some? ==> |r.value.dominios| == 2
    ensures r.Some? && r.value.tipo == Secuencia ==> Depende(r.value.dominios[0], r.value.dominios[1])
  {
    var t := TipoDe(d1, d2);
    var i := IntensidadDe(d1, d2, t);
    if t != Neutral && i > 0.3 then Some(Entrelazamiento(Orden(d1, d2, t), t, i)) else None
  }

  /** Synergy and conflict do not depend on which domain comes first, nor
      does their intensity. */
  lemma SimetriaSinergiaConflicto(d1: Dominio, d2: Dominio)
    ensures TipoDe(d1, d2) == Sinergia <==> TipoDe(d2, d1) == Sinergia
    ensures TipoDe(d1, d2) == Conflicto <==> TipoDe(d2, d1) == Conflicto
    ensures TipoDe(d1, d2) in {Sinergia, Conflicto} ==>
      IntensidadDe(d1, d2, TipoDe(d1, d2)) == IntensidadDe(d2, d1, TipoDe(d2, d1))
  {
  }

  /** The support table is symmetric, so with the sequence rule read in
      both directions the whole type does not depend on the order of the
      pair. */
  lemma TipoSimetrico(d1: Dominio, d2: Dominio)
    ensures TipoDe(d1, d2) == TipoDe(d2, d1)
  {
  }

  // ---------------------------------------------------------------------------
  // All pairs
  // ---------------------------------------------------------------------------

  /** The entanglements found, in order. */
  function Hallados(os: seq<Option<Entrelazamiento>>): (r: seq<Entrelazamiento>)
    ensures |r| <= |os|
    ensures forall e :: e in r <==> Some(e) in os
  {
    if |os| == 0 then []
    else
      var init := os[..|os| - 1];
      var resto := Hallados(init);
      assert forall o :: o in os <==> o in init || o == os[|os| - 1];
      match os[|os| - 1]
      case Some(e) => resto + [e]
      case None => resto
  }

  /** The analysis of each listed pair by `analizar`. */
  function AnalisisPares(ds: seq<Dominio>, ps: seq<(nat, nat)>, analizar: (Dominio, Dominio) -> Option<Entrelazamiento>)
    : (r: seq<Option<Entrelazamiento>>)
    requires forall k :: 0 <= k < |ps| ==> ps[k].0 < |ds| && ps[k].1 < |ds|
    ensures |r| == |ps|
    ensures forall k :: 0 <= k < |ps| ==> r[k] == analizar(ds[ps[k].0], ds[ps[k].1])
  {
    seq(|ps|, k requires 0 <= k < |ps| => analizar(ds[ps[k].0], ds[ps[k].1]))
  }

  /** Every pair `i < j` of domains analysed by `analizar`, in order, kept
      when significant. */
  function Detectar(ds: seq<Dominio>, analizar: (Dominio, Dominio) -> Option<Entrelazamiento>): (r: seq<Entrelazamiento>)
    ensures |r| <= |Pares(0, |ds|)|
  {
    ParesMiembros(0, |ds|);
    Hallados(AnalisisPares(ds, Pares(0, |ds|), analizar))
  }

  /** `detectar_entrelazamientos` as written: each pair is analysed once,
      with its domains in list order. */
  function DetectarEntrelazamientos(ds: seq<Dominio>): (r: seq<Entrelazamiento>)
    ensures |r| <= |Pares(0, |ds|)|
  {
    Detectar(ds, AnalizarParEscrito)
  }

  /** The same search with the sequence rule read in both directions. */
  function DetectarCorregido(ds: seq<Dominio>): (r: seq<Entrelazamiento>)
    ensures |r| <= |Pares(0, |ds|)|
  {
    Detectar(ds, AnalizarPar)
  }

  /** As written, an entanglement is found for a pair `i < j` exactly when
      the pair is significant in list order, and everything found comes
      from such a pair. */
  lemma DetectarSpec(ds: seq<Dominio>)
    ensures forall i, j :: 0 <= i < j < |ds| && AnalizarParEscrito(ds[i], ds[j]).Some? ==>
      AnalizarParEscrito(ds[i], ds[j]).value in DetectarEntrelazamientos(ds)
    ensures forall e :: e in DetectarEntrelazamientos(ds) ==>
      exists i, j :: 0 <= i < j < |ds| && AnalizarParEscrito(ds[i], ds[j]) == Some(e)
  {
    DetectarCompleto(ds, AnalizarParEscrito);
    DetectarCorrecto(ds, AnalizarParEscrito);
  }

  /** With the corrected pair analysis, likewise. */
  lemma DetectarCorregidoSpec(ds: seq<Dominio>)
    ensures forall i, j :: 0 <= i < j < |ds| && AnalizarPar(ds[i], ds[j]).Some? ==>
      AnalizarPar(ds[i], ds[j]).value in DetectarCorregido(ds)
    ensures forall e :: e in DetectarCorregido(ds) ==>
      exists i, j :: 0 <= i < j < |ds| && AnalizarPar(ds[i], ds[j]) == Some(e)
  {
    DetectarCompleto(ds, AnalizarPar);
    DetectarCorrecto(ds, AnalizarPar);
  }

  lemma DetectarCompleto(ds: seq<Dominio>, analizar: (Dominio, Dominio) -> Option<Entrelazamiento>)
    ensures forall i, j :: 0 <= i < j < |ds| && analizar(ds[i], ds[j]).Some? ==>
      analizar(ds[i], ds[j]).value in Detectar(ds, analizar)
  {
    forall i, j | 0 <= i < j < |ds| && analizar(ds[i], ds[j]).Some?
      ensures analizar(ds[i], ds[j]).value in Detectar(ds, analizar)
    {
      DetectarPar(ds, analizar, i, j);
    }
  }

  lemma DetectarCorrecto(ds: seq<Dominio>, analizar: (Dominio, Dominio) -> Option<Entrelazamiento>)
    ensures forall e :: e in Detectar(ds, analizar) ==>
      exists i, j :: 0 <= i < j < |ds| && analizar(ds[i], ds[j]) == Some(e)
  {
    forall e | e in Detectar(ds, analizar)
      ensures exists i, j :: 0 <= i < j < |ds| && analizar(ds[i], ds[j]) == Some(e)
    {
      var i, j := DetectarOrigen(ds, analizar, e);
    }
  }

  /** Everything found comes from a pair `i < j`. */
  lemma DetectarOrigen(ds: seq<Dominio>, analizar: (Dominio, Dominio) -> Option<Entrelazamiento>, e: Entrelazamiento)
    returns (i: nat, j: nat)
    requires e in Detectar(ds, analizar)
    ensures i < j < |ds| && analizar(ds[i], ds[j]) == Some(e)
  {
    var ps := Pares(0, |ds|);
    ParesMiembros(0, |ds|);
    var os := AnalisisPares(ds, ps, analizar);
    assert Some(e) in os;
    var k := PosicionDe(ds, ps, analizar, os, e);
    assert ps[k] in ps;
    i, j := ps[k].0, ps[k].1;
  }

  /** The pair whose analysis produced a given entanglement. */
  lemma PosicionDe(ds: seq<Dominio>, ps: seq<(nat, nat)>, analizar: (Dominio, Dominio) -> Option<Entrelazamiento>,
                   os: seq<Option<Entrelazamiento>>, e: Entrelazamiento)
    returns (k: nat)
    requires forall k :: 0 <= k < |ps| ==> ps[k].0 < |ds| && ps[k].1 < |ds|
    requires os == AnalisisPares(ds, ps, analizar) && Some(e) in os
    ensures k < |ps| && ps[k].0 < |ds| && ps[k].1 < |ds|
    ensures analizar(ds[ps[k].0], ds[ps[k].1]) == Some(e)
  {
    k :| 0 <= k < |os| && os[k] == Some(e);
  }

  /** A significant pair `i < j` is found. */
  lemma DetectarPar(ds: seq<Dominio>, analizar: (Dominio, Dominio) -> Option<Entrelazamiento>, i: nat, j: nat)
    requires i < j < |ds| && analizar(ds[i], ds[j]).Some?
    ensures analizar(ds[i], ds[j]).value in Detectar(ds, analizar)
  {
    var ps := Pares(0, |ds|);
    ParesMiembros(0, |ds|);
    var os := AnalisisPares(ds, ps, analizar);
    assert (i, j) in ps;
    AnalisisDe(ds, ps, analizar, os, i, j);
  }

  /** The analysis of a visited pair is among the analyses. */
  lemma AnalisisDe(ds: seq<Dominio>, ps: seq<(nat, nat)>, analizar: (Dominio, Dominio) -> Option<Entrelazamiento>,
                   os: seq<Option<Entrelazamiento>>, i: nat, j: nat)
    requires forall k :: 0 <= k < |ps| ==> ps[k].0 < |ds| && ps[k].1 < |ds|
    requires os == AnalisisPares(ds, ps, analizar) && (i, j) in ps
    ensures i < |ds| && j < |ds| && analizar(ds[i], ds[j]) in os
  {
    var k :| 0 <= k < |ps| && ps[k] == (i, j);
    assert os[k] in os;
  }

  /** With the principal domains in their declared order, money comes
      after body and knowledge after money, so as written the dependencies
      money-before-body and knowledge-before-money are never asked for:
      with both domains in balance and urgent enough, the pair is reported
      as support instead of a sequence. */
  lemma SecuenciaEscritaPerdida()
    ensures var fin := Dominio(Financiero, Equilibrio, 0.5, 0.5, [], []);
      var con := Dominio(Conocimiento, Equilibrio, 0.5, 0.5, [], []);
      && Depende(con.nombre, fin.nombre)
      && AnalizarParEscrito(fin, con) == Some(Entrelazamiento([Financiero, Conocimiento], Apoyo, 0.5))
      && AnalizarPar(fin, con) == Some(Entrelazamiento([Conocimiento, Financiero], Secuencia, 0.5))
  {
  }

  predicate NombresDistintos(ds: seq<Dominio>) {
    forall i, j :: 0 <= i < j < |ds| ==> ds[i].nombre != ds[j].nombre
  }

  /** As written, a pair is named in the order it was asked, and a
      sequence runs from the first domain asked to the second. */
  lemma FormaEscrita(d1: Dominio, d2: Dominio)
    ensures AnalizarParEscrito(d1, d2).Some? ==>
      && AnalizarParEscrito(d1, d2).value.dominios == [d1.nombre, d2.nombre]
      && (AnalizarParEscrito(d1, d2).value.tipo == Secuencia ==> Depende(d1.nombre, d2.nombre))
  {
  }

  /** As written, everything found names its pair in list order, and a
      sequence found runs from the earlier domain of the list to the later
      one. */
  lemma SecuenciasEscritasAdelante(ds: seq<Dominio>, e: Entrelazamiento) returns (i: nat, j: nat)
    requires e in DetectarEntrelazamientos(ds)
    ensures i < j < |ds| && e.dominios == [ds[i].nombre, ds[j].nombre]
    ensures e.tipo == Secuencia ==> Depende(ds[i].nombre, ds[j].nombre)
  {
    i, j := DetectarOrigen(ds, AnalizarParEscrito, e);
    FormaEscrita(ds[i], ds[j]);
  }

  /** As written, a dependency whose first domain comes LATER in a list of
      distinct domains is never reported: nothing found names that pair in
      the direction of the dependency. */
  lemma SecuenciaInversaPerdida(ds: seq<Dominio>, i: nat, j: nat)
    requires NombresDistintos(ds) && j < i < |ds|
    ensures forall e :: e in DetectarEntrelazamientos(ds) ==> e.dominios != [ds[i].nombre, ds[j].nombre]
  {
    forall e | e in DetectarEntrelazamientos(ds)
      ensures e.dominios != [ds[i].nombre, ds[j].nombre]
    {
      var a, b := SecuenciasEscritasAdelante(ds, e);
      if a == i {
        assert ds[j].nombre != ds[b].nombre;
        assert e.dominios[1] != ds[j].nombre;
      } else if a < i {
        assert ds[a].nombre != ds[i].nombre;
        assert e.dominios[0] != ds[i].nombre;
      } else {
        assert ds[i].nombre != ds[a].nombre;
        assert e.dominios[0] != ds[i].nombre;
      }
    }
  }

  /** As written, a dependency whose first domain comes EARLIER in the
      list is reported as a sequence whenever neither synergy nor conflict
      takes precedence and the urgency exceeds 0.3. */
  lemma DependenciasAdelante(ds: seq<Dominio>, i: nat, j: nat)
    requires i < j < |ds|
    requires Depende(ds[i].nombre, ds[j].nombre)
    requires !Opuestos(ds[i], ds[j]) && !(ds[i].estado == Expansion && ds[j].estado == Expansion)
    requires Max(ds[i].urgencia, ds[j].urgencia) > 0.3
    ensures Entrelazamiento([ds[i].nombre, ds[j].nombre], Secuencia, Max(ds[i].urgencia, ds[j].urgencia))
      in DetectarEntrelazamientos(ds)
  {
    assert AnalizarParEscrito(ds[i], ds[j]).Some?;
    DetectarPar(ds, AnalizarParEscrito, i, j);
  }

  /** With the corrected analysis, every declared dependency between two
      domains of the list is reported as a sequence, in its own direction,
      whenever neither synergy nor conflict takes precedence and the
      urgency exceeds 0.3. */
  lemma DependenciasAlcanzables(ds: seq<Dominio>, i: nat, j: nat)
    requires i < |ds| && j < |ds| && i != j
    requires Depende(ds[i].nombre, ds[j].nombre)
    requires !Opuestos(ds[i], ds[j]) && !(ds[i].estado == Expansion && ds[j].estado == Expansion)
    requires Max(ds[i].urgencia, ds[j].urgencia) > 0.3
    ensures Entrelazamiento([ds[i].nombre, ds[j].nombre], Secuencia, Max(ds[i].urgencia, ds[j].urgencia))
      in DetectarCorregido(ds)
  {
    if i < j {
      assert AnalizarPar(ds[i], ds[j]).Some?;
      DetectarPar(ds, AnalizarPar, i, j);
    } else {
      assert !Depende(ds[j].nombre, ds[i].nombre);
      assert Max(ds[j].urgencia, ds[i].urgencia) == Max(ds[i].urgencia, ds[j].urgencia);
      assert AnalizarPar(ds[j], ds[i]).Some?;
      DetectarPar(ds, AnalizarPar, j, i);
    }
  }

  // ---------------------------------------------------------------------------
  // Coordinated actions
  // ---------------------------------------------------------------------------

  datatype AccionCoordinada = AccionCoordinada(origen: Tipo, dominios: seq<string>, secuencia: seq<string>,
                                               recursos: seq<string>, urgencia: real, impacto: real)

  function Buscar(ds: seq<Dominio>, nombre: string): (r: Option<Dominio>)
    ensures r.Some? <==> exists k :: 0 <= k < |ds| && ds[k].nombre == nombre
    ensures r.Some? ==> r.value.nombre == nombre && r.value in ds
  {
    if |ds| == 0 then None
    else if ds[0].nombre == nombre then Some(ds[0])
    else
      var r := Buscar(ds[1..], nombre);
      assert forall k :: 1 <= k < |ds| ==> ds[k] == ds[1..][k - 1];
      r
  }

  /** The entanglements the actions read name two domains of the list. */
  predicate Nombrados(ds: seq<Dominio>, es: seq<Entrelazamiento>) {
    forall k :: 0 <= k < |es| ==>
      |es[k].dominios| == 2 && Buscar(ds, es[k].dominios[0]).Some? && Buscar(ds, es[k].dominios[1]).Some?
  }

  /** `_crear_accion_sinergia`: none below intensity 0.6; otherwise the
      pooled resources of both domains without repeats, urgency the
      intensity and systemic impact 1.2 times it. */
  function AccionSinergia(ds: seq<Dominio>, e: Entrelazamiento): (r: Option<AccionCoordinada>)
    requires |e.dominios| == 2 && Buscar(ds, e.dominios[0]).Some? && Buscar(ds, e.dominios[1]).Some?
    ensures r.Some? <==> e.intensidad >= 0.6
    ensures r.Some? ==> r.value.urgencia == e.intensidad && r.value.impacto == e.intensidad * 1.2
    ensures r.Some? ==> forall x :: x in r.value.recursos <==>
      x in Buscar(ds, e.dominios[0]).value.recursos || x in Buscar(ds, e.dominios[1]).value.recursos
  {
    if e.intensidad < 0.6 then None
    else
      var d1, d2 := Buscar(ds, e.dominios[0]).value, Buscar(ds, e.dominios[1]).value;
      var pool := d1.recursos + d2.recursos;
      var recursos := Seqs.Dedup(pool);
      assert forall x :: x in pool <==> x in d1.recursos || x in d2.recursos;
      assert forall x :: x in recursos ==> x in pool;
      assert forall x :: x in pool ==> x in recursos;
      Some(AccionCoordinada(Sinergia, e.dominios, e.dominios, recursos, e.intensidad, e.intensidad * 1.2))
  }

  /** `_crear_accion_resolucion_conflicto`: none below intensity 0.4;
      otherwise the fixed balancing order, urgency the intensity and
      impact 0.8 times it. */
  function AccionConflicto(e: Entrelazamiento): (r: Option<AccionCoordinada>)
    ensures r.Some? <==> e.intensidad >= 0.4
    ensures r.Some? ==> r.value.urgencia == e.intensidad && r.value.impacto == e.intensidad * 0.8
  {
    if e.intensidad < 0.4 then None
    else
      Some(AccionCoordinada(Conflicto, e.dominios, OrdenEquilibrio,
                            RecursosConflicto, e.intensidad, e.intensidad * 0.8))
  }

  /** `_crear_accion_secuencia`: always an action following the pair's
      order, urgency 0.7 times the intensity. */
  function AccionSecuencia(e: Entrelazamiento): (a: AccionCoordinada)
    ensures a.secuencia == e.dominios && a.urgencia == e.intensidad * 0.7 && a.impacto == e.intensidad
  {
    AccionCoordinada(Secuencia, e.dominios, e.dominios, RecursosSecuencia, e.intensidad * 0.7, e.intensidad)
  }

  /** The synergy actions, in order. */
  function AccionesSinergia(ds: seq<Dominio>, es: seq<Entrelazamiento>): (r: seq<AccionCoordinada>)
    requires Nombrados(ds, es)
    ensures forall x :: x in r ==> x.origen == Sinergia && x.urgencia >= 0.6
  {
    if |es| == 0 then []
    else
      var init := es[..|es| - 1];
      assert forall k :: 0 <= k < |init| ==> init[k] == es[k];
      var resto := AccionesSinergia(ds, init);
      var e := es[|es| - 1];
      if e.tipo != Sinergia then resto
      else
        match AccionSinergia(ds, e)
        case Some(x) => resto + [x]
        case None => resto
  }

  /** The conflict actions, in order. */
  function AccionesConflicto(es: seq<Entrelazamiento>): (r: seq<AccionCoordinada>)
    ensures forall x :: x in r ==> x.origen == Conflicto && x.urgencia >= 0.4
  {
    if |es| == 0 then []
    else
      var resto := AccionesConflicto(es[..|es| - 1]);
      var e := es[|es| - 1];
      if e.tipo != Conflicto then resto
      else
        match AccionConflicto(e)
        case Some(x) => resto + [x]
        case None => resto
  }

  /** One action for every sequence, in order. */
  function AccionesSecuencia(es: seq<Entrelazamiento>): (r: seq<AccionCoordinada>)
    ensures forall x :: x in r ==> x.origen == Secuencia
    ensures |r| == Seqs.CountIf(es, EsDeTipo(Secuencia))
  {
    if |es| == 0 then []
    else
      var e := es[0];
      var resto := AccionesSecuencia(es[1..]);
      if e.tipo != Secuencia then resto else [AccionSecuencia(e)] + resto
  }

  function EsDeTipo(t: Tipo): Entrelazamiento -> bool {
    (e: Entrelazamiento) => e.tipo == t
  }

  /** `generar_acciones_coordinadas`: the synergy actions, then the
      conflict ones, then one for every sequence. */
  function GenerarAccionesCoordinadas(ds: seq<Dominio>, es: seq<Entrelazamiento>): (r: seq<AccionCoordinada>)
    requires Nombrados(ds, es)
    ensures forall x :: x in r && x.origen == Sinergia ==> x.urgencia >= 0.6
    ensures forall x :: x in r && x.origen == Conflicto ==> x.urgencia >= 0.4
  {
    AccionesSinergia(ds, es) + AccionesConflicto(es) + AccionesSecuencia(es)
  }

  /** Every sequence yields an action: the number of sequence actions is
      the number of sequences. */
  lemma SecuenciasCompletas(ds: seq<Dominio>, es: seq<Entrelazamiento>)
    requires Nombrados(ds, es)
    ensures var r := GenerarAccionesCoordinadas(ds, es);
      Seqs.CountIf(r, EsOrigen(Secuencia)) == Seqs.CountIf(es, EsDeTipo(Secuencia))
  {
    var a, b, c := AccionesSinergia(ds, es), AccionesConflicto(es), AccionesSecuencia(es);
    NingunoDeOrigen(a, Secuencia);
    NingunoDeOrigen(b, Secuencia);
    TodosDeOrigen(c, Secuencia);
    CountIfAppend(a, b, EsOrigen(Secuencia));
    CountIfAppend(a + b, c, EsOrigen(Secuencia));
  }

  function EsOrigen(t: Tipo): AccionCoordinada -> bool {
    (a: AccionCoordinada) => a.origen == t
  }

  lemma {:induction false} NingunoDeOrigen(r: seq<AccionCoordinada>, t: Tipo)
    requires forall x :: x in r ==> x.origen != t
    ensures Seqs.CountIf(r, EsOrigen(t)) == 0
    decreases |r|
  {
    if |r| > 0 {
      NingunoDeOrigen(r[1..], t);
    }
  }

  lemma {:induction false} TodosDeOrigen(r: seq<AccionCoordinada>, t: Tipo)
    requires forall x :: x in r ==> x.origen == t
    ensures Seqs.CountIf(r, EsOrigen(t)) == |r|
    decreases |r|
  {
    if |r| > 0 {
      TodosDeOrigen(r[1..], t);
    }
  }

  lemma {:induction false} CountIfAppend<T>(a: seq<T>, b: seq<T>, p: T -> bool)
    ensures Seqs.CountIf(a + b, p) == Seqs.CountIf(a, p) + Seqs.CountIf(b, p)
    decreases |a|
  {
    if |a| == 0 {
      assert a + b == b;
    } else {
      assert (a + b)[1..] == a[1..] + b;
      CountIfAppend(a[1..], b, p);
    }
  }
}

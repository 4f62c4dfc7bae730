/** The emotional layer (`EstadoEmocional`, layer 5): a basic emotion with an
    intensity from 1 to 5, the activity and attention flags derived from it,
    its one-line synthesis, and the trend the tracker reads off the last
    three recorded intensities.

    The tracker's JSON file is left out; its history is a sequence of
    records with timestamps in seconds.
 */
module Emotion {

  import opened Wrappers
  import Text
  import Seqs

  datatype Tipo =
    | Calma | Ansioso | Entusiasmado | Apagado | Neutro
    | Triste | Irritado | Alegre | Abrumado | Conectado

  datatype Tendencia = Mejorando | Empeorando | Estable | Oscilante

  /** The validated intensity range. */
  type Intensidad = i: int | 1 <= i <= 5 witness 1

  datatype EstadoEmocional = EstadoEmocional(estado: Tipo, intensidad: Intensidad, tendencia: Tendencia)

  /** Construction through the validating model: an intensity outside 1..5
      is rejected; the trend defaults to `estable`. */
  function Crear(estado: Tipo, intensidad: int): (r: Result<EstadoEmocional, string>)
    ensures r.Ok? <==> 1 <= intensidad <= 5
    ensures r.Ok? ==> r.value.estado == estado && r.value.intensidad == intensidad && r.value.tendencia == Estable
  {
    if 1 <= intensidad <= 5 then Ok(EstadoEmocional(estado, intensidad, Estable))
    else Err("intensidad fuera de rango")
  }

  predicate Polarizado(t: Tipo) {
    t == Ansioso || t == Entusiasmado || t == Abrumado || t == Irritado
  }

  predicate Critico(t: Tipo) {
    t == Abrumado || t == Ansioso
  }

  /** `esta_activo`. */
  predicate EstaActivo(e: EstadoEmocional) {
    e.intensidad >= 4 || Polarizado(e.estado)
  }

  /** `necesita_atencion`. */
  predicate NecesitaAtencion(e: EstadoEmocional) {
    Critico(e.estado) && e.intensidad >= 4
  }

  /** Every state that needs attention is active; the converse fails for a
      mild anxiety, which is active without needing attention. */
  lemma AttentionImpliesActive(e: EstadoEmocional)
    ensures NecesitaAtencion(e) ==> EstaActivo(e)
    ensures EstaActivo(EstadoEmocional(Ansioso, 1, e.tendencia))
    ensures !NecesitaAtencion(EstadoEmocional(Ansioso, 1, e.tendencia))
  {
  }

  /** A calm state is active only when intense, and never needs attention. */
  lemma CalmOnlyByIntensity(e: EstadoEmocional)
    requires !Polarizado(e.estado)
    ensures EstaActivo(e) <==> e.intensidad >= 4
    ensures !NecesitaAtencion(e)
  {
  }

  // ---------------------------------------------------------------------------
  // Synthesis
  // ---------------------------------------------------------------------------

  /** The enum's value string. */
  function TipoTexto(t: Tipo): (s: string)
    ensures |s| > 0 && ' ' !in s
  {
    match t
    case Calma => "calma"
    case Ansioso => "ansioso"
    case Entusiasmado => "entusiasmado"
    case Apagado => "apagado"
    case Neutro => "neutro"
    case Triste => "triste"
    case Irritado => "irritado"
    case Alegre => "alegre"
    case Abrumado => "abrumado"
    case Conectado => "conectado"
  }

  function TendenciaTexto(t: Tendencia): string {
    match t
    case Mejorando => "mejorando"
    case Empeorando => "empeorando"
    case Estable => "estable"
    case Oscilante => "oscilante"
  }

  lemma TipoTextoInjective(a: Tipo, b: Tipo)
    ensures TipoTexto(a) == TipoTexto(b) ==> a == b
  {
  }

  lemma TendenciaTextoInjective(a: Tendencia, b: Tendencia)
    ensures TendenciaTexto(a) == TendenciaTexto(b) ==> a == b
  {
  }

  /** What follows the emotion's name in the synthesis. */
  function Resto(intensidad: Intensidad, t: Tendencia): (r: string)
    ensures |r| == 19 + |TendenciaTexto(t)| && r[0] == ' '
  {
    " (intensidad " + [Text.DigitChar(intensidad as nat)] + "/5, " + TendenciaTexto(t) + ")"
  }

  /** The digit sits at a fixed position and the trend fills the rest up to
      the closing parenthesis, so both can be read back. */
  lemma RestoInjective(i1: Intensidad, t1: Tendencia, i2: Intensidad, t2: Tendencia)
    requires Resto(i1, t1) == Resto(i2, t2)
    ensures i1 == i2 && t1 == t2
  {
    var r1, r2 := Resto(i1, t1), Resto(i2, t2);
    assert r1[13] == Text.DigitChar(i1 as nat);
    assert r2[13] == Text.DigitChar(i2 as nat);
    assert r1[18..|r1| - 1] == TendenciaTexto(t1);
    assert r2[18..|r2| - 1] == TendenciaTexto(t2);
    TendenciaTextoInjective(t1, t2);
  }

  /** `generar_sintesis`: `"<estado> (intensidad <n>/5, <tendencia>)"`. */
  function Sintesis(e: EstadoEmocional): (r: string)
    ensures |r| == |TipoTexto(e.estado)| + 19 + |TendenciaTexto(e.tendencia)|
    ensures r[..|TipoTexto(e.estado)|] == TipoTexto(e.estado)
    ensures r[|TipoTexto(e.estado)|..|TipoTexto(e.estado)| + 13] == " (intensidad "
    ensures r[|TipoTexto(e.estado)| + 13] == Text.DigitChar(e.intensidad as nat)
    ensures r[|r| - 1] == ')'
  {
    TipoTexto(e.estado) + Resto(e.intensidad, e.tendencia)
  }

  /** The synthesis loses nothing: two states with the same text have the
      same emotion, intensity and trend. The emotion ends at the first
      space, the intensity is the single digit after it, and the trend is
      what remains before the closing parenthesis. */
  lemma SintesisInjective(a: EstadoEmocional, b: EstadoEmocional)
    requires Sintesis(a) == Sintesis(b)
    ensures a == b
  {
    var na, nb := TipoTexto(a.estado), TipoTexto(b.estado);
    var ra, rb := Resto(a.intensidad, a.tendencia), Resto(b.intensidad, b.tendencia);
    Text.IndexOfCharAfter(na, ra, ' ');
    Text.IndexOfCharAfter(nb, rb, ' ');
    assert na == nb;
    TipoTextoInjective(a.estado, b.estado);
    assert ra == Sintesis(a)[|na|..] == rb;
    RestoInjective(a.intensidad, a.tendencia, b.intensidad, b.tendencia);
  }

  // ---------------------------------------------------------------------------
  // Trend
  // ---------------------------------------------------------------------------

  datatype Registro = Registro(t: int, intensidad: int)

  /** The records of the last `dias` days before `ahora` (seconds). */
  function Recientes(historico: seq<Registro>, ahora: int, dias: int): (r: seq<Registro>)
    ensures |r| <= |historico|
    ensures forall i :: 0 <= i < |r| ==> r[i] in historico && r[i].t >= ahora - dias * 86400
    ensures forall i :: 0 <= i < |historico| && historico[i].t >= ahora - dias * 86400 ==> historico[i] in r
    ensures Seqs.Subsequence(r, historico)
    ensures forall h {:trigger Seqs.Count(r, h)} :: Seqs.Count(r, h) == if h.t >= ahora - dias * 86400 then Seqs.Count(historico, h) else 0
  {
    Seqs.FilterOrder(historico, Desde(ahora - dias * 86400));
    Seqs.Filter(historico, Desde(ahora - dias * 86400))
  }

  /** A record added at the end of the history is the last recent record
      when it falls in the window: the trend reads records in history order. */
  lemma RecientesAlFinal(historico: seq<Registro>, h: Registro, ahora: int, dias: int)
    ensures Recientes(historico + [h], ahora, dias) ==
      Recientes(historico, ahora, dias) + (if h.t >= ahora - dias * 86400 then [h] else [])
  {
    Seqs.FilterSnoc(historico, h, Desde(ahora - dias * 86400));
  }

  function Desde(limite: int): Registro -> bool {
    (h: Registro) => h.t >= limite
  }

  /** The trend rule on the intensities of the last three records. */
  function TendenciaDe(xs: seq<int>): (r: Tendencia)
    ensures |xs| < 3 ==> r == Estable
    ensures |xs| >= 3 ==>
      var a, b, c := xs[|xs| - 3], xs[|xs| - 2], xs[|xs| - 1];
      (r == Mejorando <==> c > a + 1)
      && (r == Empeorando <==> c < a - 1)
      && (r == Oscilante <==> (a - 1 <= c <= a + 1 && Max3(a, b, c) - Min3(a, b, c) >= 2))
  {
    if |xs| < 3 then Estable
    else
      var a, b, c := xs[|xs| - 3], xs[|xs| - 2], xs[|xs| - 1];
      if c > a + 1 then Mejorando
      else if c < a - 1 then Empeorando
      else if Max3(a, b, c) - Min3(a, b, c) >= 2 then Oscilante
      else Estable
  }

  function Max3(a: int, b: int, c: int): (m: int)
    ensures m >= a && m >= b && m >= c && (m == a || m == b || m == c)
  {
    if a >= b && a >= c then a else if b >= c then b else c
  }

  function Min3(a: int, b: int, c: int): (m: int)
    ensures m <= a && m <= b && m <= c && (m == a || m == b || m == c)
  {
    if a <= b && a <= c then a else if b <= c then b else c
  }

  function Intensidades(hs: seq<Registro>): (r: seq<int>)
    ensures |r| == |hs|
    ensures forall i :: 0 <= i < |hs| ==> r[i] == hs[i].intensidad
  {
    if |hs| == 0 then [] else [hs[0].intensidad] + Intensidades(hs[1..])
  }

  /** `detectar_tendencia`: the trend of the records of the last two days,
      read from the first and last of the three latest of them. */
  function DetectarTendencia(historico: seq<Registro>, ahora: int): (r: Tendencia)
    ensures var rs := Recientes(historico, ahora, 2);
      && (|rs| < 3 ==> r == Estable)
      && (|rs| >= 3 ==>
            && (r == Mejorando <==> rs[|rs| - 1].intensidad > rs[|rs| - 3].intensidad + 1)
            && (r == Empeorando <==> rs[|rs| - 1].intensidad < rs[|rs| - 3].intensidad - 1))
  {
    TendenciaDe(Intensidades(Recientes(historico, ahora, 2)))
  }

  /** Only the last three intensities matter: older ones never change the
      trend once three are present. */
  lemma TrendIgnoresOlder(older: seq<int>, xs: seq<int>)
    requires |xs| >= 3
    ensures TendenciaDe(older + xs) == TendenciaDe(xs)
  {
    var s := older + xs;
    assert s[|s| - 3] == xs[|xs| - 3];
    assert s[|s| - 2] == xs[|xs| - 2];
    assert s[|s| - 1] == xs[|xs| - 1];
  }

  /** Reading the three intensities in the opposite order turns an
      improvement into a worsening and back, and keeps oscillation and
      stability. */
  lemma TrendReversal(a: int, b: int, c: int)
    ensures TendenciaDe([a, b, c]) == Mejorando <==> TendenciaDe([c, b, a]) == Empeorando
    ensures TendenciaDe([a, b, c]) == Oscilante <==> TendenciaDe([c, b, a]) == Oscilante
    ensures TendenciaDe([a, b, c]) == Estable <==> TendenciaDe([c, b, a]) == Estable
  {
  }

  /** Within the validated scale an oscillation needs a middle value at an
      extreme two apart from an end, and a constant history is stable. */
  lemma TrendOscillationShape(a: int, b: int, c: int)
    ensures TendenciaDe([a, b, c]) == Oscilante ==> (b - a >= 2 || a - b >= 2 || b - c >= 2 || c - b >= 2)
    ensures TendenciaDe([a, a, a]) == Estable
  {
  }
}

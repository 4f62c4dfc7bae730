/** The day's context summary (`SumarioContexto`): the energy pattern read
    off the day's Estado Cero fragments, and the estimate of how many tokens
    the summarised context takes.

    A fragment keeps its direction and, for each key answer, the sensation
    it recorded and its text as printed. The compression of the fragments by
    a language model is outside the model; its result is an input.
 */
module ContextSummary {

  import Arith
  import Seqs
  import Text

  datatype Respuesta = Respuesta(sensacion: string, texto: string)

  datatype Fragmento = Fragmento(direccion: string, respuestas: seq<Respuesta>)

  datatype Patron = Estable | Ascendente | Descendente | Irregular

  // ---------------------------------------------------------------------------
  // Scores
  // ---------------------------------------------------------------------------

  function EsExpansion(): Respuesta -> bool {
    (r: Respuesta) => r.sensacion == "expansion"
  }

  /** The share of a fragment's answers that felt like expansion, dividing
      by 1 when it has none. */
  function ScoreFragmento(f: Fragmento): (s: real)
    ensures 0.0 <= s <= 1.0
    ensures |f.respuestas| == 0 ==> s == 0.0
  {
    var total := if |f.respuestas| > 0 then |f.respuestas| else 1;
    Arith.Fraction(Seqs.CountIf(f.respuestas, EsExpansion()), total)
  }

  function Scores(fs: seq<Fragmento>): (s: seq<real>)
    ensures |s| == |fs|
    ensures forall i :: 0 <= i < |s| ==> s[i] == ScoreFragmento(fs[i])
  {
    seq(|fs|, i requires 0 <= i < |fs| => ScoreFragmento(fs[i]))
  }

  // ---------------------------------------------------------------------------
  // Range of the scores
  // ---------------------------------------------------------------------------

  function Maximo(xs: seq<real>): (m: real)
    requires |xs| > 0
    ensures m in xs
    ensures forall i :: 0 <= i < |xs| ==> xs[i] <= m
  {
    if |xs| == 1 then xs[0]
    else
      var r := Maximo(xs[1..]);
      assert r in xs;
      if xs[0] >= r then xs[0] else r
  }

  function Minimo(xs: seq<real>): (m: real)
    requires |xs| > 0
    ensures m in xs
    ensures forall i :: 0 <= i < |xs| ==> m <= xs[i]
  {
    if |xs| == 1 then xs[0]
    else
      var r := Minimo(xs[1..]);
      assert r in xs;
      if xs[0] <= r then xs[0] else r
  }

  // ---------------------------------------------------------------------------
  // Energy pattern
  // ---------------------------------------------------------------------------

  /** Mean of the second half minus mean of the first, the first half
      holding `n // 2` scores and the second the rest. */
  function Diferencia(s: seq<real>): real
    requires |s| >= 2
  {
    var h := |s| / 2;
    Seqs.Mean(s[h..]) - Seqs.Mean(s[..h])
  }

  /** The pattern of a list of scores: with fewer than three it is stable;
      otherwise rising or falling when the halves differ by more than 0.2,
      else irregular when the scores spread over more than 0.4, else
      stable. */
  function PatronDe(s: seq<real>): (p: Patron)
    ensures |s| < 3 ==> p == Estable
    ensures p == Ascendente <==> |s| >= 3 && Diferencia(s) > 0.2
    ensures p == Descendente <==> |s| >= 3 && Diferencia(s) < -0.2
    ensures p == Irregular <==>
      |s| >= 3 && -0.2 <= Diferencia(s) <= 0.2 && Maximo(s) - Minimo(s) > 0.4
  {
    if |s| < 3 then Estable
    else
      var dif := Diferencia(s);
      if dif > 0.2 then Ascendente
      else if dif < -0.2 then Descendente
      else if Maximo(s) - Minimo(s) > 0.4 then Irregular
      else Estable
  }

  /** `_detectar_patron_energia`: the pattern of the fragments' scores;
      fewer than two fragments are stable before any score is computed. */
  function DetectarPatronEnergia(fs: seq<Fragmento>): (p: Patron)
    ensures |fs| < 3 ==> p == Estable
    ensures |fs| >= 3 ==> p == PatronDe(Scores(fs))
  {
    if |fs| < 2 then Estable else PatronDe(Scores(fs))
  }

  /** A day whose fragments all score the same is stable, however many
      there are. */
  lemma ConstanteEstable(s: seq<real>, c: real)
    requires forall i :: 0 <= i < |s| ==> s[i] == c
    ensures PatronDe(s) == Estable
  {
    if |s| >= 3 {
      var h := |s| / 2;
      MediaConstante(s[h..], c);
      MediaConstante(s[..h], c);
      assert Diferencia(s) == 0.0;
      assert Maximo(s) == c && Minimo(s) == c;
    }
  }

  lemma MediaConstante(s: seq<real>, c: real)
    requires |s| > 0
    requires forall i :: 0 <= i < |s| ==> s[i] == c
    ensures Seqs.Mean(s) == c
  {
    Seqs.MeanBounds(s, c, c);
  }

  /** With the scores in [0, 1] the halves differ by at most 1. */
  lemma DiferenciaAcotada(s: seq<real>)
    requires |s| >= 2
    requires forall i :: 0 <= i < |s| ==> 0.0 <= s[i] <= 1.0
    ensures -1.0 <= Diferencia(s) <= 1.0
  {
    var h := |s| / 2;
    Seqs.MeanBounds(s[h..], 0.0, 1.0);
    Seqs.MeanBounds(s[..h], 0.0, 1.0);
  }

  // ---------------------------------------------------------------------------
  // Reading the day backwards
  // ---------------------------------------------------------------------------

  function Invertida(xs: seq<real>): (r: seq<real>)
    ensures |r| == |xs|
    ensures forall i :: 0 <= i < |xs| ==> r[i] == xs[|xs| - 1 - i]
  {
    seq(|xs|, i requires 0 <= i < |xs| => xs[|xs| - 1 - i])
  }

  lemma {:induction false} SumaInvertida(xs: seq<real>)
    ensures Seqs.SumReal(Invertida(xs)) == Seqs.SumReal(xs)
    decreases |xs|
  {
    if |xs| > 0 {
      var n := |xs|;
      var init := xs[..n - 1];
      assert Invertida(xs) == [xs[n - 1]] + Invertida(init);
      assert ([xs[n - 1]] + Invertida(init))[1..] == Invertida(init);
      SumaInvertida(init);
      assert xs == init + [xs[n - 1]];
      Seqs.SumRealAppend(init, [xs[n - 1]]);
      assert Seqs.SumReal([xs[n - 1]]) == xs[n - 1];
    }
  }

  lemma RangoInvertida(xs: seq<real>)
    requires |xs| > 0
    ensures Maximo(Invertida(xs)) == Maximo(xs)
    ensures Minimo(Invertida(xs)) == Minimo(xs)
  {
    var r, n := Invertida(xs), |xs|;
    forall i | 0 <= i < n
      ensures xs[i] in r
    {
      assert r[n - 1 - i] == xs[i];
    }
    forall i | 0 <= i < n
      ensures r[i] in xs
    {
      assert r[i] == xs[n - 1 - i];
    }
    MismosExtremos(xs, r);
    MismosExtremos(r, xs);
  }

  /** A list whose every element appears in another has no larger maximum
      and no smaller minimum. */
  lemma MismosExtremos(a: seq<real>, b: seq<real>)
    requires |a| > 0 && |b| > 0
    requires forall i :: 0 <= i < |a| ==> a[i] in b
    ensures Maximo(a) <= Maximo(b) && Minimo(b) <= Minimo(a)
  {
    var ma, mi := Maximo(a), Minimo(a);
    var k :| 0 <= k < |a| && a[k] == ma;
    var j :| 0 <= j < |b| && b[j] == a[k];
    var k' :| 0 <= k' < |a| && a[k'] == mi;
    var j' :| 0 <= j' < |b| && b[j'] == a[k'];
  }

  /** With an even number of fragments, reading the day backwards turns a
      rising day into a falling one and back, and leaves irregular and
      stable days as they are. (With an odd number the middle score belongs
      to the second half, so the halves do not swap.) */
  lemma InvertirPatron(s: seq<real>)
    requires |s| % 2 == 0
    ensures PatronDe(Invertida(s)) == Ascendente <==> PatronDe(s) == Descendente
    ensures PatronDe(Invertida(s)) == Descendente <==> PatronDe(s) == Ascendente
    ensures PatronDe(Invertida(s)) == Irregular <==> PatronDe(s) == Irregular
    ensures PatronDe(Invertida(s)) == Estable <==> PatronDe(s) == Estable
  {
    var r, n := Invertida(s), |s|;
    if n >= 3 {
      var h := n / 2;
      assert r[..h] == Invertida(s[h..]);
      assert r[h..] == Invertida(s[..h]);
      SumaInvertida(s[h..]);
      SumaInvertida(s[..h]);
      assert Diferencia(r) == -Diferencia(s);
      RangoInvertida(s);
    }
  }

  // ---------------------------------------------------------------------------
  // Token estimate
  // ---------------------------------------------------------------------------

  /** A summary value: a list, joined by spaces, or a single text. */
  datatype Valor = Varios(items: seq<string>) | Uno(texto: string)

  /** The compressed summary: a dictionary of values, or a bare list. */
  datatype Sumario = Diccionario(entradas: seq<(string, Valor)>) | Listado(items: seq<string>)

  function TextosRespuestas(rs: seq<Respuesta>): (r: seq<string>)
    ensures |r| == |rs|
    ensures forall i :: 0 <= i < |rs| ==> r[i] == rs[i].texto
  {
    seq(|rs|, i requires 0 <= i < |rs| => rs[i].texto)
  }

  /** Each fragment contributes its direction followed by its answers'
      texts joined by spaces. */
  function TextoFragmentos(fs: seq<Fragmento>): (t: string)
    ensures |fs| == 0 ==> t == ""
  {
    if |fs| == 0 then ""
    else
      var f := fs[|fs| - 1];
      TextoFragmentos(fs[..|fs| - 1]) + f.direccion + Text.Join(" ", TextosRespuestas(f.respuestas))
  }

  function TextoValor(v: Valor): string {
    match v
    case Varios(items) => Text.Join(" ", items)
    case Uno(t) => t
  }

  function TextoEntradas(es: seq<(string, Valor)>): string {
    if |es| == 0 then "" else TextoEntradas(es[..|es| - 1]) + TextoValor(es[|es| - 1].1)
  }

  function TextoSumario(s: Sumario): string {
    match s
    case Diccionario(es) => TextoEntradas(es)
    case Listado(items) => Text.Join(" ", items)
  }

  function TextoTotal(fs: seq<Fragmento>, s: Sumario): string {
    TextoFragmentos(fs) + TextoSumario(s)
  }

  /** `_estimar_tokens`: one token for every four characters of the whole
      text, rounded down. */
  function EstimarTokens(fs: seq<Fragmento>, s: Sumario): (t: nat)
    ensures 4 * t <= |TextoTotal(fs, s)| < 4 * t + 4
  {
    |TextoTotal(fs, s)| / 4
  }

  /** One more fragment never lowers the estimate. */
  lemma TokensMonotonos(fs: seq<Fragmento>, f: Fragmento, s: Sumario)
    ensures EstimarTokens(fs, s) <= EstimarTokens(fs + [f], s)
  {
    assert (fs + [f])[..|fs|] == fs;
    assert |TextoFragmentos(fs)| <= |TextoFragmentos(fs + [f])|;
  }

  /** With no fragment and an empty summary the estimate is zero, and every
      four characters of direction add one token. */
  lemma TokensDireccion(d: string, s: Sumario)
    requires |TextoSumario(s)| == 0
    ensures EstimarTokens([Fragmento(d, [])], s) == |d| / 4
  {
    assert [Fragmento(d, [])][..0] == [];
  }
}

/** The fixed binary questions of each liturgical moment
    (`PreguntaLiturgica`) and the per-domain activity computed from the
    answers.

    Each question asks between two poles; an affirmative answer stands for
    the second pole (expansion) and counts 1, a negative one counts 0.
 */
module LiturgicalQuestions {

  import opened Wrappers
  import Liturgy
  import Text
  import Seqs
  import Assoc
  import Arith

  datatype Pregunta = Pregunta(id: string, texto: string, dimension: string, polaridad: (string, string))

  /** The domains the questions are about. */
  const DimensionesPreguntas: seq<string> := ["biologico", "conocimiento", "espiritual", "financiero"]

  /** The id of the `i`-th question of a moment, counting from 0:
      the moment's value, an underscore and the position from 1. */
  function IdDe(m: Liturgy.Momento, i: nat): string
    requires i < 9
  {
    Liturgy.Nombre(m) + "_" + [Text.DigitChar(i + 1)]
  }

  /** The wording of the `i`-th question of a moment. */
  function Texto(m: Liturgy.Momento, i: nat): string {
    match m
    case Fajr =>
      if i == 0 then "¿Mi cuerpo despertó con energía o necesita más descanso?"
      else if i == 1 then "¿Mi mente amanece clara o nebulosa?"
      else "¿Mi espíritu siente gratitud o resistencia al nuevo día?"
    case Dhuhr =>
      if i == 0 then "¿Mi energía está en su punto alto o necesito recarga?"
      else if i == 1 then "¿Mis acciones fluyen hacia creación o hacia mantenimiento?"
      else "¿Mi concentración está dispersa o enfocada?"
    case Asr =>
      if i == 0 then "¿Mi cuerpo siente tensión o relajación?"
      else if i == 1 then "¿Mis recursos se sienten escasos o abundantes?"
      else "¿Mi propósito se siente difuso o nítido?"
    case Maghrib =>
      if i == 0 then "¿Mi cuerpo pide actividad o descanso?"
      else if i == 1 then "¿Mi día se siente completo o incompleto?"
      else "¿Mi balance hoy se inclina a dar o a recibir?"
    case Isha =>
      if i == 0 then "¿Mi cuerpo está listo para descansar o aún activo?"
      else if i == 1 then "¿Mi aprendizaje hoy fue pasivo o activo?"
      else "¿Mi corazón cierra el día en paz o inquietud?"
  }

  /** `PREGUNTAS_POR_MOMENTO`. */
  function Tabla(m: Liturgy.Momento): seq<Pregunta> {
    match m
    case Fajr => [
      Pregunta("fajr_1", Texto(m, 0), "biologico", ("descanso", "energia")),
      Pregunta("fajr_2", Texto(m, 1), "conocimiento", ("nebulosa", "clara")),
      Pregunta("fajr_3", Texto(m, 2), "espiritual", ("resistencia", "gratitud"))]
    case Dhuhr => [
      Pregunta("dhuhr_1", Texto(m, 0), "biologico", ("recarga", "punto_alto")),
      Pregunta("dhuhr_2", Texto(m, 1), "financiero", ("mantenimiento", "creacion")),
      Pregunta("dhuhr_3", Texto(m, 2), "conocimiento", ("dispersa", "enfocada"))]
    case Asr => [
      Pregunta("asr_1", Texto(m, 0), "biologico", ("tension", "relajacion")),
      Pregunta("asr_2", Texto(m, 1), "financiero", ("escasos", "abundantes")),
      Pregunta("asr_3", Texto(m, 2), "espiritual", ("difuso", "nitido"))]
    case Maghrib => [
      Pregunta("maghrib_1", Texto(m, 0), "biologico", ("actividad", "descanso")),
      Pregunta("maghrib_2", Texto(m, 1), "espiritual", ("incompleto", "completo")),
      Pregunta("maghrib_3", Texto(m, 2), "financiero", ("dar", "recibir"))]
    case Isha => [
      Pregunta("isha_1", Texto(m, 0), "biologico", ("activo", "descansar")),
      Pregunta("isha_2", Texto(m, 1), "conocimiento", ("pasivo", "activo")),
      Pregunta("isha_3", Texto(m, 2), "espiritual", ("inquietud", "paz"))]
  }

  /** `obtener_preguntas`: the table's entry for the moment, three
      well-formed questions. */
  function ObtenerPreguntas(m: Liturgy.Momento): (r: seq<Pregunta>)
    ensures |r| == 3
    ensures BienFormada(m, r)
  {
    TablaBienFormada(m);
    Tabla(m)
  }

  /** The `i`-th question is numbered after the moment, is about one of the
      four domains and asks between two different poles. */
  predicate Bien(m: Liturgy.Momento, t: seq<Pregunta>, i: nat)
    requires i < |t| && i < 9
  {
    t[i].id == IdDe(m, i) && t[i].dimension in DimensionesPreguntas && t[i].polaridad.0 != t[i].polaridad.1
  }

  predicate BienFormada(m: Liturgy.Momento, t: seq<Pregunta>) {
    |t| == 3 && Bien(m, t, 0) && Bien(m, t, 1) && Bien(m, t, 2)
  }

  /** The same facts, for every position. */
  lemma BienTodas(m: Liturgy.Momento, t: seq<Pregunta>)
    requires BienFormada(m, t)
    ensures forall i :: 0 <= i < 3 ==> Bien(m, t, i)
  {
  }

  lemma TablaBienFormada(m: Liturgy.Momento)
    ensures BienFormada(m, Tabla(m))
  {
    assert Text.DigitChar(1) == '1' && Text.DigitChar(2) == '2' && Text.DigitChar(3) == '3';
    match m {
      case Fajr => BienFajr();
      case Dhuhr => BienDhuhr();
      case Asr => BienAsr();
      case Maghrib => BienMaghrib();
      case Isha => BienIsha();
    }
  }

  lemma BienFajr()
    ensures BienFormada(Liturgy.Fajr, Tabla(Liturgy.Fajr))
  {
    assert Text.DigitChar(1) == '1' && Text.DigitChar(2) == '2' && Text.DigitChar(3) == '3';
    assert IdDe(Liturgy.Fajr, 0) == "fajr_1" && IdDe(Liturgy.Fajr, 1) == "fajr_2" && IdDe(Liturgy.Fajr, 2) == "fajr_3";
  }

  lemma BienDhuhr()
    ensures BienFormada(Liturgy.Dhuhr, Tabla(Liturgy.Dhuhr))
  {
    assert Text.DigitChar(1) == '1' && Text.DigitChar(2) == '2' && Text.DigitChar(3) == '3';
    assert IdDe(Liturgy.Dhuhr, 0) == "dhuhr_1" && IdDe(Liturgy.Dhuhr, 1) == "dhuhr_2" && IdDe(Liturgy.Dhuhr, 2) == "dhuhr_3";
  }

  lemma BienAsr()
    ensures BienFormada(Liturgy.Asr, Tabla(Liturgy.Asr))
  {
    assert Text.DigitChar(1) == '1' && Text.DigitChar(2) == '2' && Text.DigitChar(3) == '3';
    assert IdDe(Liturgy.Asr, 0) == "asr_1" && IdDe(Liturgy.Asr, 1) == "asr_2" && IdDe(Liturgy.Asr, 2) == "asr_3";
  }

  lemma BienMaghrib()
    ensures BienFormada(Liturgy.Maghrib, Tabla(Liturgy.Maghrib))
  {
    assert Text.DigitChar(1) == '1' && Text.DigitChar(2) == '2' && Text.DigitChar(3) == '3';
    assert IdDe(Liturgy.Maghrib, 0) == "maghrib_1" && IdDe(Liturgy.Maghrib, 1) == "maghrib_2" && IdDe(Liturgy.Maghrib, 2) == "maghrib_3";
  }

  lemma BienIsha()
    ensures BienFormada(Liturgy.Isha, Tabla(Liturgy.Isha))
  {
    assert Text.DigitChar(1) == '1' && Text.DigitChar(2) == '2' && Text.DigitChar(3) == '3';
    assert IdDe(Liturgy.Isha, 0) == "isha_1" && IdDe(Liturgy.Isha, 1) == "isha_2" && IdDe(Liturgy.Isha, 2) == "isha_3";
  }

  /** A question id names its moment and its position: no two questions of
      the whole table share an id. */
  lemma IdInyectivo(m1: Liturgy.Momento, i1: nat, m2: Liturgy.Momento, i2: nat)
    requires i1 < 9 && i2 < 9
    requires IdDe(m1, i1) == IdDe(m2, i2)
    ensures m1 == m2 && i1 == i2
  {
    var a, b := IdDe(m1, i1), IdDe(m2, i2);
    assert a[|a| - 1] == Text.DigitChar(i1 + 1);
    assert b[|b| - 1] == Text.DigitChar(i2 + 1);
    assert Liturgy.Nombre(m1) == a[..|a| - 2];
    assert Liturgy.Nombre(m2) == b[..|b| - 2];
    Liturgy.NombreRoundTrip(m1);
  }

  /** Every moment's questions have distinct ids, and so do the questions of
      two different moments. */
  lemma IdsDistintos(m1: Liturgy.Momento, i1: nat, m2: Liturgy.Momento, i2: nat)
    requires i1 < 3 && i2 < 3
    requires m1 != m2 || i1 != i2
    ensures ObtenerPreguntas(m1)[i1].id != ObtenerPreguntas(m2)[i2].id
  {
    IdsDistintosEn(m1, ObtenerPreguntas(m1), i1, m2, ObtenerPreguntas(m2), i2);
  }

  lemma IdsDistintosEn(m1: Liturgy.Momento, t1: seq<Pregunta>, i1: nat, m2: Liturgy.Momento, t2: seq<Pregunta>, i2: nat)
    requires BienFormada(m1, t1) && BienFormada(m2, t2)
    requires i1 < 3 && i2 < 3
    requires m1 != m2 || i1 != i2
    ensures t1[i1].id != t2[i2].id
  {
    BienTodas(m1, t1);
    BienTodas(m2, t2);
    if IdDe(m1, i1) == IdDe(m2, i2) {
      IdInyectivo(m1, i1, m2, i2);
      assert false;
    }
  }

  // ---------------------------------------------------------------------------
  // Domain activity
  // ---------------------------------------------------------------------------

  /** A recorded answer: the question's domain and the yes/no reply. */
  datatype Respuesta = Respuesta(dimension: string, afirmativa: bool)

  /** `1.0 if pregunta['respuesta'] else 0.0`. */
  function Intensidad(r: Respuesta): real {
    if r.afirmativa then 1.0 else 0.0
  }

  /** The loop of `calcular_dominio_activo`: the intensities listed under
      each domain, domains in order of first appearance. */
  function Agrupar(rs: seq<Respuesta>): (d: Assoc.Dict<string, seq<real>>)
    ensures Assoc.DistinctKeys(d)
  {
    if |rs| == 0 then []
    else
      var prev := Agrupar(rs[..|rs| - 1]);
      var x := rs[|rs| - 1];
      var vals := match Assoc.Get(prev, x.dimension) case Some(v) => v case None => [];
      Assoc.PutSpec(prev, x.dimension, vals + [Intensidad(x)]);
      Assoc.Put(prev, x.dimension, vals + [Intensidad(x)])
  }

  /** `calcular_dominio_activo`: each domain's list replaced by its mean. */
  function CalcularDominioActivo(rs: seq<Respuesta>): (r: Assoc.Dict<string, real>)
    ensures Assoc.Keys(r) == Assoc.Keys(Agrupar(rs))
  {
    var g := Agrupar(rs);
    seq(|g|, i requires 0 <= i < |g| => (g[i].0, if |g[i].1| > 0 then Seqs.Mean(g[i].1) else 0.0))
  }

  /** The answers about domain `d`. */
  function Respondidas(rs: seq<Respuesta>, d: string): nat {
    if |rs| == 0 then 0
    else Respondidas(rs[..|rs| - 1], d) + (if rs[|rs| - 1].dimension == d then 1 else 0)
  }

  /** The affirmative answers about domain `d`. */
  function Afirmativas(rs: seq<Respuesta>, d: string): nat {
    if |rs| == 0 then 0
    else Afirmativas(rs[..|rs| - 1], d) + (if rs[|rs| - 1].dimension == d && rs[|rs| - 1].afirmativa then 1 else 0)
  }

  lemma {:induction false} AfirmativasAcotadas(rs: seq<Respuesta>, d: string)
    ensures Afirmativas(rs, d) <= Respondidas(rs, d)
    ensures Respondidas(rs, d) > 0 <==> exists i :: 0 <= i < |rs| && rs[i].dimension == d
  {
    if |rs| > 0 {
      var p := rs[..|rs| - 1];
      AfirmativasAcotadas(p, d);
      assert forall i :: 0 <= i < |p| ==> p[i] == rs[i];
      if Respondidas(p, d) > 0 {
        var i :| 0 <= i < |p| && p[i].dimension == d;
        assert rs[i].dimension == d;
      }
    }
  }

  /** After the loop, a domain has a list exactly when some answer is about
      it; the list holds one entry per such answer, and its sum counts the
      affirmative ones. */
  lemma {:induction false} AgruparSpec(rs: seq<Respuesta>, d: string)
    ensures Assoc.HasKey(Agrupar(rs), d) <==> Respondidas(rs, d) > 0
    ensures Assoc.Get(Agrupar(rs), d).Some? ==>
      && |Assoc.Get(Agrupar(rs), d).value| == Respondidas(rs, d)
      && Seqs.SumReal(Assoc.Get(Agrupar(rs), d).value) == Afirmativas(rs, d) as real
  {
    if |rs| > 0 {
      var p := rs[..|rs| - 1];
      var prev := Agrupar(p);
      var x := rs[|rs| - 1];
      AgruparSpec(p, d);
      AgruparSpec(p, x.dimension);
      var vals := match Assoc.Get(prev, x.dimension) case Some(v) => v case None => [];
      Assoc.PutSpec(prev, x.dimension, vals + [Intensidad(x)]);
      Seqs.SumRealAppend(vals, [Intensidad(x)]);
      assert Seqs.SumReal([Intensidad(x)]) == Intensidad(x);
      assert Agrupar(rs) == Assoc.Put(prev, x.dimension, vals + [Intensidad(x)]);
      if x.dimension != d {
        assert Respondidas(rs, d) == Respondidas(p, d);
        assert Afirmativas(rs, d) == Afirmativas(p, d);
        assert Assoc.Get(Agrupar(rs), d) == Assoc.Get(prev, d);
      } else {
        assert Respondidas(rs, d) == Respondidas(p, d) + 1;
        assert Afirmativas(rs, d) == Afirmativas(p, d) + (if x.afirmativa then 1 else 0);
        if Assoc.HasKey(prev, d) {
          assert vals == Assoc.Get(prev, d).value;
        } else {
          AfirmativasAcotadas(p, d);
          assert vals == [] && Respondidas(p, d) == 0 && Afirmativas(p, d) == 0;
        }
        assert Assoc.Get(Agrupar(rs), d) == Some(vals + [Intensidad(x)]);
        assert |vals + [Intensidad(x)]| == Respondidas(rs, d);
      }
    }
  }

  /** The entry of a domain in the result, by position. */
  lemma ValorEn(rs: seq<Respuesta>, i: nat)
    requires i < |Agrupar(rs)|
    ensures var g := Agrupar(rs);
      Assoc.Get(CalcularDominioActivo(rs), g[i].0) == Some(if |g[i].1| > 0 then Seqs.Mean(g[i].1) else 0.0)
      && Assoc.Get(g, g[i].0) == Some(g[i].1)
  {
    var g := Agrupar(rs);
    var r := CalcularDominioActivo(rs);
    assert Assoc.DistinctKeys(r) by {
      assert forall j :: 0 <= j < |r| ==> r[j].0 == g[j].0;
    }
    Assoc.GetAt(r, i);
    Assoc.GetAt(g, i);
  }

  /** Each domain's value is the share of affirmative answers about it. */
  function Proporcion(rs: seq<Respuesta>, d: string): (v: real)
    requires Respondidas(rs, d) > 0
    ensures 0.0 <= v <= 1.0
  {
    AfirmativasAcotadas(rs, d);
    Arith.Fraction(Afirmativas(rs, d), Respondidas(rs, d))
  }

  /** The result has one key per answered domain, and its value is the share
      of affirmative answers about that domain, so it lies in [0, 1]. */
  lemma DominioActivoSpec(rs: seq<Respuesta>, d: string)
    ensures Assoc.HasKey(CalcularDominioActivo(rs), d) <==> exists i :: 0 <= i < |rs| && rs[i].dimension == d
    ensures Assoc.Get(CalcularDominioActivo(rs), d) ==
      if Respondidas(rs, d) > 0 then Some(Proporcion(rs, d)) else None
  {
    var g := Agrupar(rs);
    var r := CalcularDominioActivo(rs);
    AgruparSpec(rs, d);
    AfirmativasAcotadas(rs, d);
    assert Assoc.HasKey(r, d) <==> Assoc.HasKey(g, d) by {
      assert forall j :: 0 <= j < |r| ==> r[j].0 == g[j].0;
    }
    if Assoc.HasKey(g, d) {
      var i := Assoc.IndexOf(g, d);
      ValorEn(rs, i);
    }
  }

  /** The keys of the result are distinct: one entry per domain. */
  lemma DominioActivoSinRepetidos(rs: seq<Respuesta>)
    ensures Assoc.DistinctKeys(CalcularDominioActivo(rs))
  {
    var g := Agrupar(rs);
    var r := CalcularDominioActivo(rs);
    assert forall j :: 0 <= j < |r| ==> r[j].0 == g[j].0;
  }
}

/** The ministerial cabinet (`GabineteMinisterial`): a registry of ministries
    by name, the meeting that asks each of them for a report on a decree,
    and the global health computed from their metrics.

    A ministry is foreign code; the model describes it by what its queries
    return for a decree — the name, the question, the state, the answer
    and the metrics — or by the message of the exception one of them
    raises. The decree type is a parameter.
 */
module Cabinet {

  import opened Wrappers
  import Assoc
  import Seqs

  /** A metric value: only numbers take part in the health average. */
  datatype Valor = Numero(x: real) | OtroValor

  /** What `metricas_salud` returned: a dictionary, or something else. */
  datatype Metricas = MetricasDict(d: Assoc.Dict<string, Valor>) | NoDict

  datatype Consulta = Consulta(
    nombreDivino: string,
    pregunta: string,
    estado: string,
    respuesta: string,
    metricas: Metricas)

  /** A registered ministry: given the decree, its queries either all
      succeed or one of them raises with a message. */
  datatype Ministerio<!D> = Ministerio(consultar: D -> Result<Consulta, string>)

  type Gabinete<!D> = Assoc.Dict<string, Ministerio<D>>

  datatype Reporte = Informe(c: Consulta) | ErrorReporte(mensaje: string)

  datatype Coordinacion = SinConflictos | CoordinacionNecesaria(sugerencias: seq<string>)

  datatype Reunion = Reunion(
    reportes: Assoc.Dict<string, Reporte>,
    conflictos: seq<string>,
    coordinacion: Coordinacion,
    ministeriosActivos: nat,
    saludGlobal: real)

  const PrefijoError := "Error al consultar ministerio: "

  /** `registrar_ministerio`: `ministerios[nombre] = ministerio`. */
  function Registrar<D>(g: Gabinete<D>, nombre: string, m: Ministerio<D>): (r: Gabinete<D>)
    ensures Assoc.HasKey(r, nombre)
    ensures |r| == if Assoc.HasKey(g, nombre) then |g| else |g| + 1
  {
    Assoc.Put(g, nombre, m)
  }

  /** Registering under a name replaces whatever was registered under it,
      in place, and leaves every other name alone. */
  lemma RegistrarOverwrites<D>(g: Gabinete<D>, nombre: string, m: Ministerio<D>)
    requires Assoc.DistinctKeys(g)
    ensures Assoc.DistinctKeys(Registrar(g, nombre, m))
    ensures Assoc.Get(Registrar(g, nombre, m), nombre) == Some(m)
    ensures forall n :: n != nombre ==> Assoc.Get(Registrar(g, nombre, m), n) == Assoc.Get(g, n)
    ensures Assoc.HasKey(g, nombre) ==> Assoc.Keys(Registrar(g, nombre, m)) == Assoc.Keys(g)
  {
    Assoc.PutSpec(g, nombre, m);
  }

  /** One ministry's entry in the meeting: its report, or the error entry
      when a query raised. */
  function ReporteDe<D>(m: Ministerio<D>, decreto: D): (r: Reporte)
    ensures r.ErrorReporte? <==> m.consultar(decreto).Err?
    ensures r.ErrorReporte? ==> r.mensaje == PrefijoError + m.consultar(decreto).error
    ensures r.Informe? ==> r.c == m.consultar(decreto).value
  {
    match m.consultar(decreto)
    case Ok(c) => Informe(c)
    case Err(e) => ErrorReporte(PrefijoError + e)
  }

  /** The loop over the registry, in registration order. */
  function Reportes<D>(g: Gabinete<D>, decreto: D): (r: Assoc.Dict<string, Reporte>)
    ensures |r| == |g|
    ensures forall i :: 0 <= i < |g| ==> r[i] == (g[i].0, ReporteDe(g[i].1, decreto))
  {
    if |g| == 0 then [] else [(g[0].0, ReporteDe(g[0].1, decreto))] + Reportes(g[1..], decreto)
  }

  /** `_detectar_conflictos`: no detection rule exists yet. */
  function DetectarConflictos(reportes: Assoc.Dict<string, Reporte>): (r: seq<string>)
    ensures |r| == 0
  {
    []
  }

  /** `_proponer_coordinacion`. */
  function ProponerCoordinacion(conflictos: seq<string>): (r: Coordinacion)
    ensures r == SinConflictos <==> |conflictos| == 0
    ensures r.CoordinacionNecesaria? ==> |r.sugerencias| == 0
  {
    if |conflictos| == 0 then SinConflictos else CoordinacionNecesaria([])
  }

  /** The numeric values of a metrics dictionary, in order. */
  function Numericos(d: Assoc.Dict<string, Valor>): (r: seq<real>)
    ensures |r| <= |d|
    ensures forall x :: x in r <==> Numero(x) in Valores(d)
  {
    if |d| == 0 then []
    else
      assert Valores(d) == [d[0].1] + Valores(d[1..]);
      (if d[0].1.Numero? then [d[0].1.x] else []) + Numericos(d[1..])
  }

  /** The values of a metrics dictionary, in order. */
  function Valores(d: Assoc.Dict<string, Valor>): (r: seq<Valor>)
    ensures |r| == |d| && forall j :: 0 <= j < |d| ==> r[j] == d[j].1
  {
    seq(|d|, j requires 0 <= j < |d| => d[j].1)
  }

  /** The numeric values of two runs of entries, one after the other, are
      those of the first run followed by those of the second: the values
      keep the dictionary's order. */
  lemma {:induction false} NumericosAppend(a: Assoc.Dict<string, Valor>, b: Assoc.Dict<string, Valor>)
    ensures Numericos(a + b) == Numericos(a) + Numericos(b)
    decreases |a|
  {
    if |a| == 0 {
      assert a + b == b;
    } else {
      assert (a + b)[0] == a[0] && (a + b)[1..] == a[1..] + b;
      NumericosAppend(a[1..], b);
    }
  }

  /** The mean of one report's numeric metrics, when it has any. */
  function MediaReporte(r: Reporte): (m: Option<real>)
    ensures m.Some? <==> r.Informe? && r.c.metricas.MetricasDict? && |Numericos(r.c.metricas.d)| > 0
  {
    if r.Informe? && r.c.metricas.MetricasDict? && |Numericos(r.c.metricas.d)| > 0
    then Some(Seqs.Mean(Numericos(r.c.metricas.d)))
    else None
  }

  /** The per-ministry means that exist, in order. */
  function MetricasValidas(rs: Assoc.Dict<string, Reporte>): (r: seq<real>)
    ensures |r| <= |rs|
    ensures forall m :: m in r <==> Some(m) in Medias(rs)
  {
    if |rs| == 0 then []
    else
      var m := MediaReporte(rs[0].1);
      assert Medias(rs) == [m] + Medias(rs[1..]);
      (if m.Some? then [m.value] else []) + MetricasValidas(rs[1..])
  }

  /** Each report's mean of numeric metrics, or `None`, in report order. */
  function Medias(rs: Assoc.Dict<string, Reporte>): (r: seq<Option<real>>)
    ensures |r| == |rs| && forall j :: 0 <= j < |rs| ==> r[j] == MediaReporte(rs[j].1)
  {
    seq(|rs|, j requires 0 <= j < |rs| => MediaReporte(rs[j].1))
  }

  /** The means of two runs of reports, one after the other, are those of
      the first run followed by those of the second: one mean per report
      with numeric metrics, in report order. */
  lemma {:induction false} MetricasValidasAppend(a: Assoc.Dict<string, Reporte>, b: Assoc.Dict<string, Reporte>)
    ensures MetricasValidas(a + b) == MetricasValidas(a) + MetricasValidas(b)
    decreases |a|
  {
    if |a| == 0 {
      assert a + b == b;
    } else {
      assert (a + b)[0] == a[0] && (a + b)[1..] == a[1..] + b;
      MetricasValidasAppend(a[1..], b);
    }
  }

  /** `_calcular_salud_global`: the mean of the per-ministry means, and 0
      when no ministry reported a numeric metric. */
  function SaludGlobal(rs: Assoc.Dict<string, Reporte>): (r: real)
    ensures |MetricasValidas(rs)| == 0 ==> r == 0.0
    ensures |MetricasValidas(rs)| > 0 ==> r == Seqs.Mean(MetricasValidas(rs))
  {
    var v := MetricasValidas(rs);
    if |v| == 0 then 0.0 else Seqs.Mean(v)
  }

  /** `reunion_ministerial`. */
  function ReunionMinisterial<D>(g: Gabinete<D>, decreto: D): (r: Reunion)
    ensures r.ministeriosActivos == |g| == |r.reportes|
    ensures Assoc.Keys(r.reportes) == Assoc.Keys(g)
    ensures r.conflictos == [] && r.coordinacion == SinConflictos
    ensures r.saludGlobal == SaludGlobal(r.reportes)
  {
    var rs := Reportes(g, decreto);
    var conflictos := DetectarConflictos(rs);
    Reunion(rs, conflictos, ProponerCoordinacion(conflictos), |g|, SaludGlobal(rs))
  }

  /** Looking a name up in the meeting finds exactly the report of the
      ministry registered under it, or an error entry when its queries
      raised; unregistered names have no entry. */
  lemma MeetingLookup<D>(g: Gabinete<D>, decreto: D, nombre: string)
    ensures var r := Assoc.Get(ReunionMinisterial(g, decreto).reportes, nombre);
      (r.Some? <==> Assoc.HasKey(g, nombre))
      && (r.Some? ==> r.value == ReporteDe(Assoc.Get(g, nombre).value, decreto))
      && (r.Some? ==> (r.value.ErrorReporte? <==> Assoc.Get(g, nombre).value.consultar(decreto).Err?))
  {
    var rs := Reportes(g, decreto);
    assert forall i :: 0 <= i < |g| ==> (rs[i].0 == nombre <==> g[i].0 == nombre);
    if Assoc.HasKey(g, nombre) {
      var i := Assoc.IndexOf(g, nombre);
      assert rs[i].0 == nombre;
      assert Assoc.HasKey(rs, nombre);
      assert Assoc.IndexOf(rs, nombre) == i;
    } else {
      assert !Assoc.HasKey(rs, nombre);
    }
  }

  /** Every metric value a ministry reports lies in the documented 0..100. */
  predicate MetricasEnRango(rs: Assoc.Dict<string, Reporte>) {
    forall i :: 0 <= i < |rs| ==> MetricasEnRango1(rs[i].1)
  }

  predicate MetricasEnRango1(r: Reporte) {
    r.Informe? && r.c.metricas.MetricasDict? ==>
      forall j :: 0 <= j < |r.c.metricas.d| ==>
        (r.c.metricas.d[j].1.Numero? ==> 0.0 <= r.c.metricas.d[j].1.x <= 100.0)
  }

  lemma {:induction false} NumericosInRange(d: Assoc.Dict<string, Valor>)
    requires forall j :: 0 <= j < |d| ==> (d[j].1.Numero? ==> 0.0 <= d[j].1.x <= 100.0)
    ensures forall k :: 0 <= k < |Numericos(d)| ==> 0.0 <= Numericos(d)[k] <= 100.0
    decreases |d|
  {
    if |d| > 0 {
      NumericosInRange(d[1..]);
    }
  }

  lemma {:induction false} ValidasInRange(rs: Assoc.Dict<string, Reporte>)
    requires MetricasEnRango(rs)
    ensures forall k :: 0 <= k < |MetricasValidas(rs)| ==> 0.0 <= MetricasValidas(rs)[k] <= 100.0
    decreases |rs|
  {
    if |rs| > 0 {
      var r := rs[0].1;
      var m := MediaReporte(r);
      assert MetricasEnRango1(r);
      if m.Some? {
        NumericosInRange(r.c.metricas.d);
        Seqs.MeanBounds(Numericos(r.c.metricas.d), 0.0, 100.0);
        assert 0.0 <= m.value <= 100.0;
      }
      assert MetricasEnRango(rs[1..]) by {
        assert forall i :: 0 <= i < |rs| - 1 ==> rs[1..][i] == rs[i + 1];
      }
      ValidasInRange(rs[1..]);
      assert MetricasValidas(rs) == (if m.Some? then [m.value] else []) + MetricasValidas(rs[1..]);
    }
  }

  /** When every ministry keeps its metrics within 0..100, so does the
      global health. */
  lemma SaludGlobalBounds(rs: Assoc.Dict<string, Reporte>)
    requires MetricasEnRango(rs)
    ensures 0.0 <= SaludGlobal(rs) <= 100.0
  {
    ValidasInRange(rs);
    if |MetricasValidas(rs)| > 0 {
      Seqs.MeanBounds(MetricasValidas(rs), 0.0, 100.0);
    }
  }

  /** A cabinet whose every ministry fails, or an empty cabinet, reports a
      global health of 0. */
  lemma AllErrorsGiveZero<D>(g: Gabinete<D>, decreto: D)
    requires forall i :: 0 <= i < |g| ==> g[i].1.consultar(decreto).Err?
    ensures ReunionMinisterial(g, decreto).saludGlobal == 0.0
  {
    ErrorsHaveNoMetrics(Reportes(g, decreto));
  }

  lemma {:induction false} ErrorsHaveNoMetrics(rs: Assoc.Dict<string, Reporte>)
    requires forall i :: 0 <= i < |rs| ==> rs[i].1.ErrorReporte?
    ensures MetricasValidas(rs) == []
    decreases |rs|
  {
    if |rs| > 0 {
      ErrorsHaveNoMetrics(rs[1..]);
    }
  }
}

/** Purposes of the time cycles and the anchors of the day.

    Each Estado Cero moment, weekday and Hijri month has a purpose; the
    lookups by name fall back to a default. The anchors of a day are the
    five prayers, each followed by its Estado Cero (a longer ritual at
    maghrib), and the free space of a day is what the anchors, the
    non-negotiables, the routines and eight hours of sleep leave of its
    1440 minutes.

    A `datetime` is modelled as a count of minutes; only the prayers'
    start times are used.
 */
module Purposes {

  import opened Wrappers
  import Seqs
  import Liturgy

  // ---------------------------------------------------------------------------
  // Purposes
  // ---------------------------------------------------------------------------

  /** The purpose of each Estado Cero moment. */
  function PropositoEstadoCero(m: Liturgy.Momento): string {
    match m
    case Fajr => "INICIO - Establecer intención del día"
    case Dhuhr => "REVISIÓN - Refinar rumbo"
    case Asr => "COMPLETAR - Cerrar ciclos abiertos"
    case Maghrib => "INTEGRACIÓN - Reflexionar y preparar"
    case Isha => "SOLTAR - Paz y descanso"
  }

  datatype PropositoDia = PropositoDia(dia: string, proposito: string, energia: string)

  /** The weekday table, keyed by capitalised Spanish names. */
  const PropositosDias: seq<PropositoDia> := [
    PropositoDia("Lunes", "Iniciar", "Expansión"),
    PropositoDia("Martes", "Construir", "Acción"),
    PropositoDia("Miércoles", "Expresar", "Comunicación"),
    PropositoDia("Jueves", "Expandir", "Abundancia"),
    PropositoDia("Viernes", "Agradecer", "Gratitud"),
    PropositoDia("Sábado", "Reflexionar", "Introspección"),
    PropositoDia("Domingo", "Descansar", "Restauración")
  ]

  /** The first table entry whose key is `k`, if any. */
  function Buscar<T>(tabla: seq<T>, clave: T -> string, k: string): (r: Option<T>)
    ensures r.Some? <==> exists i :: 0 <= i < |tabla| && clave(tabla[i]) == k
    ensures r.Some? ==> r.value in tabla && clave(r.value) == k
  {
    if |tabla| == 0 then None
    else if clave(tabla[0]) == k then Some(tabla[0])
    else
      var r := Buscar(tabla[1..], clave, k);
      assert forall i :: 1 <= i < |tabla| ==> tabla[i] == tabla[1..][i - 1];
      r
  }

  function ClaveDia(): PropositoDia -> string {
    (p: PropositoDia) => p.dia
  }

  /** `obtener_proposito_dia_semana`: the entry for the name, Lunes's for
      any other string. */
  function PropositoDiaSemana(dia: string): (r: PropositoDia)
    ensures r in PropositosDias
    ensures r.dia == dia || (r == PropositosDias[0] && forall i :: 0 <= i < 7 ==> PropositosDias[i].dia != dia)
  {
    Buscar(PropositosDias, ClaveDia(), dia).GetOr(PropositosDias[0])
  }

  datatype PropositoMes = PropositoMes(mes: string, proposito: string, cualidad: string)

  /** The thirteen-entry month table; the thirteenth is a bridge to the new
      year. */
  const PropositosMeses: seq<PropositoMes> := [
    PropositoMes("Muharram", "Reflexionar", "Iniciar ciclo anual - Año Nuevo Hijri"),
    PropositoMes("Safar", "Purificar", "Limpiar, soltar lo viejo"),
    PropositoMes("Rabi al-Awwal", "Celebrar", "Luz, nacimiento del Profeta"),
    PropositoMes("Rabi al-Thani", "Construir", "Estabilidad, fundamentos"),
    PropositoMes("Jumada al-Ula", "Consolidar", "Estructura, forma"),
    PropositoMes("Jumada al-Akhirah", "Madurar", "Profundidad, madurez"),
    PropositoMes("Rajab", "Preparar", "Anticipación, preparación"),
    PropositoMes("Shaban", "Intensificar", "Enfoque, intensidad"),
    PropositoMes("Ramadan", "Purificar", "Transformación profunda"),
    PropositoMes("Shawwal", "Celebrar", "Gratitud, celebración"),
    PropositoMes("Dhul-Qadah", "Preparar", "Tregua, preparación para Hajj"),
    PropositoMes("Dhul-Hijjah", "Culminar", "Sacrificio, culminación"),
    PropositoMes("Muharram 13", "Transición", "Puente al nuevo año")
  ]

  function ClaveMes(): PropositoMes -> string {
    (p: PropositoMes) => p.mes
  }

  /** `obtener_proposito_mes_hijri`: the entry for the name, Muharram's for
      any other string. */
  function PropositoMesHijri(mes: string): (r: PropositoMes)
    ensures r in PropositosMeses
    ensures r.mes == mes || (r == PropositosMeses[0] && forall i :: 0 <= i < 13 ==> PropositosMeses[i].mes != mes)
  {
    Buscar(PropositosMeses, ClaveMes(), mes).GetOr(PropositosMeses[0])
  }

  /** An entry whose key no earlier entry has is what looking its key up
      finds. */
  lemma {:induction false} BuscarPrimera<T>(tabla: seq<T>, clave: T -> string, i: nat)
    requires i < |tabla|
    requires forall j :: 0 <= j < i ==> clave(tabla[j]) != clave(tabla[i])
    ensures Buscar(tabla, clave, clave(tabla[i])) == Some(tabla[i])
    decreases i
  {
    if i > 0 {
      var resto := tabla[1..];
      forall j | 0 <= j < i - 1
        ensures clave(resto[j]) != clave(resto[i - 1])
      {
        assert resto[j] == tabla[j + 1] && resto[i - 1] == tabla[i];
      }
      BuscarPrimera(resto, clave, i - 1);
    }
  }

  predicate ClavesDistintas<T>(tabla: seq<T>, clave: T -> string) {
    forall j, k :: 0 <= j < k < |tabla| ==> clave(tabla[j]) != clave(tabla[k])
  }

  /** In a table without repeated keys every entry is found by its key. */
  lemma EncuentraTodas<T>(tabla: seq<T>, clave: T -> string)
    requires ClavesDistintas(tabla, clave)
    ensures forall i :: 0 <= i < |tabla| ==> Buscar(tabla, clave, clave(tabla[i])) == Some(tabla[i])
  {
    forall i | 0 <= i < |tabla|
      ensures Buscar(tabla, clave, clave(tabla[i])) == Some(tabla[i])
    {
      BuscarPrimera(tabla, clave, i);
    }
  }

  lemma DiasDistintos()
    ensures ClavesDistintas(PropositosDias, ClaveDia())
  {
    var t := PropositosDias;
    assert forall j, k :: 0 <= j < k < 7 ==> Firma(t[j].dia) != Firma(t[k].dia);
  }

  lemma MesesDistintos()
    ensures ClavesDistintas(PropositosMeses, ClaveMes())
  {
    var t := PropositosMeses;
    assert forall j, k :: 0 <= j < k < 13 ==> Firma(t[j].mes) != Firma(t[k].mes);
  }

  /** The length of a name with its first and ninth letters: enough to tell
      the month names apart. */
  function Firma(s: string): (int, char, char) {
    (|s|, if |s| > 0 then s[0] else ' ', if |s| > 8 then s[8] else ' ')
  }

  /** Every weekday name finds its own entry; a lower-case name is unknown
      and gets Lunes's. */
  lemma DiasFindTheirEntry()
    ensures forall i :: 0 <= i < 7 ==> PropositoDiaSemana(PropositosDias[i].dia) == PropositosDias[i]
    ensures PropositoDiaSemana("domingo") == PropositosDias[0]
  {
    DiasDistintos();
    EncuentraTodas(PropositosDias, ClaveDia());
    MinusculaDesconocida("domingo");
  }

  /** A name starting with a lower-case letter is not in the weekday table. */
  lemma MinusculaDesconocida(dia: string)
    requires |dia| > 0 && 'a' <= dia[0] <= 'z'
    ensures PropositoDiaSemana(dia) == PropositosDias[0]
  {
    assert forall j :: 0 <= j < 7 ==> PropositosDias[j].dia[0] != dia[0];
  }

  /** Every month name finds its own entry. */
  lemma MesesFindTheirEntry()
    ensures forall i :: 0 <= i < 13 ==> PropositoMesHijri(PropositosMeses[i].mes) == PropositosMeses[i]
  {
    MesesDistintos();
    EncuentraTodas(PropositosMeses, ClaveMes());
  }

  // ---------------------------------------------------------------------------
  // Anchors
  // ---------------------------------------------------------------------------

  /** Start minute of each prayer of the day. */
  datatype TiemposRezoDia = TiemposRezoDia(fajr: int, dhuhr: int, asr: int, maghrib: int, isha: int)

  function Inicio(t: TiemposRezoDia, m: Liturgy.Momento): int {
    match m
    case Fajr => t.fajr
    case Dhuhr => t.dhuhr
    case Asr => t.asr
    case Maghrib => t.maghrib
    case Isha => t.isha
  }

  datatype TipoAncla = Rezo | EstadoCero | RitualMaghrib

  datatype Ancla = Ancla(tipo: TipoAncla, momento: Liturgy.Momento, inicio: int, duracion: nat, proposito: string)

  function NombreRezo(m: Liturgy.Momento): string {
    match m
    case Fajr => "Purificación alba"
    case Dhuhr => "Purificación mediodía"
    case Asr => "Purificación tarde"
    case Maghrib => "Purificación ocaso"
    case Isha => "Purificación noche"
  }

  /** The two anchors of one moment: the 15-minute prayer, then the Estado
      Cero 15 minutes later (the 30-minute ritual at maghrib). */
  function AnclasMomento(t: TiemposRezoDia, m: Liturgy.Momento): (r: seq<Ancla>)
    ensures |r| == 2
    ensures r[0].tipo == Rezo && r[0].momento == m && r[0].inicio == Inicio(t, m) && r[0].duracion == 15
    ensures r[1].momento == m && r[1].inicio == r[0].inicio + 15
    ensures r[1].proposito == PropositoEstadoCero(m)
    ensures m == Liturgy.Maghrib ==> r[1].tipo == RitualMaghrib && r[1].duracion == 30
    ensures m != Liturgy.Maghrib ==> r[1].tipo == EstadoCero && r[1].duracion == 15
  {
    var inicio := Inicio(t, m);
    var segunda :=
      if m == Liturgy.Maghrib then Ancla(RitualMaghrib, m, inicio + 15, 30, PropositoEstadoCero(m))
      else Ancla(EstadoCero, m, inicio + 15, 15, PropositoEstadoCero(m));
    [Ancla(Rezo, m, inicio, 15, NombreRezo(m)), segunda]
  }

  /** `generar_anclas_dia`: the two anchors of each moment, moment by
      moment from fajr to isha. */
  function GenerarAnclas(t: TiemposRezoDia): (r: seq<Ancla>)
    ensures |r| == 10
    ensures forall k :: 0 <= k < 5 ==> r[2 * k] == AnclasMomento(t, Liturgy.Momentos[k])[0]
    ensures forall k :: 0 <= k < 5 ==> r[2 * k + 1] == AnclasMomento(t, Liturgy.Momentos[k])[1]
  {
    var f := (m: Liturgy.Momento) => AnclasMomento(t, m);
    Seqs.FlatMapPairs(Liturgy.Momentos, f);
    Seqs.FlatMap(Liturgy.Momentos, f)
  }

  /** `5 * 30 + 15`: the minutes the anchors take. */
  const TiempoAnclas: int := 5 * 30 + 15

  function Duraciones(r: seq<Ancla>): seq<int> {
    seq(|r|, i requires 0 <= i < |r| => r[i].duracion as int)
  }

  /** Each moment has a prayer first and an Estado Cero second, starting 15
      minutes apart, and the anchors' durations add up to exactly the
      constant the free-space computation charges for them. */
  lemma AnclasSpec(t: TiemposRezoDia)
    ensures var r := GenerarAnclas(t);
      && (forall k :: 0 <= k < 5 ==> r[2 * k].tipo == Rezo && r[2 * k + 1].tipo != Rezo)
      && (forall k :: 0 <= k < 5 ==> r[2 * k + 1].inicio == r[2 * k].inicio + 15)
      && (forall k :: 0 <= k < 5 ==> r[2 * k].momento == r[2 * k + 1].momento == Liturgy.Momentos[k])
      && Seqs.SumInt(Duraciones(r)) == TiempoAnclas == 165
  {
    var r := GenerarAnclas(t);
    forall k | 0 <= k < 5
      ensures r[2 * k].tipo == Rezo && r[2 * k + 1].tipo != Rezo
      ensures r[2 * k + 1].inicio == r[2 * k].inicio + 15
      ensures r[2 * k].momento == r[2 * k + 1].momento == Liturgy.Momentos[k]
    {
      AnclasDe(t, k);
    }
    SumaDuracionesAnclas(t);
  }

  lemma SumaDuracionesAnclas(t: TiemposRezoDia)
    ensures Seqs.SumInt(Duraciones(GenerarAnclas(t))) == 165
  {
    DuracionesAnclas(t);
    SumaAnclas();
  }

  /** The two anchors of the `k`-th moment of the day. */
  lemma AnclasDe(t: TiemposRezoDia, k: nat)
    requires k < 5
    ensures var r := GenerarAnclas(t);
      && r[2 * k].tipo == Rezo && r[2 * k + 1].tipo != Rezo
      && r[2 * k + 1].inicio == r[2 * k].inicio + 15
      && r[2 * k].momento == r[2 * k + 1].momento == Liturgy.Momentos[k]
      && r[2 * k].duracion == 15 && r[2 * k + 1].duracion == (if k == 3 then 30 else 15)
  {
    var par := AnclasMomento(t, Liturgy.Momentos[k]);
    assert Liturgy.Momentos[k] == Liturgy.Maghrib <==> k == 3;
  }

  /** Fifteen minutes for every anchor but the maghrib ritual, which takes
      thirty. */
  lemma DuracionesAnclas(t: TiemposRezoDia)
    ensures Duraciones(GenerarAnclas(t)) == [15, 15, 15, 15, 15, 15, 15, 30, 15, 15]
  {
    var d := Duraciones(GenerarAnclas(t));
    forall k | 0 <= k < 5
      ensures d[2 * k] == 15
      ensures d[2 * k + 1] == if k == 3 then 30 else 15
    {
      AnclasDe(t, k);
    }
    assert d[0] == 15 && d[1] == 15 && d[2] == 15 && d[3] == 15 && d[4] == 15;
    assert d[5] == 15 && d[6] == 15 && d[7] == 30 && d[8] == 15 && d[9] == 15;
    DiezDuraciones(d);
  }

  /** Ten durations known one by one form the literal list. */
  lemma DiezDuraciones(d: seq<int>)
    requires |d| == 10
    requires d[0] == 15 && d[1] == 15 && d[2] == 15 && d[3] == 15 && d[4] == 15
    requires d[5] == 15 && d[6] == 15 && d[7] == 30 && d[8] == 15 && d[9] == 15
    ensures d == [15, 15, 15, 15, 15, 15, 15, 30, 15, 15]
  {
  }

  lemma SumaAnclas()
    ensures Seqs.SumInt([15, 15, 15, 15, 15, 15, 15, 30, 15, 15]) == 165
  {
    var ds: seq<int> := [15, 15, 15, 15, 15, 15, 15, 30, 15, 15];
    assert Seqs.SumInt(ds[9..]) == 15;
    assert Seqs.SumInt(ds[8..]) == 30;
    assert Seqs.SumInt(ds[7..]) == 60;
    assert Seqs.SumInt(ds[6..]) == 75;
    assert Seqs.SumInt(ds[5..]) == 90;
    assert Seqs.SumInt(ds[4..]) == 105;
    assert Seqs.SumInt(ds[3..]) == 120;
    assert Seqs.SumInt(ds[2..]) == 135;
    assert Seqs.SumInt(ds[1..]) == 150;
  }

  // ---------------------------------------------------------------------------
  // Free space
  // ---------------------------------------------------------------------------

  const MinutosDia: int := 24 * 60
  const TiempoSueno: int := 8 * 60

  datatype EspacioLibre = EspacioLibre(minutos: int, porcentaje: real)

  /** `calcular_espacio_libre`, given the durations of the non-negotiables
      and of the routines. */
  function CalcularEspacioLibre(noNegociables: seq<int>, rutinas: seq<int>): (r: EspacioLibre)
    ensures r.minutos + TiempoAnclas + Seqs.SumInt(noNegociables) + Seqs.SumInt(rutinas) + TiempoSueno == MinutosDia
    ensures r.porcentaje * 1440.0 == r.minutos as real * 100.0
  {
    var asignado := TiempoAnclas + Seqs.SumInt(noNegociables) + Seqs.SumInt(rutinas) + TiempoSueno;
    var libre := MinutosDia - asignado;
    EspacioLibre(libre, libre as real / MinutosDia as real * 100.0)
  }

  /** With non-negative durations the free space is at most the 795 minutes
      that anchors and sleep leave, about 55% of the day; it is negative
      exactly when the commitments exceed those 795 minutes, and the
      percentage has the sign of the minutes. */
  lemma EspacioLibreBounds(noNegociables: seq<int>, rutinas: seq<int>)
    requires forall i :: 0 <= i < |noNegociables| ==> noNegociables[i] >= 0
    requires forall i :: 0 <= i < |rutinas| ==> rutinas[i] >= 0
    ensures var r := CalcularEspacioLibre(noNegociables, rutinas);
      && r.minutos <= 795
      && (r.minutos < 0 <==> Seqs.SumInt(noNegociables) + Seqs.SumInt(rutinas) > 795)
      && r.porcentaje <= 795.0 * 100.0 / 1440.0
      && (r.porcentaje < 0.0 <==> r.minutos < 0)
  {
    Seqs.SumIntNonNeg(noNegociables);
    Seqs.SumIntNonNeg(rutinas);
  }

  /** Adding a routine of `d` minutes takes exactly `d` minutes of free space. */
  lemma RutinaResta(noNegociables: seq<int>, rutinas: seq<int>, d: int)
    ensures CalcularEspacioLibre(noNegociables, rutinas + [d]).minutos == CalcularEspacioLibre(noNegociables, rutinas).minutos - d
  {
    Seqs.SumIntAppend(rutinas, [d]);
  }
}

/** The liturgical calendar (`CalendarioHijri`): the twelve lunar months
    with their quality and sacredness, the seven weekdays with their
    archetype, and the weekly view.

    The conversion of a Gregorian date to its Hijri month is a foreign
    library; its month number is an input. Dates are day ordinals (see
    `Dates`). Of each month and day only the fields the rest of the system
    reads are kept; the long teaching texts are left out.
 */
module HijriCalendar {

  import Dates

  datatype Cualidad = Sagrado | Preparacion | Purificacion | Celebracion | Introspeccion | Expansion | Revelacion

  datatype MesHijri = MesHijri(numero: int, nombreArabe: string, nombreEs: string, cualidad: Cualidad,
                               esSagrado: bool, dimension: string)

  /** `_inicializar_meses`: the twelve months in order. */
  const Meses: seq<MesHijri> := [
    MesHijri(1, "Muharram", "El Sagrado", Sagrado, true, "Espiritual"),
    MesHijri(2, "Safar", "El Vacío", Introspeccion, false, "Biológico/Físico"),
    MesHijri(3, "Rabi' al-Awwal", "Primera Primavera", Revelacion, false, "Conocimiento"),
    MesHijri(4, "Rabi' al-Thani", "Segunda Primavera", Expansion, false, "Creativo"),
    MesHijri(5, "Jumada al-Awwal", "Primera Aridez", Introspeccion, false, "Desarrollo"),
    MesHijri(6, "Jumada al-Thani", "Segunda Aridez", Introspeccion, false, "Biológico/Físico"),
    MesHijri(7, "Rajab", "El Respetado", Sagrado, true, "Espiritual"),
    MesHijri(8, "Sha'ban", "El Distribuidor", Preparacion, false, "Desarrollo"),
    MesHijri(9, "Ramadan", "El Ardiente", Purificacion, false, "Espiritual"),
    MesHijri(10, "Shawwal", "El Elevador", Celebracion, false, "Relacional"),
    MesHijri(11, "Dhu al-Qi'dah", "El de la Tregua", Sagrado, true, "Relacional"),
    MesHijri(12, "Dhu al-Hijjah", "El de la Peregrinación", Sagrado, true, "Espiritual")
  ]

  /** The sacred months as the yearly view lists them. */
  const MesesSagrados: seq<int> := [1, 7, 11, 12]

  /** The table is numbered 1 to 12 in order, and a month is sacred exactly
      when it is one of the four sacred months, which are exactly the
      months of sacred quality. */
  lemma MesesSpec(k: nat)
    requires k < |Meses|
    ensures |Meses| == 12
    ensures Meses[k].numero == k + 1
    ensures Meses[k].esSagrado <==> Meses[k].numero in MesesSagrados
    ensures Meses[k].esSagrado <==> Meses[k].cualidad == Sagrado
  {
  }

  /** No two months share a name. */
  lemma NombresDistintos(i: nat, j: nat)
    requires i < j < |Meses|
    ensures Meses[i].nombreArabe != Meses[j].nombreArabe
  {
  }

  /** `obtener_mes_actual`: the converter gives a month from 1 to 12 and
      the table is read at one less. */
  function ObtenerMes(mesNumero: int): (m: MesHijri)
    requires 1 <= mesNumero <= 12
    ensures m.numero == mesNumero
    ensures m in Meses
  {
    MesesSpec(mesNumero - 1);
    Meses[mesNumero - 1]
  }

  /** Looking a month up by its own number gives it back. */
  lemma ObtenerMesRoundTrip(k: nat)
    requires k < |Meses|
    ensures ObtenerMes(Meses[k].numero) == Meses[k]
  {
    MesesSpec(k);
  }

  /** The numbers of the sacred months, read off the table in order. */
  function NumerosSagrados(ms: seq<MesHijri>): (r: seq<int>)
    ensures forall x :: x in r ==> exists m :: m in ms && m.esSagrado && m.numero == x
  {
    NumerosDesde(ms, 0)
  }

  /** The numbers of the sacred months from position `k` on. */
  function NumerosDesde(ms: seq<MesHijri>, k: nat): (r: seq<int>)
    requires k <= |ms|
    ensures forall x :: x in r ==> exists j :: k <= j < |ms| && ms[j].esSagrado && ms[j].numero == x
    decreases |ms| - k
  {
    if k == |ms| then []
    else (if ms[k].esSagrado then [ms[k].numero] else []) + NumerosDesde(ms, k + 1)
  }

  /** The fixed list of sacred months in the yearly view agrees with the
      table. */
  lemma SagradosCoinciden()
    ensures NumerosSagrados(Meses) == MesesSagrados
  {
    var ms := Meses;
    assert NumerosDesde(ms, 12) == [];
    assert NumerosDesde(ms, 11) == [12];
    assert NumerosDesde(ms, 10) == [11, 12];
    assert NumerosDesde(ms, 9) == [11, 12];
    assert NumerosDesde(ms, 8) == [11, 12];
    assert NumerosDesde(ms, 7) == [11, 12];
    assert NumerosDesde(ms, 6) == [7, 11, 12];
    assert NumerosDesde(ms, 5) == [7, 11, 12];
    assert NumerosDesde(ms, 4) == [7, 11, 12];
    assert NumerosDesde(ms, 3) == [7, 11, 12];
    assert NumerosDesde(ms, 2) == [7, 11, 12];
    assert NumerosDesde(ms, 1) == [7, 11, 12];
    assert NumerosDesde(ms, 0) == [1, 7, 11, 12];
  }

  // ---------------------------------------------------------------------------
  // Weekdays
  // ---------------------------------------------------------------------------

  datatype Arquetipo = Lunes | Martes | Miercoles | Jueves | Viernes | Sabado | Domingo

  datatype DiaSemana = DiaSemana(nombre: string, arquetipo: Arquetipo, dimension: string)

  /** The archetypes from Monday to Sunday. */
  const Arquetipos: seq<Arquetipo> := [Lunes, Martes, Miercoles, Jueves, Viernes, Sabado, Domingo]

  /** `_inicializar_dias_semana`, keyed by archetype. */
  function Dia(a: Arquetipo): (d: DiaSemana)
    ensures d.arquetipo == a
  {
    match a
    case Lunes => DiaSemana("Lunes", Lunes, "Espiritual/Conocimiento")
    case Martes => DiaSemana("Martes", Martes, "Desarrollo/Financiero")
    case Miercoles => DiaSemana("Miércoles", Miercoles, "Conocimiento/Relacional")
    case Jueves => DiaSemana("Jueves", Jueves, "Conocimiento/Financiero")
    case Viernes => DiaSemana("Viernes", Viernes, "Relacional/Creativo")
    case Sabado => DiaSemana("Sábado", Sabado, "Desarrollo/Biológico")
    case Domingo => DiaSemana("Domingo", Domingo, "Espiritual/Todas")
  }

  /** The position of an archetype in the week, Monday 0. */
  function Indice(a: Arquetipo): (i: nat)
    ensures i < 7 && Arquetipos[i] == a
  {
    match a
    case Lunes => 0
    case Martes => 1
    case Miercoles => 2
    case Jueves => 3
    case Viernes => 4
    case Sabado => 5
    case Domingo => 6
  }

  /** Each weekday index names a different archetype, and the index of an
      archetype leads back to it. */
  lemma ArquetiposBiyectivos(i: nat)
    requires i < 7
    ensures Indice(Arquetipos[i]) == i
  {
  }

  /** `obtener_dia_semana`: the day named by the date's weekday, Monday
      first. */
  function ObtenerDiaSemana(fecha: Dates.Day): (d: DiaSemana)
    ensures d.arquetipo == Arquetipos[Dates.Weekday(fecha)]
    ensures Indice(d.arquetipo) == Dates.Weekday(fecha)
  {
    ArquetiposBiyectivos(Dates.Weekday(fecha));
    Dia(Arquetipos[Dates.Weekday(fecha)])
  }

  /** Seven days apart is the same weekday; one day later is the next. */
  lemma DiaSemanaPeriodico(fecha: Dates.Day)
    ensures ObtenerDiaSemana(fecha + 7) == ObtenerDiaSemana(fecha)
    ensures Indice(ObtenerDiaSemana(fecha + 1).arquetipo) == (Indice(ObtenerDiaSemana(fecha).arquetipo) + 1) % 7
  {
    Dates.WeekdayPeriodic(fecha);
  }

  // ---------------------------------------------------------------------------
  // Views
  // ---------------------------------------------------------------------------

  /** What the planner is told: both priority dimensions and whether the
      month is sacred. */
  datatype Guia = Guia(dimensionMes: string, dimensionDia: string, esMesSagrado: bool)

  /** A month of the table is flagged sacred exactly when its number is one
      of the sacred numbers and exactly when its quality is sacred. */
  lemma MesDeTabla(mes: MesHijri)
    ensures mes in Meses ==> (mes.esSagrado <==> mes.numero in MesesSagrados)
    ensures mes in Meses ==> (mes.esSagrado <==> mes.cualidad == Sagrado)
  {
    if mes in Meses {
      var k :| 0 <= k < |Meses| && Meses[k] == mes;
      MesesSpec(k);
    }
  }

  /** `_generar_guia_entrelazador`, without its composed texts: the guide
      carries the month's and the day's dimensions, and its sacred flag
      agrees with the month's number and quality. */
  function GenerarGuia(mes: MesHijri, dia: DiaSemana): (g: Guia)
    ensures mes in Meses ==> (g.esMesSagrado <==> mes.numero in MesesSagrados)
    ensures mes in Meses ==> (g.esMesSagrado <==> mes.cualidad == Sagrado)
  {
    MesDeTabla(mes);
    Guia(mes.dimension, dia.dimension, mes.esSagrado)
  }

  datatype VistaSemanal = VistaSemanal(semanaInicio: Dates.Day, mes: MesHijri, dias: seq<(Dates.Day, DiaSemana)>)

  /** `obtener_vista_semanal`: the seven days from the Monday of the
      date's week, with the Hijri month of that Monday (an input). */
  function ObtenerVistaSemanal(fecha: Dates.Day, mesDelLunes: int): (v: VistaSemanal)
    requires 1 <= mesDelLunes <= 12
    ensures v.semanaInicio == Dates.MondayOf(fecha)
    ensures |v.dias| == 7
    ensures forall i :: 0 <= i < 7 ==> v.dias[i].0 == v.semanaInicio + i
    ensures v.mes.numero == mesDelLunes
  {
    var lunes := Dates.MondayOf(fecha);
    VistaSemanal(lunes, ObtenerMes(mesDelLunes),
                 seq(7, i requires 0 <= i < 7 => (lunes + i, ObtenerDiaSemana(lunes + i))))
  }

  /** The week runs Monday to Sunday in order and holds the given date. */
  lemma VistaSemanalSpec(fecha: Dates.Day, mesDelLunes: int, i: nat)
    requires 1 <= mesDelLunes <= 12 && i < 7
    ensures var v := ObtenerVistaSemanal(fecha, mesDelLunes);
      && v.dias[i].1.arquetipo == Arquetipos[i]
      && v.semanaInicio <= fecha < v.semanaInicio + 7
      && v.dias[fecha - v.semanaInicio].0 == fecha
  {
    var lunes := Dates.MondayOf(fecha);
    Dates.MondayOfWeek(lunes, i);
    assert ObtenerVistaSemanal(fecha, mesDelLunes).dias[i].1 == ObtenerDiaSemana(lunes + i);
  }
}

/** The liturgical clock (`CalculadorTiemposLiturgicos`): the day's five
    prayer windows, whether now falls in one, which window to recover
    when none is open, the next Estado Cero and the current moment.

    The astronomical times come from an external library; they are an
    input, as clock times in minutes after midnight. Instants are minutes
    from the start of today's date (so tomorrow's 01:25 is 1525); seconds
    and time zones are left out.
 */
module PrayerWindows {

  import opened Wrappers
  import Liturgy
  import Text

  /** The clock times of one date, each in [0, 1440). */
  datatype Horas = Horas(fajr: int, sunrise: int, dhuhr: int, asr: int, maghrib: int, isha: int, midnight: int)

  /** The astronomical order of a day, with midnight after isha or in the
      small hours. */
  predicate HorasValidas(h: Horas) {
    && 0 <= h.fajr < h.sunrise < h.dhuhr < h.asr < h.maghrib < h.isha < 1440
    && 0 <= h.midnight < 1440
    && (h.midnight < h.fajr || h.isha < h.midnight)
  }

  datatype TiempoRezo = TiempoRezo(inicio: int, fin: int)

  datatype TiemposDia = TiemposDia(fajr: TiempoRezo, dhuhr: TiempoRezo, asr: TiempoRezo, maghrib: TiempoRezo, isha: TiempoRezo)

  function Tiempo(t: TiemposDia, m: Liturgy.Momento): TiempoRezo {
    match m
    case Fajr => t.fajr
    case Dhuhr => t.dhuhr
    case Asr => t.asr
    case Maghrib => t.maghrib
    case Isha => t.isha
  }

  predicate Contiene(w: TiempoRezo, ahora: int) {
    w.inicio <= ahora <= w.fin
  }

  /** `calcular_tiempos_hoy` as written: every window runs from its prayer
      to the next time of the list, each clock time read on the same date,
      isha ending at midnight. */
  function CalcularTiemposEscrito(h: Horas): (t: TiemposDia)
    ensures t.isha == TiempoRezo(h.isha, h.midnight)
  {
    TiemposDia(TiempoRezo(h.fajr, h.sunrise), TiempoRezo(h.dhuhr, h.asr), TiempoRezo(h.asr, h.maghrib),
               TiempoRezo(h.maghrib, h.isha), TiempoRezo(h.isha, h.midnight))
  }

  /** The windows with a midnight earlier on the clock than isha read on
      the following date. */
  function CalcularTiempos(h: Horas): (t: TiemposDia)
    ensures HorasValidas(h) ==> forall m :: Tiempo(t, m).inicio < Tiempo(t, m).fin
  {
    var fin := if h.midnight < h.isha then h.midnight + 1440 else h.midnight;
    TiemposDia(TiempoRezo(h.fajr, h.sunrise), TiempoRezo(h.dhuhr, h.asr), TiempoRezo(h.asr, h.maghrib),
               TiempoRezo(h.maghrib, h.isha), TiempoRezo(h.isha, fin))
  }

  // ---------------------------------------------------------------------------
  // Is it time?
  // ---------------------------------------------------------------------------

  /** The first moment of the list whose window holds now. */
  function PrimeraVentana(t: TiemposDia, ahora: int, ms: seq<Liturgy.Momento>): (r: Option<Liturgy.Momento>)
    ensures r.None? <==> forall k :: 0 <= k < |ms| ==> !Contiene(Tiempo(t, ms[k]), ahora)
    ensures r.Some? ==> exists k :: (0 <= k < |ms| && ms[k] == r.value && Contiene(Tiempo(t, r.value), ahora)
      && forall j :: 0 <= j < k ==> !Contiene(Tiempo(t, ms[j]), ahora))
  {
    if |ms| == 0 then None
    else if Contiene(Tiempo(t, ms[0]), ahora) then Some(ms[0])
    else
      var r := PrimeraVentana(t, ahora, ms[1..]);
      assert forall k :: 1 <= k < |ms| ==> ms[k] == ms[1..][k - 1];
      if r.Some? then
        var k :| 0 <= k < |ms[1..]| && ms[1..][k] == r.value && Contiene(Tiempo(t, r.value), ahora)
          && forall j :: 0 <= j < k ==> !Contiene(Tiempo(t, ms[1..][j]), ahora);
        assert ms[k + 1] == r.value;
        r
      else r
  }

  /** Over the day's moments in order, the first open window is found by
      trying fajr, dhuhr, asr, maghrib and isha in turn. */
  lemma PrimeraVentanaDia(t: TiemposDia, ahora: int)
    ensures PrimeraVentana(t, ahora, Liturgy.Momentos) ==
      if Contiene(t.fajr, ahora) then Some(Liturgy.Fajr)
      else if Contiene(t.dhuhr, ahora) then Some(Liturgy.Dhuhr)
      else if Contiene(t.asr, ahora) then Some(Liturgy.Asr)
      else if Contiene(t.maghrib, ahora) then Some(Liturgy.Maghrib)
      else if Contiene(t.isha, ahora) then Some(Liturgy.Isha)
      else None
  {
    var ms := Liturgy.Momentos;
    assert ms == [Liturgy.Fajr, Liturgy.Dhuhr, Liturgy.Asr, Liturgy.Maghrib, Liturgy.Isha];
    var r := PrimeraVentana(t, ahora, ms);
    if r.Some? {
      var k :| 0 <= k < 5 && ms[k] == r.value && Contiene(Tiempo(t, r.value), ahora)
        && forall j :: 0 <= j < k ==> !Contiene(Tiempo(t, ms[j]), ahora);
      assert k > 0 ==> !Contiene(Tiempo(t, ms[0]), ahora);
      assert k > 1 ==> !Contiene(Tiempo(t, ms[1]), ahora);
      assert k > 2 ==> !Contiene(Tiempo(t, ms[2]), ahora);
      assert k > 3 ==> !Contiene(Tiempo(t, ms[3]), ahora);
    } else {
      assert !Contiene(Tiempo(t, ms[0]), ahora) && !Contiene(Tiempo(t, ms[1]), ahora) && !Contiene(Tiempo(t, ms[2]), ahora)
        && !Contiene(Tiempo(t, ms[3]), ahora) && !Contiene(Tiempo(t, ms[4]), ahora);
    }
  }

  /** The first moment of the list whose window is over. */
  function PrimeraPasada(t: TiemposDia, ahora: int, ms: seq<Liturgy.Momento>): (r: Option<Liturgy.Momento>)
    ensures r.None? <==> forall k :: 0 <= k < |ms| ==> ahora <= Tiempo(t, ms[k]).fin
    ensures r.Some? ==> exists k :: (0 <= k < |ms| && ms[k] == r.value && ahora > Tiempo(t, r.value).fin
      && forall j :: 0 <= j < k ==> ahora <= Tiempo(t, ms[j]).fin)
  {
    if |ms| == 0 then None
    else if ahora > Tiempo(t, ms[0]).fin then Some(ms[0])
    else
      var r := PrimeraPasada(t, ahora, ms[1..]);
      assert forall k :: 1 <= k < |ms| ==> ms[k] == ms[1..][k - 1];
      if r.Some? then
        var k :| 0 <= k < |ms[1..]| && ms[1..][k] == r.value && ahora > Tiempo(t, r.value).fin
          && forall j :: 0 <= j < k ==> ahora <= Tiempo(t, ms[1..][j]).fin;
        assert ms[k + 1] == r.value;
        r
      else r
  }

  /** The recovery order: maghrib, isha, then back to fajr. */
  const OrdenRecuperacion: seq<Liturgy.Momento> :=
    [Liturgy.Maghrib, Liturgy.Isha, Liturgy.Asr, Liturgy.Dhuhr, Liturgy.Fajr]

  datatype Verificacion =
    | EnVentana(momento: Liturgy.Momento, ventana: TiempoRezo, minutosRestantes: int)
    | FueraDeVentana(momento: Liturgy.Momento, ventana: TiempoRezo)
    | NoEsMomento(momento: Liturgy.Momento)

  /** `verificar_momento_estado_cero`: the first window of the day that
      holds now, with the minutes left; else, when recovery is allowed, a
      window already over, with nothing left; else not a moment, naming the
      next one. */
  function VerificarMomento(t: TiemposDia, ahora: int, permitirFuera: bool): (v: Verificacion)
    ensures v.EnVentana? <==> exists m :: Contiene(Tiempo(t, m), ahora)
    ensures v.EnVentana? ==> v.ventana == Tiempo(t, v.momento) && v.minutosRestantes == v.ventana.fin - ahora >= 0
    ensures v.FueraDeVentana? ==> permitirFuera && v.ventana == Tiempo(t, v.momento) && ahora > v.ventana.fin
    ensures v.NoEsMomento? ==> v.momento == ProximoMomento(t, ahora)
  {
    match PrimeraVentana(t, ahora, Liturgy.Momentos)
    case Some(m) => EnVentana(m, Tiempo(t, m), Tiempo(t, m).fin - ahora)
    case None =>
      PrimeraVentanaDia(t, ahora);
      var pasada := if permitirFuera then PrimeraPasada(t, ahora, OrdenRecuperacion) else None;
      match pasada
      case Some(m) => FueraDeVentana(m, Tiempo(t, m))
      case None => NoEsMomento(ProximoMomento(t, ahora))
  }

  /** With the windows of a valid day and isha not yet over, the recovered
      window is the one that ended last. */
  lemma RecuperaLaMasReciente(h: Horas, ahora: int, m: Liturgy.Momento)
    requires HorasValidas(h)
    requires ahora <= CalcularTiempos(h).isha.fin
    requires VerificarMomento(CalcularTiempos(h), ahora, true) == FueraDeVentana(m, Tiempo(CalcularTiempos(h), m))
    ensures forall m' :: ahora > Tiempo(CalcularTiempos(h), m').fin ==>
      Tiempo(CalcularTiempos(h), m').fin <= Tiempo(CalcularTiempos(h), m).fin
  {
    var t := CalcularTiempos(h);
    PrimeraVentanaDia(t, ahora);
    var k :| 0 <= k < 5 && OrdenRecuperacion[k] == m && ahora > Tiempo(t, m).fin
      && forall j :: 0 <= j < k ==> ahora <= Tiempo(t, OrdenRecuperacion[j]).fin;
    assert OrdenRecuperacion == [Liturgy.Maghrib, Liturgy.Isha, Liturgy.Asr, Liturgy.Dhuhr, Liturgy.Fajr];
  }

  // ---------------------------------------------------------------------------
  // Next Estado Cero
  // ---------------------------------------------------------------------------

  /** The moment of the list that starts earliest after now, the first of
      several starting together. */
  function Siguiente(t: TiemposDia, ahora: int, ms: seq<Liturgy.Momento>): (r: Option<Liturgy.Momento>)
    ensures r.None? <==> forall k :: 0 <= k < |ms| ==> Tiempo(t, ms[k]).inicio <= ahora
    ensures r.Some? ==> r.value in ms && Tiempo(t, r.value).inicio > ahora
    ensures r.Some? ==> forall k :: 0 <= k < |ms| && Tiempo(t, ms[k]).inicio > ahora ==>
      Tiempo(t, r.value).inicio <= Tiempo(t, ms[k]).inicio
  {
    if |ms| == 0 then None
    else
      var r := Siguiente(t, ahora, ms[1..]);
      assert forall k :: 1 <= k < |ms| ==> ms[k] == ms[1..][k - 1];
      var i := Tiempo(t, ms[0]).inicio;
      if i > ahora && (r.None? || i <= Tiempo(t, r.value).inicio) then Some(ms[0]) else r
  }

  /** The moment `proximo_estado_cero` names: the earliest start after now,
      or fajr (of tomorrow) when none is left today. */
  function ProximoMomento(t: TiemposDia, ahora: int): Liturgy.Momento {
    match Siguiente(t, ahora, Liturgy.Momentos)
    case Some(m) => m
    case None => Liturgy.Fajr
  }

  /** Over the whole day, `Siguiente` finds the earliest start after now
      among all five moments, and nothing exactly when every prayer has
      begun. */
  lemma SiguienteDia(t: TiemposDia, ahora: int)
    ensures Siguiente(t, ahora, Liturgy.Momentos).None? <==> forall m :: Tiempo(t, m).inicio <= ahora
    ensures Siguiente(t, ahora, Liturgy.Momentos).Some? ==> forall m :: Tiempo(t, m).inicio > ahora ==>
      Tiempo(t, Siguiente(t, ahora, Liturgy.Momentos).value).inicio <= Tiempo(t, m).inicio
  {
    var r := Siguiente(t, ahora, Liturgy.Momentos);
    forall m
      ensures r.None? ==> Tiempo(t, m).inicio <= ahora
      ensures r.Some? && Tiempo(t, m).inicio > ahora ==> Tiempo(t, r.value).inicio <= Tiempo(t, m).inicio
    {
      assert Liturgy.Momentos[Liturgy.Orden(m)] == m;
    }
  }

  datatype Proximo = Proximo(momento: Liturgy.Momento, hora: int, horas: int, minutos: int, countdown: string)

  /** `proximo_estado_cero`, with tomorrow's fajr clock time an input: the
      start and a countdown in whole hours and minutes. */
  function ProximoEstadoCero(t: TiemposDia, ahora: int, fajrManana: int): (p: Proximo)
    requires 0 <= ahora < 1440 && 0 <= fajrManana < 1440
    ensures p.momento == ProximoMomento(t, ahora)
    ensures p.hora > ahora
    ensures forall m :: Tiempo(t, m).inicio > ahora ==> p.hora <= Tiempo(t, m).inicio
    ensures (forall m :: Tiempo(t, m).inicio <= ahora) ==> p.hora == fajrManana + 1440
    ensures p.horas * 60 + p.minutos == p.hora - ahora && 0 <= p.minutos < 60 && p.horas >= 0
  {
    SiguienteDia(t, ahora);
    var hora := match Siguiente(t, ahora, Liturgy.Momentos)
      case Some(m) => Tiempo(t, m).inicio
      case None => fajrManana + 1440;
    var delta := hora - ahora;
    Proximo(ProximoMomento(t, ahora), hora, delta / 60, delta % 60,
            Text.NatToString(delta / 60) + "h " + Text.NatToString(delta % 60) + "m")
  }

  // ---------------------------------------------------------------------------
  // Current moment
  // ---------------------------------------------------------------------------

  /** The moment of the day by the prayer starts: before fajr is still the
      night of isha. */
  function PorLimites(t: TiemposDia, ahora: int): Liturgy.Momento {
    if ahora < t.fajr.inicio then Liturgy.Isha
    else if ahora < t.dhuhr.inicio then Liturgy.Fajr
    else if ahora < t.asr.inicio then Liturgy.Dhuhr
    else if ahora < t.maghrib.inicio then Liturgy.Asr
    else if ahora < t.isha.inicio then Liturgy.Maghrib
    else Liturgy.Isha
  }

  /** `momento_actual`: the open window's moment, else the moment by the
      prayer starts. */
  function MomentoActual(t: TiemposDia, ahora: int): (m: Liturgy.Momento)
    ensures (forall m' :: !Contiene(Tiempo(t, m'), ahora)) ==> m == PorLimites(t, ahora)
  {
    match VerificarMomento(t, ahora, false)
    case EnVentana(m, _, _) => m
    case FueraDeVentana(m, _) => m
    case NoEsMomento(_) => PorLimites(t, ahora)
  }

  /** On a valid day the current moment is the one whose span holds now,
      except at the very minute asr, maghrib or isha begins: the window
      before it is closed at its end and still claims that minute. */
  lemma MomentoActualSpec(h: Horas, ahora: int)
    requires HorasValidas(h) && 0 <= ahora < 1440
    ensures ahora != h.asr && ahora != h.maghrib && ahora != h.isha ==>
      MomentoActual(CalcularTiempos(h), ahora) == PorLimites(CalcularTiempos(h), ahora)
    ensures ahora == h.asr ==> MomentoActual(CalcularTiempos(h), ahora) == Liturgy.Dhuhr
    ensures ahora == h.maghrib ==> MomentoActual(CalcularTiempos(h), ahora) == Liturgy.Asr
    ensures ahora == h.isha ==> MomentoActual(CalcularTiempos(h), ahora) == Liturgy.Maghrib
  {
    PrimeraVentanaDia(CalcularTiempos(h), ahora);
  }

  // ---------------------------------------------------------------------------
  // The isha window read on the same date
  // ---------------------------------------------------------------------------

  /** With midnight at 01:25 the written isha window runs from 21:09 back
      to 01:25 of the same date: at 22:00 no window is open though isha
      is, and at 10:00 recovery offers isha, which has not yet happened
      today, instead of the fajr window that has. */
  lemma IshaEscritaContraejemplo()
    ensures var h := Horas(406, 499, 842, 1033, 1183, 1269, 85);
      && HorasValidas(h)
      && PrimeraVentana(CalcularTiemposEscrito(h), 1320, Liturgy.Momentos) == None
      && PrimeraVentana(CalcularTiempos(h), 1320, Liturgy.Momentos) == Some(Liturgy.Isha)
      && VerificarMomento(CalcularTiemposEscrito(h), 600, true).momento == Liturgy.Isha
      && VerificarMomento(CalcularTiempos(h), 600, true).momento == Liturgy.Fajr
  {
    var h := Horas(406, 499, 842, 1033, 1183, 1269, 85);
    var te, tc := CalcularTiemposEscrito(h), CalcularTiempos(h);
    PrimeraVentanaDia(te, 1320);
    PrimeraVentanaDia(tc, 1320);
    PrimeraVentanaDia(te, 600);
    PrimeraVentanaDia(tc, 600);
    assert OrdenRecuperacion == [Liturgy.Maghrib, Liturgy.Isha, Liturgy.Asr, Liturgy.Dhuhr, Liturgy.Fajr];
  }

  /** Read on the following date, the isha window holds every instant
      after isha begins to the end of the day (the minute isha begins
      still belongs to maghrib). */
  lemma IshaCubreLaNoche(h: Horas, ahora: int)
    requires HorasValidas(h) && h.midnight < h.fajr
    requires h.isha < ahora < 1440
    ensures VerificarMomento(CalcularTiempos(h), ahora, false) ==
      EnVentana(Liturgy.Isha, CalcularTiempos(h).isha, h.midnight + 1440 - ahora)
  {
    PrimeraVentanaDia(CalcularTiempos(h), ahora);
  }

  /** As written, with midnight in the small hours the isha window never
      holds any instant. */
  lemma IshaEscritaVacia(h: Horas, ahora: int)
    requires HorasValidas(h) && h.midnight < h.fajr
    ensures !Contiene(CalcularTiemposEscrito(h).isha, ahora)
  {
  }

  /** As written the current moment is the same as with isha read on the
      following date: an empty isha window leaves the night to the prayer
      starts, which name isha too. So the moment holds the span of now,
      except at the minute asr, maghrib or isha begins, which the window
      before it still claims. */
  lemma MomentoActualEscritoSpec(h: Horas, ahora: int)
    requires HorasValidas(h) && 0 <= ahora < 1440
    ensures MomentoActual(CalcularTiemposEscrito(h), ahora) == MomentoActual(CalcularTiempos(h), ahora)
    ensures ahora != h.asr && ahora != h.maghrib && ahora != h.isha ==>
      MomentoActual(CalcularTiemposEscrito(h), ahora) == PorLimites(CalcularTiemposEscrito(h), ahora)
    ensures ahora == h.asr ==> MomentoActual(CalcularTiemposEscrito(h), ahora) == Liturgy.Dhuhr
    ensures ahora == h.maghrib ==> MomentoActual(CalcularTiemposEscrito(h), ahora) == Liturgy.Asr
    ensures ahora == h.isha ==> MomentoActual(CalcularTiemposEscrito(h), ahora) == Liturgy.Maghrib
  {
    MomentoActualSpec(h, ahora);
    PrimeraVentanaDia(CalcularTiemposEscrito(h), ahora);
  }

  /** As written, with midnight in the small hours, whenever no window is
      open later than midnight and before isha begins, recovery offers the
      isha window, which has not begun today. */
  lemma RecuperaIshaEscrita(h: Horas, ahora: int)
    requires HorasValidas(h) && h.midnight < h.fajr
    requires h.midnight < ahora <= h.isha
    requires forall m :: !Contiene(Tiempo(CalcularTiemposEscrito(h), m), ahora)
    ensures VerificarMomento(CalcularTiemposEscrito(h), ahora, true) == FueraDeVentana(Liturgy.Isha, TiempoRezo(h.isha, h.midnight))
  {
    var t := CalcularTiemposEscrito(h);
    PrimeraVentanaDia(t, ahora);
    var ms := OrdenRecuperacion;
    assert ms == [Liturgy.Maghrib, Liturgy.Isha, Liturgy.Asr, Liturgy.Dhuhr, Liturgy.Fajr];
    var r := PrimeraPasada(t, ahora, ms);
    assert ahora > Tiempo(t, ms[1]).fin;
    var k :| 0 <= k < 5 && ms[k] == r.value && ahora > Tiempo(t, r.value).fin
      && forall j :: 0 <= j < k ==> ahora <= Tiempo(t, ms[j]).fin;
    assert ahora <= Tiempo(t, ms[0]).fin;
    assert k == 1;
  }
}

/** The seven-layer context orchestrator (`Orquestador7Capas`): the day's
    energy from the hour, the biological layer's defaults, the social
    layer's defaults, the list of active layers and the relevant life
    domains.

    The clock, the profile file and the cosmic calculator are outside the
    model: the hour, the weekday and each layer's `activa` flag are inputs.
 */
module SevenLayers {

  import opened Wrappers
  import Seqs
  import Vitality

  // ---------------------------------------------------------------------------
  // Layer 1: the physical layer
  // ---------------------------------------------------------------------------

  datatype EnergiaDia = Emergente | Ascendente | Cenital | Descendente | Crepuscular | Nocturna

  /** The day's energy in the order of the day. */
  const Energias: seq<EnergiaDia> := [Emergente, Ascendente, Cenital, Descendente, Crepuscular, Nocturna]

  /** The first hour of each band; the night wraps past midnight up to 5. */
  function Desde(e: EnergiaDia): nat {
    match e
    case Emergente => 5
    case Ascendente => 9
    case Cenital => 12
    case Descendente => 15
    case Crepuscular => 18
    case Nocturna => 21
  }

  /** `energia_dia` of `recopilar_capa_1_fisica`. */
  function EnergiaDe(hora: int): (e: EnergiaDia) {
    if 5 <= hora < 9 then Emergente
    else if 9 <= hora < 12 then Ascendente
    else if 12 <= hora < 15 then Cenital
    else if 15 <= hora < 18 then Descendente
    else if 18 <= hora < 21 then Crepuscular
    else Nocturna
  }

  /** The `contexto_temporal` that goes with each energy. */
  function ContextoTemporal(e: EnergiaDia): string {
    match e
    case Emergente => "inicio_dia"
    case Ascendente => "mañana"
    case Cenital => "mediodia"
    case Descendente => "tarde"
    case Crepuscular => "atardecer"
    case Nocturna => "noche"
  }

  /** An hour lies in an energy's band: from its first hour to the next
      band's first hour. */
  predicate EnBanda(hora: int, e: EnergiaDia) {
    match e
    case Nocturna => hora >= 21 || hora < 5
    case _ =>
      var k := if e == Emergente then 1 else if e == Ascendente then 2 else if e == Cenital then 3
        else if e == Descendente then 4 else 5;
      Desde(e) <= hora < Desde(Energias[k])
  }

  /** Each hour gets the energy whose band holds it, and only that one. */
  lemma EnergiaDeSpec(hora: int, e: EnergiaDia)
    ensures EnergiaDe(hora) == e <==> EnBanda(hora, e)
  {
  }

  /** Each energy has its own temporal context. */
  lemma ContextoInyectivo(a: EnergiaDia, b: EnergiaDia)
    ensures ContextoTemporal(a) == ContextoTemporal(b) ==> a == b
  {
  }

  /** A layer's summary: its name and whether it is active. */
  datatype Capa = Capa(nombre: string, activa: bool)

  /** Layer 1, always active. */
  function CapaFisica(): (c: Capa)
    ensures c.activa
  {
    Capa("1_fisica", true)
  }

  // ---------------------------------------------------------------------------
  // Layer 2: the social layer
  // ---------------------------------------------------------------------------

  datatype CapaSocial = CapaSocial(noNegociables: seq<string>, proyectos: seq<string>, activa: bool)

  const Entrenamiento: string := "Entrenamiento"
  const FajrEstadoCero: string := "Fajr Estado Cero"
  const DhuhrEstadoCero: string := "Dhuhr Estado Cero"
  const ProyectoPorDefecto: string := "Campo Sagrado MVP"

  /** Monday, Wednesday and Friday. */
  predicate DiaDeEntrenamiento(diaSemana: nat) {
    diaSemana == 0 || diaSemana == 2 || diaSemana == 4
  }

  /** `recopilar_capa_2_social`: training on Mondays, Wednesdays and Fridays
      (weekday 0, 2, 4), the two Estado Cero sessions every day, one
      default project. */
  function RecopilarSocial(diaSemana: nat): (c: CapaSocial)
    requires diaSemana < 7
    ensures c.proyectos == [ProyectoPorDefecto]
    ensures |c.noNegociables| == 2 || |c.noNegociables| == 3
    ensures |c.noNegociables| == 3 <==> DiaDeEntrenamiento(diaSemana)
    ensures |c.noNegociables| == 3 ==> c.noNegociables[0] == Entrenamiento
    ensures c.noNegociables[|c.noNegociables| - 2..] == [FajrEstadoCero, DhuhrEstadoCero]
  {
    var nn := if DiaDeEntrenamiento(diaSemana) then [Entrenamiento, FajrEstadoCero, DhuhrEstadoCero]
              else [FajrEstadoCero, DhuhrEstadoCero];
    assert nn[|nn| - 2..] == [FajrEstadoCero, DhuhrEstadoCero];
    var proyectos := [ProyectoPorDefecto];
    CapaSocial(nn, proyectos, |proyectos| > 0 || |nn| > 2)
  }

  /** The default project makes the social layer active every day. */
  lemma SocialSiempreActiva(diaSemana: nat)
    requires diaSemana < 7
    ensures RecopilarSocial(diaSemana).activa
  {
  }

  // ---------------------------------------------------------------------------
  // Layer 3: the biological layer
  // ---------------------------------------------------------------------------

  /** `x or 3`: a missing value and 0 both fall back to 3. */
  function OTres(x: Option<int>): (r: int)
    ensures x.Some? && x.value != 0 ==> r == x.value
    ensures x.None? || x.value == 0 ==> r == 3
  {
    match x
    case None => 3
    case Some(v) => if v == 0 then 3 else v
  }

  /** `resonancia or "neutral"`: a missing or empty resonance is neutral. */
  function ResonanciaOrNeutral(resonancia: string): (r: string)
    ensures |resonancia| == 0 ==> r == "neutral"
    ensures |resonancia| > 0 ==> r == resonancia
  {
    if |resonancia| == 0 then "neutral" else resonancia
  }

  datatype CapaBiologica = CapaBiologica(energia: int, sueno: int, resonancia: string, vitalidad: real, necesitaAtencion: bool, activa: bool)

  /** `recopilar_capa_3_biologica`: the defaults filled in, then the quick
      biological state built from them; a missing resonance is the empty
      string. */
  function RecopilarBiologica(energia: Option<int>, sueno: Option<int>, resonancia: string): (c: CapaBiologica)
    ensures c.energia == OTres(energia) && c.sueno == OTres(sueno)
    ensures var e := Vitality.CrearEstadoRapido(c.energia, c.sueno, c.resonancia);
      c.vitalidad == Vitality.Score(e) && c.activa == Vitality.Activa(e) && c.necesitaAtencion == Vitality.NecesitaAtencion(e)
  {
    var en, su, re := OTres(energia), OTres(sueno), ResonanciaOrNeutral(resonancia);
    var e := Vitality.CrearEstadoRapido(en, su, re);
    CapaBiologica(en, su, re, Vitality.Score(e), Vitality.NecesitaAtencion(e), Vitality.Activa(e))
  }

  /** With nothing given the layer is a medium state: vitality 5.5, no
      attention needed, and active, since 5.5 is below 6. */
  lemma BiologicaPorDefecto()
    ensures var c := RecopilarBiologica(None, None, "");
      && c.energia == 3 && c.sueno == 3 && c.resonancia == "neutral"
      && c.vitalidad == 5.5 && !c.necesitaAtencion && c.activa
  {
  }

  /** Zero counts as missing: it gives the same layer as leaving the value
      out. */
  lemma CeroEsAusente(sueno: Option<int>, resonancia: string)
    ensures RecopilarBiologica(Some(0), sueno, resonancia) == RecopilarBiologica(None, sueno, resonancia)
  {
  }

  // ---------------------------------------------------------------------------
  // Active layers
  // ---------------------------------------------------------------------------

  /** `[nombre for nombre, data in capas.items() if data.get("activa")]`. */
  function CapasActivas(capas: seq<Capa>): (r: seq<string>)
    ensures |r| <= |capas|
  {
    if |capas| == 0 then []
    else (if capas[0].activa then [capas[0].nombre] else []) + CapasActivas(capas[1..])
  }

  function EsActiva(): Capa -> bool {
    (c: Capa) => c.activa
  }

  function Nombres(capas: seq<Capa>): (r: seq<string>)
    ensures |r| == |capas| && forall i :: 0 <= i < |capas| ==> r[i] == capas[i].nombre
  {
    seq(|capas|, i requires 0 <= i < |capas| => capas[i].nombre)
  }

  /** The active layers are exactly the names of the flagged layers, in the
      layers' order, and `num_capas_activas` counts the flagged layers. */
  lemma {:induction false} CapasActivasSpec(capas: seq<Capa>)
    ensures CapasActivas(capas) == Nombres(Seqs.Filter(capas, EsActiva()))
    ensures |CapasActivas(capas)| == Seqs.CountIf(capas, EsActiva())
  {
    if |capas| > 0 {
      CapasActivasSpec(capas[1..]);
      var f := Seqs.Filter(capas[1..], EsActiva());
      if capas[0].activa {
        assert Seqs.Filter(capas, EsActiva()) == [capas[0]] + f;
        assert Nombres([capas[0]] + f) == [capas[0].nombre] + Nombres(f);
      } else {
        assert Seqs.Filter(capas, EsActiva()) == f;
      }
    }
  }

  // ---------------------------------------------------------------------------
  // Relevant domains
  // ---------------------------------------------------------------------------

  /** What `identificar_dominios_relevantes` reads from the layers. */
  datatype Contexto = Contexto(
    momento: string, biologicaActiva: bool, emocionalActiva: bool, funcionActiva: string,
    cosmicaActiva: bool, socialActiva: bool, proyectos: seq<string>, noNegociables: seq<string>)

  /** The checks in order: whether each domain applies, and its name. */
  function Reglas(c: Contexto): (r: seq<(bool, string)>)
    ensures |r| == 6
  {
    [ (c.biologicaActiva, "cuerpo"),
      (c.emocionalActiva, "emoción"),
      (c.funcionActiva in ["Ne", "Ti"], "mente"),
      (c.cosmicaActiva, "espiritualidad"),
      (c.socialActiva && |c.proyectos| > 0, "trabajo"),
      (c.socialActiva && |c.noNegociables| > 0, "salud") ]
  }

  /** The names of the checks that apply, in order. */
  function Aplicadas(rs: seq<(bool, string)>): (r: seq<string>)
    ensures |r| == 0 <==> forall i :: 0 <= i < |rs| ==> !rs[i].0
    ensures forall x :: x in r ==> exists i :: 0 <= i < |rs| && rs[i].0 && rs[i].1 == x
  {
    if |rs| == 0 then []
    else
      var resto := Aplicadas(rs[1..]);
      assert forall i :: 0 <= i < |rs| - 1 ==> rs[1..][i] == rs[i + 1];
      (if rs[0].0 then [rs[0].1] else []) + resto
  }

  /** Checks with distinct names give distinct domains. */
  lemma {:induction false} AplicadasDistintas(rs: seq<(bool, string)>)
    requires forall i, j :: 0 <= i < j < |rs| ==> rs[i].1 != rs[j].1
    ensures Seqs.Distinct(Aplicadas(rs))
  {
    if |rs| > 0 {
      assert forall i :: 0 <= i < |rs| - 1 ==> rs[1..][i] == rs[i + 1];
      AplicadasDistintas(rs[1..]);
      assert rs[0].1 !in Aplicadas(rs[1..]);
    }
  }

  /** The domains the active layers point at, in the order they are
      checked. */
  function Senalados(c: Contexto): seq<string> {
    Aplicadas(Reglas(c))
  }

  /** The domains of each moment when no layer points anywhere. */
  function PorMomento(momento: string): (r: seq<string>)
    ensures |r| == 2
  {
    if momento == "fajr" then ["espiritualidad", "cuerpo"]
    else if momento == "dhuhr" then ["trabajo", "mente"]
    else if momento == "asr" then ["creatividad", "emoción"]
    else if momento == "maghrib" then ["relaciones", "integración"]
    else if momento == "isha" then ["descanso", "reflexión"]
    else ["existencia", "presencia"]
  }

  /** `identificar_dominios_relevantes`: the first three pointed-at
      domains, or the moment's two when there are none. */
  function IdentificarDominios(c: Contexto): (r: seq<string>)
    ensures 1 <= |r| <= 3
    ensures |Senalados(c)| > 0 ==> r == Seqs.Take(Senalados(c), 3)
    ensures |Senalados(c)| == 0 ==> r == PorMomento(c.momento)
  {
    var d := Senalados(c);
    if |d| == 0 then PorMomento(c.momento) else Seqs.Take(d, 3)
  }

  /** The fallback is taken exactly when no layer points at a domain: no
      active biological, emotional, cosmic or (non-empty) social layer, and
      a mental function other than Ne or Ti. */
  lemma SinSenalesSpec(c: Contexto)
    ensures |Senalados(c)| == 0 <==>
      && !c.biologicaActiva && !c.emocionalActiva && c.funcionActiva !in ["Ne", "Ti"] && !c.cosmicaActiva
      && !(c.socialActiva && (|c.proyectos| > 0 || |c.noNegociables| > 0))
  {
    var rs := Reglas(c);
    assert rs[0].0 == c.biologicaActiva && rs[1].0 == c.emocionalActiva && rs[3].0 == c.cosmicaActiva;
    assert rs[2].0 == (c.funcionActiva in ["Ne", "Ti"]);
    assert rs[4].0 == (c.socialActiva && |c.proyectos| > 0);
    assert rs[5].0 == (c.socialActiva && |c.noNegociables| > 0);
  }

  /** A domain is pointed at only when its check applies. */
  lemma SenaladoSoloSiAplica(c: Contexto, x: string)
    requires x in Senalados(c)
    ensures x == "cuerpo" ==> c.biologicaActiva
    ensures x == "mente" ==> c.funcionActiva in ["Ne", "Ti"]
    ensures x == "trabajo" ==> c.socialActiva && |c.proyectos| > 0
    ensures x == "salud" ==> c.socialActiva && |c.noNegociables| > 0
  {
  }

  /** An active biological layer always puts `cuerpo` first. */
  lemma CuerpoPrimero(c: Contexto)
    requires c.biologicaActiva
    ensures IdentificarDominios(c)[0] == "cuerpo"
  {
    assert Senalados(c)[0] == "cuerpo";
  }

  /** The pointed-at domains never repeat, so neither do the chosen ones. */
  lemma SenaladosDistintos(c: Contexto)
    ensures Seqs.Distinct(IdentificarDominios(c))
  {
    var rs := Reglas(c);
    AplicadasDistintas(rs);
    var d := Senalados(c);
    var r := IdentificarDominios(c);
    if |d| > 0 {
      assert r == d[..|r|];
    }
  }
}

/** Where notes go in the Obsidian vault (`ObsidianStructure`): the Estado
    Cero notes under their domain's folder by date, the daily mirror, the
    audit trail and the detected patterns.

    A path is the sequence of its components below the vault root.
 */
module VaultPaths {

  import Text
  import Dates

  type Ruta = seq<string>

  const CarpetaPorDefecto := "10_Biologia_Ritmos"

  /** `self.dominios`: the folder of each life domain. */
  function CarpetaDominio(dominio: string): (r: string)
    ensures r in ["10_Biologia_Ritmos", "20_Mente_Aprendizaje", "30_Alma_Proposito", "40_Tecnologia", "50_Proyecto_Economia"]
    ensures dominio !in ["biologia", "mente", "alma", "tecnologia", "economia"] ==> r == CarpetaPorDefecto
  {
    if dominio == "biologia" then "10_Biologia_Ritmos"
    else if dominio == "mente" then "20_Mente_Aprendizaje"
    else if dominio == "alma" then "30_Alma_Proposito"
    else if dominio == "tecnologia" then "40_Tecnologia"
    else if dominio == "economia" then "50_Proyecto_Economia"
    else CarpetaPorDefecto
  }

  /** `_inferir_dominio_desde_momento`: the predominant domain of a
      liturgical moment, matched case-insensitively. */
  function InferirDominio(momento: string): (r: string)
    ensures r in ["biologia", "economia", "mente", "alma"]
    ensures Text.Lower(momento) == "dhuhr" <==> r == "economia"
    ensures Text.Lower(momento) == "asr" <==> r == "mente"
    ensures Text.Lower(momento) == "maghrib" <==> r == "alma"
  {
    var m := Text.Lower(momento);
    if m == "fajr" then "biologia"
    else if m == "dhuhr" then "economia"
    else if m == "asr" then "mente"
    else if m == "maghrib" then "alma"
    else if m == "isha" then "biologia"
    else "biologia"
  }

  /** Moments that differ only in case map to the same domain. */
  lemma InferirIgnoraMayusculas(a: string, b: string)
    requires Text.Lower(a) == Text.Lower(b)
    ensures InferirDominio(a) == InferirDominio(b)
  {
  }

  /** `strftime("%Y")`, `"%m"`, `"%d"`: zero-padded components. */
  function Anio(f: Dates.CivilDate): string { Text.PadNat(f.year, 4) }
  function Mes(f: Dates.CivilDate): string { Text.PadNat(f.month, 2) }
  function Dia(f: Dates.CivilDate): string { Text.PadNat(f.day, 2) }

  /** The domain used for a state note: the given one unless it is missing
      or empty, else the one inferred from the moment. */
  function DominioEfectivo(momento: string, dominio: string): string {
    if |dominio| == 0 then InferirDominio(momento) else dominio
  }

  /** `get_estado_cero_path`; a missing domain is the empty string. */
  function RutaEstadoCero(fecha: Dates.CivilDate, momento: string, dominio: string): (r: Ruta)
    ensures |r| == 5 && r[1] == "Estados_Cero"
    ensures r[0] == CarpetaDominio(DominioEfectivo(momento, dominio))
    ensures r[4] == Dia(fecha) + "-" + momento + ".md"
  {
    [CarpetaDominio(DominioEfectivo(momento, dominio)), "Estados_Cero", Anio(fecha), Mes(fecha), Dia(fecha) + "-" + momento + ".md"]
  }

  /** `get_espejo_diario_path`. */
  function RutaEspejo(fecha: Dates.CivilDate): (r: Ruta)
    ensures |r| == 4 && r[0] == "80_Espejos_Diarios"
    ensures r[3] == Dia(fecha) + "-Espejo-Diario.md"
  {
    ["80_Espejos_Diarios", Anio(fecha), Mes(fecha), Dia(fecha) + "-Espejo-Diario.md"]
  }

  /** `get_audit_trail_path`: `strftime("%Y-%m-%d")`. */
  function RutaAudit(fecha: Dates.CivilDate): (r: Ruta)
    ensures |r| == 3 && r[0] == "00_System" && r[1] == "Audit_Trail"
    ensures r[2] == Anio(fecha) + "-" + Mes(fecha) + "-" + Dia(fecha) + ".md"
  {
    ["00_System", "Audit_Trail", Anio(fecha) + "-" + Mes(fecha) + "-" + Dia(fecha) + ".md"]
  }

  /** `get_pattern_path`. */
  function RutaPatron(dominio: string, patron: string): (r: Ruta)
    ensures |r| == 3 && r[1] == "Patrones" && r[2] == patron + ".md"
    ensures r[0] == CarpetaDominio(dominio)
  {
    [CarpetaDominio(dominio), "Patrones", patron + ".md"]
  }

  // ---------------------------------------------------------------------------
  // Reading a date back
  // ---------------------------------------------------------------------------

  /** Reads a component of decimal digits. */
  function LeerNumero(s: string): (n: int) {
    if forall i :: 0 <= i < |s| ==> Text.IsDigit(s[i]) then Text.ParseDigits(s) else -1
  }

  /** The components of a valid date have fixed widths: four, two and two. */
  lemma PaddedWidths(f: Dates.CivilDate)
    requires Dates.ValidDate(f)
    ensures |Anio(f)| == 4 && |Mes(f)| == 2 && |Dia(f)| == 2
  {
    assert Text.Pow10(2) == 100;
    assert Text.Pow10(4) == 10000;
    Text.PadNatExactWidth(f.year, 4);
    Text.PadNatExactWidth(f.month, 2);
    Text.PadNatExactWidth(f.day, 2);
  }

  /** The date an Estado Cero path was filed under, read from its year and
      month folders and its file name. */
  function FechaDeRuta(r: Ruta): (f: Dates.CivilDate)
    requires |r| == 5 && |r[4]| >= 2
  {
    var y, m, d := LeerNumero(r[2]), LeerNumero(r[3]), LeerNumero(r[4][..2]);
    Dates.CivilDate(if y < 0 then 0 else y, if m < 0 then 0 else m, if d < 0 then 0 else d)
  }

  /** A valid date is read back from the path of its Estado Cero note: the
      path names the date, and only that date. */
  lemma FechaRoundTrip(fecha: Dates.CivilDate, momento: string, dominio: string)
    requires Dates.ValidDate(fecha)
    ensures var r := RutaEstadoCero(fecha, momento, dominio);
      |r[4]| >= 2 && FechaDeRuta(r) == fecha
  {
    PaddedWidths(fecha);
    var r := RutaEstadoCero(fecha, momento, dominio);
    assert r[4][..2] == Dia(fecha);
    Text.PadNatRoundTrip(fecha.year, 4);
    Text.PadNatRoundTrip(fecha.month, 2);
    Text.PadNatRoundTrip(fecha.day, 2);
  }

  /** Two Estado Cero notes share a path only when they are for the same
      date and the same moment. Paths are component sequences, so this is
      about `pathlib` paths only for moments without `/`. */
  lemma RutaEstadoCeroInjective(f1: Dates.CivilDate, m1: string, d1: string, f2: Dates.CivilDate, m2: string, d2: string)
    requires Dates.ValidDate(f1) && Dates.ValidDate(f2)
    requires RutaEstadoCero(f1, m1, d1) == RutaEstadoCero(f2, m2, d2)
    ensures f1 == f2 && m1 == m2
  {
    FechaRoundTrip(f1, m1, d1);
    FechaRoundTrip(f2, m2, d2);
    PaddedWidths(f1);
    var a, b := RutaEstadoCero(f1, m1, d1)[4], RutaEstadoCero(f2, m2, d2)[4];
    assert a[3..|a| - 3] == m1;
    assert b[3..|b| - 3] == m2;
  }

  /** Mirror paths and audit paths are also one per date. */
  lemma RutasPorFechaInjective(f1: Dates.CivilDate, f2: Dates.CivilDate)
    requires Dates.ValidDate(f1) && Dates.ValidDate(f2)
    ensures RutaEspejo(f1) == RutaEspejo(f2) ==> f1 == f2
    ensures RutaAudit(f1) == RutaAudit(f2) ==> f1 == f2
  {
    PaddedWidths(f1);
    PaddedWidths(f2);
    Text.PadNatRoundTrip(f1.year, 4);
    Text.PadNatRoundTrip(f1.month, 2);
    Text.PadNatRoundTrip(f1.day, 2);
    Text.PadNatRoundTrip(f2.year, 4);
    Text.PadNatRoundTrip(f2.month, 2);
    Text.PadNatRoundTrip(f2.day, 2);
    if RutaEspejo(f1) == RutaEspejo(f2) {
      assert RutaEspejo(f1)[3][..2] == Dia(f1);
      assert RutaEspejo(f2)[3][..2] == Dia(f2);
    }
    if RutaAudit(f1) == RutaAudit(f2) {
      var a, b := RutaAudit(f1)[2], RutaAudit(f2)[2];
      assert a[..4] == Anio(f1) && a[5..7] == Mes(f1) && a[8..10] == Dia(f1);
      assert b[..4] == Anio(f2) && b[5..7] == Mes(f2) && b[8..10] == Dia(f2);
    }
  }

  /** With no domain given, fajr and isha notes go to the biology folder,
      dhuhr to economy, asr to mind and maghrib to soul, whatever the case. */
  lemma CarpetaPorMomento(fecha: Dates.CivilDate, momento: string)
    ensures var c := RutaEstadoCero(fecha, momento, "")[0];
      && (Text.Lower(momento) in ["fajr", "isha"] ==> c == "10_Biologia_Ritmos")
      && (Text.Lower(momento) == "dhuhr" ==> c == "50_Proyecto_Economia")
      && (Text.Lower(momento) == "asr" ==> c == "20_Mente_Aprendizaje")
      && (Text.Lower(momento) == "maghrib" ==> c == "30_Alma_Proposito")
      && (Text.Lower(momento) !in ["dhuhr", "asr", "maghrib"] ==> c == CarpetaPorDefecto)
  {
  }
}

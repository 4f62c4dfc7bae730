/** The guardian agent's daily checks (`Guardian`): the system health of the
    day and the judgement of how well the day's decree was carried out.

    The database queries are outside the model: the counts they return are
    inputs. Percentages are reals.
 */
module Guardian {

  import Arith

  // ---------------------------------------------------------------------------
  // Daily health
  // ---------------------------------------------------------------------------

  datatype Salud = Buena | RequiereAtencion

  datatype Monitoreo = Monitoreo(estadosCero: nat, cumplidos: nat, total: nat, porcentaje: real, salud: Salud)

  /** `sum(1 for nn in no_neg_hoy if nn.completado)`. */
  function Cumplidos(completados: seq<bool>): (n: nat)
    ensures n <= |completados|
  {
    if |completados| == 0 then 0 else (if completados[0] then 1 else 0) + Cumplidos(completados[1..])
  }

  /** `cumplidos / total * 100`, and 0 with no non-negotiable. */
  function Porcentaje(cumplidos: nat, total: nat): (p: real)
    ensures total == 0 ==> p == 0.0
  {
    if total > 0 then cumplidos as real / total as real * 100.0 else 0.0
  }

  /** `monitorear_salud_sistema` on the day's counts: health is good when
      some Estado Cero was done and more than 70% of the non-negotiables
      were kept, dividing by at least 1. */
  function MonitorearSalud(estadosHoy: nat, completados: seq<bool>): (m: Monitoreo)
    ensures m.total == |completados| && m.cumplidos == Cumplidos(completados) && m.estadosCero == estadosHoy
    ensures m.porcentaje == Porcentaje(m.cumplidos, m.total)
  {
    var c, t := Cumplidos(completados), |completados|;
    var denominador := if t > 1 then t else 1;
    var salud := if estadosHoy > 0 && c as real / denominador as real > 0.7 then Buena else RequiereAtencion;
    Monitoreo(estadosHoy, c, t, Porcentaje(c, t), salud)
  }

  /** The percentage lies in [0, 100], since at most all are kept. */
  lemma PorcentajeAcotado(c: nat, t: nat)
    requires c <= t
    ensures 0.0 <= Porcentaje(c, t) <= 100.0
  {
    if t > 0 {
      var q := c as real / t as real;
      assert c as real <= t as real;
      assert q <= t as real / t as real;
    }
  }

  /** Health is good exactly when some Estado Cero was done and more than
      seven in ten non-negotiables were kept; with none at all it is never
      good. */
  lemma SaludSpec(estadosHoy: nat, completados: seq<bool>)
    ensures var m := MonitorearSalud(estadosHoy, completados);
      m.salud == Buena <==> estadosHoy > 0 && |completados| > 0 && 10 * m.cumplidos > 7 * |completados|
  {
    var c, t := Cumplidos(completados), |completados|;
    var d := if t > 1 then t else 1;
    FraccionSupera(c, d);
  }

  /** `c / d > 0.7` in whole numbers. */
  lemma FraccionSupera(c: nat, d: nat)
    requires d > 0
    ensures c as real / d as real > 0.7 <==> 10 * c > 7 * d
  {
    var q := c as real / d as real;
    assert q * d as real == c as real;
    Arith.MulCompare(0.7, q, d as real);
  }

  // ---------------------------------------------------------------------------
  // Decree verification
  // ---------------------------------------------------------------------------

  datatype Nivel = Bajo | Medio | Alto

  /** What the day's data hold for the check. */
  datatype DatosDia = DatosDia(estadosCero: nat, sesiones: nat, noNegCumplidos: nat, noNegTotales: nat)

  datatype Verificacion = Verificacion(nivel: Nivel, mensaje: string, porcentaje: real)

  /** `_verificar_cumplimiento_decreto`: high when at least one Estado Cero
      was done and at least 70% of the non-negotiables kept; else medium
      when either at least one Estado Cero or at least 50%; else low. */
  function VerificarCumplimiento(d: DatosDia): (v: Verificacion)
    ensures v.porcentaje == Porcentaje(d.noNegCumplidos, d.noNegTotales)
    ensures v.nivel == Alto <==> d.estadosCero >= 1 && v.porcentaje >= 70.0
    ensures v.nivel == Bajo <==> d.estadosCero == 0 && v.porcentaje < 50.0
  {
    var p := Porcentaje(d.noNegCumplidos, d.noNegTotales);
    if d.estadosCero >= 1 && p >= 70.0 then Verificacion(Alto, "Decreto ejecutado con excelencia (Ihsān)", p)
    else if d.estadosCero >= 1 || p >= 50.0 then Verificacion(Medio, "Decreto ejecutado parcialmente", p)
    else Verificacion(Bajo, "Decreto no ejecutado - requiere atención", p)
  }

  /** `p% >= k%` in whole numbers. */
  lemma PorcentajeAlcanza(c: nat, t: nat, k: nat)
    requires t > 0
    ensures Porcentaje(c, t) >= k as real <==> 100 * c >= k * t
  {
    var q := c as real / t as real;
    assert q * t as real == c as real;
    var p := q * 100.0;
    assert p * t as real == 100.0 * c as real;
    Arith.MulCompare(p, k as real, t as real);
  }

  /** The three levels in whole numbers: with no non-negotiable the level
      is high never, medium with an Estado Cero and low without one. */
  lemma VerificarSpec(d: DatosDia)
    ensures var v := VerificarCumplimiento(d);
      && (v.nivel == Alto <==> d.estadosCero >= 1 && d.noNegTotales > 0 && 10 * d.noNegCumplidos >= 7 * d.noNegTotales)
      && (v.nivel == Bajo <==> d.estadosCero == 0 && (d.noNegTotales == 0 || 2 * d.noNegCumplidos < d.noNegTotales))
  {
    if d.noNegTotales > 0 {
      PorcentajeAlcanza(d.noNegCumplidos, d.noNegTotales, 70);
      PorcentajeAlcanza(d.noNegCumplidos, d.noNegTotales, 50);
    }
  }

  /** The number of sessions never changes the level. */
  lemma SesionesNoCuentan(d: DatosDia, sesiones: nat)
    ensures VerificarCumplimiento(d.(sesiones := sesiones)) == VerificarCumplimiento(d)
  {
  }

  /** Doing more never lowers the level: more Estados Cero, or more kept
      non-negotiables out of the same total. */
  lemma VerificarMonotono(d: DatosDia, e: DatosDia)
    requires d.noNegTotales == e.noNegTotales
    requires d.estadosCero <= e.estadosCero && d.noNegCumplidos <= e.noNegCumplidos
    ensures Rango(VerificarCumplimiento(d).nivel) <= Rango(VerificarCumplimiento(e).nivel)
  {
    VerificarSpec(d);
    VerificarSpec(e);
  }

  function Rango(n: Nivel): nat {
    match n
    case Bajo => 0
    case Medio => 1
    case Alto => 2
  }
}

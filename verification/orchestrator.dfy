/** The day-plan helpers of the orchestrator (`OrquestadorSagrado`): reading
    a block's duration, splitting the plan into anchored and flexible or
    morning and afternoon blocks, shrinking the flexible blocks to the
    day's budget, and the default hour of a non-negotiable.

    The plan itself comes from a language model and is an input. A block
    keeps the fields these helpers read; identifiers, roles, energy and
    alternative options are left out.
 */
module Orchestrator {

  import opened Wrappers
  import Text
  import Seqs
  import Assoc

  datatype Bloque = Bloque(inicio: string, duracion: string, actividad: string, flexible: bool)

  // ---------------------------------------------------------------------------
  // Durations
  // ---------------------------------------------------------------------------

  /** The two units a duration may carry. */
  const UnidadHoras: string := "h"
  const UnidadMinutos: string := "min"

  predicate Digitos(s: string) {
    forall i :: 0 <= i < |s| ==> Text.IsDigit(s[i])
  }

  /** `int(s)` on a stripped string: a non-empty run of decimal digits;
      anything else is the `ValueError`, here `None`. */
  function LeerEntero(s: string): (r: Option<nat>)
    ensures r.Some? <==> |s| > 0 && Digitos(s)
  {
    if |s| > 0 && Digitos(s) then Some(Text.ParseDigits(s)) else None
  }

  /** `int(float(s) * 60)`: digits with at most one point and at least one
      digit, read as an exact decimal and truncated to whole minutes;
      anything else is the `ValueError`, here `None`. */
  function LeerHoras(s: string): (r: Option<nat>)
  {
    var p := Text.IndexOfChar(s, '.');
    var ent := s[..p];
    var frac := if p < |s| then s[p + 1..] else "";
    if |ent| + |frac| > 0 && Digitos(ent) && Digitos(frac) then
      assert Digitos(ent + frac) by {
        assert forall i :: |ent| <= i < |ent + frac| ==> (ent + frac)[i] == frac[i - |ent|];
      }
      Some(60 * Text.ParseDigits(ent + frac) / Text.Pow10(|frac|))
    else None
  }

  function Normalizada(s: string): string {
    Text.Strip(Text.Lower(s))
  }

  /** `_parsear_duracion`: after lower-casing and stripping, a text with an
      `h` is read as hours (with any `h` and `min` deleted), else one with
      `min` as whole minutes, else one hour. `None` is the `ValueError` a
      malformed number raises. */
  function ParsearDuracion(s: string): (r: Option<nat>)
    ensures !Text.Contains(Normalizada(s), UnidadHoras) && !Text.Contains(Normalizada(s), UnidadMinutos) ==> r == Some(60)
    ensures r.None? ==> Text.Contains(Normalizada(s), UnidadHoras) || Text.Contains(Normalizada(s), UnidadMinutos)
  {
    var d := Normalizada(s);
    if Text.Contains(d, UnidadHoras) then LeerHoras(Text.Strip(Text.RemoveAll(Text.RemoveAll(d, UnidadHoras), UnidadMinutos)))
    else if Text.Contains(d, UnidadMinutos) then LeerEntero(Text.Strip(Text.RemoveAll(d, UnidadMinutos)))
    else Some(60)
  }

  /** The reducer's `f"{n}min"`. */
  function Formato(n: int): string {
    Text.IntToString(n) + UnidadMinutos
  }

  /** A text with no capital letter and no whitespace at its ends is left
      as it is by the normalisation. */
  lemma NormalizadaFija(s: string)
    requires |s| > 0 && !Text.IsSpace(s[0]) && !Text.IsSpace(s[|s| - 1])
    requires forall i :: 0 <= i < |s| ==> !('A' <= s[i] <= 'Z')
    ensures Normalizada(s) == s
  {
    assert Text.Lower(s) == s;
    Text.StripUnchanged(s);
  }

  /** `ent + u` contains the unit `u` right after the digits. */
  lemma ContieneUnidad(ent: string, u: string)
    ensures Text.Contains(ent + u, u)
  {
    Text.ContainsIff(ent + u, u);
    assert Text.OccursAt(ent + u, u, |ent|);
  }

  /** What the reducer writes is read back as the same number of minutes. */
  lemma MinutosRoundTrip(n: nat)
    ensures ParsearDuracion(Formato(n)) == Some(n)
  {
    var ent := Text.NatToString(n);
    assert Formato(n) == ent + UnidadMinutos;
    DigitosConMinutos(ent);
    LeidoComoMinutos(ent + UnidadMinutos, ent);
    Text.NatToStringRoundTrip(n);
  }

  /** Digits followed by `min` are already normalised, name no hours and
      leave the digits once the unit is deleted. */
  lemma DigitosConMinutos(ent: string)
    requires |ent| > 0 && Digitos(ent)
    ensures Normalizada(ent + UnidadMinutos) == ent + UnidadMinutos
    ensures !Text.Contains(ent + UnidadMinutos, UnidadHoras)
    ensures Text.Contains(ent + UnidadMinutos, UnidadMinutos)
    ensures Text.Strip(Text.RemoveAll(ent + UnidadMinutos, UnidadMinutos)) == ent
  {
    MinutosNormalizados(ent);
    SinHoras(ent);
    ContieneUnidad(ent, UnidadMinutos);
    UnidadBorrada(ent, UnidadMinutos);
  }

  lemma MinutosNormalizados(ent: string)
    requires |ent| > 0 && Digitos(ent)
    ensures Normalizada(ent + UnidadMinutos) == ent + UnidadMinutos
  {
    NormalizadaFija(ent + UnidadMinutos);
  }

  lemma SinHoras(ent: string)
    requires Digitos(ent)
    ensures !Text.Contains(ent + UnidadMinutos, UnidadHoras)
  {
    Text.NotContainsFirst(ent + UnidadMinutos, UnidadHoras);
  }

  /** Deleting a unit written after digits leaves the digits. */
  lemma UnidadBorrada(ent: string, u: string)
    requires |ent| > 0 && Digitos(ent) && |u| > 0 && !Text.IsDigit(u[0])
    ensures Text.Strip(Text.RemoveAll(ent + u, u)) == ent
  {
    Text.RemoveAllSuffix(ent, u);
    Text.StripUnchanged(ent);
  }

  /** A normalised text with `min` and no `h` is read as the minutes its
      digits give once the unit is deleted. */
  lemma LeidoComoMinutos(s: string, ent: string)
    requires Normalizada(s) == s && !Text.Contains(s, UnidadHoras) && Text.Contains(s, UnidadMinutos)
    requires Text.Strip(Text.RemoveAll(s, UnidadMinutos)) == ent && |ent| > 0 && Digitos(ent)
    ensures ParsearDuracion(s) == Some(Text.ParseDigits(ent))
  {
  }

  /** A whole number of hours is read as sixty minutes each. */
  lemma HorasRoundTrip(n: nat)
    ensures ParsearDuracion(Text.NatToString(n) + UnidadHoras) == Some(60 * n)
  {
    var ent := Text.NatToString(n);
    NumeroConHoras(ent);
    LeidoComoHoras(ent + UnidadHoras, ent);
    HorasEnteras(n);
  }

  /** Hours with one decimal, as in `1.5h`, are read to the minute. */
  lemma HorasDecimales(n: nat, d: nat)
    requires d < 10
    ensures ParsearDuracion(Text.NatToString(n) + "." + [Text.DigitChar(d)] + UnidadHoras) == Some(60 * n + 6 * d)
  {
    var num := Text.NatToString(n) + "." + [Text.DigitChar(d)];
    NumeroConHoras(num);
    LeidoComoHoras(num + UnidadHoras, num);
    HorasConDecimal(n, d);
  }

  /** A number of digits and points followed by `h` is already normalised,
      names the hours and leaves the number once the units are deleted. */
  lemma NumeroConHoras(num: string)
    requires |num| > 0 && Text.IsDigit(num[0]) && Text.IsDigit(num[|num| - 1])
    requires forall i :: 0 <= i < |num| ==> Text.IsDigit(num[i]) || num[i] == '.'
    ensures Normalizada(num + UnidadHoras) == num + UnidadHoras
    ensures Text.Contains(num + UnidadHoras, UnidadHoras)
    ensures Text.Strip(Text.RemoveAll(Text.RemoveAll(num + UnidadHoras, UnidadHoras), UnidadMinutos)) == num
  {
    HorasNormalizadas(num);
    ContieneUnidad(num, UnidadHoras);
    SinLetra(num, UnidadHoras);
    SinLetra(num, UnidadMinutos);
    UnidadesBorradas(num, UnidadHoras, UnidadMinutos);
  }

  lemma HorasNormalizadas(num: string)
    requires |num| > 0 && Text.IsDigit(num[0])
    requires forall i :: 0 <= i < |num| ==> Text.IsDigit(num[i]) || num[i] == '.'
    ensures Normalizada(num + UnidadHoras) == num + UnidadHoras
  {
    NormalizadaFija(num + UnidadHoras);
  }

  /** Deleting a unit written after a text, then another, leaves the text
      when neither unit's first letter occurs in it. */
  lemma UnidadesBorradas(num: string, u: string, v: string)
    requires |num| > 0 && !Text.IsSpace(num[0]) && !Text.IsSpace(num[|num| - 1])
    requires |u| > 0 && forall i :: 0 <= i < |num| ==> num[i] != u[0]
    requires |v| > 0 && forall i :: 0 <= i < |num| ==> num[i] != v[0]
    ensures Text.Strip(Text.RemoveAll(Text.RemoveAll(num + u, u), v)) == num
  {
    Text.RemoveAllSuffix(num, u);
    Text.RemoveAllAbsent(num, v);
    Text.StripUnchanged(num);
  }

  /** Digits and points never begin a unit. */
  lemma SinLetra(num: string, u: string)
    requires forall i :: 0 <= i < |num| ==> Text.IsDigit(num[i]) || num[i] == '.'
    requires u == UnidadHoras || u == UnidadMinutos
    ensures |u| > 0 && forall i :: 0 <= i < |num| ==> num[i] != u[0]
  {
  }

  /** A normalised text with `h` is read as hours from what is left once
      both units are deleted. */
  lemma LeidoComoHoras(s: string, num: string)
    requires Normalizada(s) == s && Text.Contains(s, UnidadHoras)
    requires Text.Strip(Text.RemoveAll(Text.RemoveAll(s, UnidadHoras), UnidadMinutos)) == num
    ensures ParsearDuracion(s) == LeerHoras(num)
  {
  }

  /** Whole hours are sixty minutes each. */
  lemma HorasEnteras(n: nat)
    ensures LeerHoras(Text.NatToString(n)) == Some(60 * n)
  {
    var ent := Text.NatToString(n);
    assert Text.IndexOfChar(ent, '.') == |ent|;
    assert ent[..|ent|] + "" == ent;
    Text.NatToStringRoundTrip(n);
  }

  /** One decimal of an hour is six minutes. */
  lemma HorasConDecimal(n: nat, d: nat)
    requires d < 10
    ensures LeerHoras(Text.NatToString(n) + "." + [Text.DigitChar(d)]) == Some(60 * n + 6 * d)
  {
    var ent, dc := Text.NatToString(n), Text.DigitChar(d);
    PuntoDecimal(ent, dc);
    CifrasDecimales(n, d);
  }

  /** A number written `ent.c` splits at its point into `ent` and `c`. */
  lemma PuntoDecimal(ent: string, dc: char)
    requires Digitos(ent)
    ensures var num := ent + "." + [dc];
      Text.IndexOfChar(num, '.') == |ent| && num[..|ent|] == ent && num[|ent| + 1..] == [dc]
  {
    var num := ent + "." + [dc];
    assert num[|ent|] == '.';
    assert forall i :: 0 <= i < |ent| ==> num[i] == ent[i];
  }

  /** The digits of `n` followed by the digit `d`, read as tenths of an
      hour, are `60 n + 6 d` minutes. */
  lemma CifrasDecimales(n: nat, d: nat)
    requires d < 10
    ensures Text.ParseDigits(Text.NatToString(n) + [Text.DigitChar(d)]) == 10 * n + d
    ensures 60 * (10 * n + d) / Text.Pow10(1) == 60 * n + 6 * d
  {
    var ent, dc := Text.NatToString(n), Text.DigitChar(d);
    Text.NatToStringRoundTrip(n);
    assert (ent + [dc])[..|ent|] == ent;
  }

  /** A bare number with no unit is taken as one hour, whatever it says. */
  lemma SinUnidadEsUnaHora(n: nat)
    ensures ParsearDuracion(Text.NatToString(n)) == Some(60)
  {
    var s := Text.NatToString(n);
    NormalizadaFija(s);
    Text.NotContainsFirst(s, UnidadHoras);
    Text.NotContainsFirst(s, UnidadMinutos);
  }

  // ---------------------------------------------------------------------------
  // Partitions
  // ---------------------------------------------------------------------------

  function No(p: Bloque -> bool): Bloque -> bool {
    (b: Bloque) => !p(b)
  }

  /** `[b for b in bs if p(b)] + [b for b in bs if not p(b)]`: the blocks
      that pass first, then the rest, each part in its order. */
  function Particion(bs: seq<Bloque>, p: Bloque -> bool): (r: seq<Bloque>)
    ensures multiset(r) == multiset(bs)
    ensures forall i :: 0 <= i < |r| ==> (p(r[i]) <==> i < |Seqs.Filter(bs, p)|)
  {
    PartesOrdenadas(bs, p);
    Seqs.Filter(bs, p) + Seqs.Filter(bs, No(p))
  }

  /** The blocks that pass and then the rest: together every block once,
      the passing ones exactly in front. */
  lemma PartesOrdenadas(bs: seq<Bloque>, p: Bloque -> bool)
    ensures var r := Seqs.Filter(bs, p) + Seqs.Filter(bs, No(p));
      && multiset(r) == multiset(bs)
      && forall i :: 0 <= i < |r| ==> (p(r[i]) <==> i < |Seqs.Filter(bs, p)|)
  {
    FiltrosPermutan(bs, p);
    RestoNoPasa(bs, p);
    var si, no := Seqs.Filter(bs, p), Seqs.Filter(bs, No(p));
    assert forall j :: |si| <= j < |si + no| ==> (si + no)[j] == no[j - |si|];
  }

  /** No block of the second comprehension passes. */
  lemma RestoNoPasa(bs: seq<Bloque>, p: Bloque -> bool)
    ensures forall j :: 0 <= j < |Seqs.Filter(bs, No(p))| ==> !p(Seqs.Filter(bs, No(p))[j])
  {
    var no := Seqs.Filter(bs, No(p));
    forall j | 0 <= j < |no|
      ensures !p(no[j])
    {
      assert No(p)(no[j]);
    }
  }

  /** The two list comprehensions together hold every block once. */
  lemma FiltrosPermutan(bs: seq<Bloque>, p: Bloque -> bool)
    ensures multiset(Seqs.Filter(bs, p)) + multiset(Seqs.Filter(bs, No(p))) == multiset(bs)
  {
    Seqs.FilterComplement(bs, p, No(p));
  }

  /** Partitioning an already partitioned plan changes nothing. */
  lemma ParticionIdempotente(bs: seq<Bloque>, p: Bloque -> bool)
    ensures Particion(Particion(bs, p), p) == Particion(bs, p)
  {
    var si, no := Seqs.Filter(bs, p), Seqs.Filter(bs, No(p));
    RestoNoPasa(bs, p);
    assert Particion(bs, p) == si + no;
    Seqs.FilterAppend(si, no, p);
    Seqs.FilterAll(si, p);
    Seqs.FilterNone(no, p);
    assert Seqs.Filter(si + no, p) == si;
    Seqs.FilterAppend(si, no, No(p));
    forall j | 0 <= j < |si|
      ensures !No(p)(si[j])
    {
    }
    Seqs.FilterNone(si, No(p));
    forall j | 0 <= j < |no|
      ensures No(p)(no[j])
    {
    }
    Seqs.FilterAll(no, No(p));
    assert Seqs.Filter(si + no, No(p)) == no;
  }

  function EsAnclado(): Bloque -> bool {
    (b: Bloque) => !b.flexible
  }

  /** `_refinar_plan_completo` (with the refinement itself still to come):
      anchors first, then the flexible blocks. */
  function RefinarPlan(bs: seq<Bloque>): (r: seq<Bloque>)
    ensures multiset(r) == multiset(bs)
    ensures forall i, j :: 0 <= i < j < |r| && r[i].flexible ==> r[j].flexible
  {
    Particion(bs, EsAnclado())
  }

  function AntesDeLas14(): Bloque -> bool {
    (b: Bloque) => Text.Less(b.inicio, "14:00")
  }

  /** `_ajustar_bloques_tarde` (with the adjustment itself still to come):
      the blocks starting before "14:00" in string order, then those from
      "14:00" on. */
  function AjustarBloquesTarde(bs: seq<Bloque>): (r: seq<Bloque>)
    ensures multiset(r) == multiset(bs)
    ensures forall i, j :: 0 <= i < j < |r| && !Text.Less(r[i].inicio, "14:00") ==> !Text.Less(r[j].inicio, "14:00")
  {
    Particion(bs, AntesDeLas14())
  }

  /** `strftime("%H:%M")` of a minute of the day. */
  function Hora(m: nat): (s: string)
    requires m < 1440
    ensures |s| == 5 && s[2] == ':'
  {
    var h, mi := m / 60, m % 60;
    [Text.DigitChar(h / 10), Text.DigitChar(h % 10), ':', Text.DigitChar(mi / 10), Text.DigitChar(mi % 10)]
  }

  /** On well-formed start times the string order the afternoon split uses
      is the order of the day. */
  lemma HoraOrdenada(a: nat, b: nat)
    requires a < 1440 && b < 1440
    ensures Text.Less(Hora(a), Hora(b)) <==> a < b
  {
    LessCinco(Hora(a), Hora(b));
    var ca := CifrasHora(a);
    var cb := CifrasHora(b);
    CifrasOrdenadas(a, b, ca, cb);
  }

  /** The four digits of `HH:MM` as numbers. */
  lemma CifrasHora(m: nat) returns (c: seq<nat>)
    requires m < 1440
    ensures |c| == 4 && c[0] < 10 && c[1] < 10 && c[2] < 6 && c[3] < 10
    ensures m == 600 * c[0] + 60 * c[1] + 10 * c[2] + c[3]
    ensures Hora(m)[0] == Text.DigitChar(c[0]) && Hora(m)[1] == Text.DigitChar(c[1])
    ensures Hora(m)[2] == ':'
    ensures Hora(m)[3] == Text.DigitChar(c[2]) && Hora(m)[4] == Text.DigitChar(c[3])
  {
    c := [m / 60 / 10, m / 60 % 10, m % 60 / 10, m % 60 % 10];
  }

  /** Comparing the digits of two times from the left is comparing the
      times. */
  lemma CifrasOrdenadas(a: nat, b: nat, ca: seq<nat>, cb: seq<nat>)
    requires |ca| == 4 && ca[0] < 10 && ca[1] < 10 && ca[2] < 6 && ca[3] < 10
    requires |cb| == 4 && cb[0] < 10 && cb[1] < 10 && cb[2] < 6 && cb[3] < 10
    requires a == 600 * ca[0] + 60 * ca[1] + 10 * ca[2] + ca[3]
    requires b == 600 * cb[0] + 60 * cb[1] + 10 * cb[2] + cb[3]
    ensures (ca[0] < cb[0] || (ca[0] == cb[0] && (ca[1] < cb[1] || (ca[1] == cb[1] &&
      (ca[2] < cb[2] || (ca[2] == cb[2] && ca[3] < cb[3])))))) <==> a < b
  {
  }

  /** String order on five characters, written out. */
  lemma LessCinco(x: string, y: string)
    requires |x| == 5 && |y| == 5
    ensures Text.Less(x, y) <==>
      x[0] < y[0] || (x[0] == y[0] && (x[1] < y[1] || (x[1] == y[1] && (x[2] < y[2] || (x[2] == y[2] &&
      (x[3] < y[3] || (x[3] == y[3] && x[4] < y[4])))))))
  {
    var x1, y1 := x[1..], y[1..];
    var x2, y2 := x1[1..], y1[1..];
    var x3, y3 := x2[1..], y2[1..];
    var x4, y4 := x3[1..], y3[1..];
    assert |x4[1..]| == 0 && |y4[1..]| == 0;
    assert Text.Less(x4, y4) <==> x[4] < y[4];
    assert Text.Less(x3, y3) <==> x[3] < y[3] || (x[3] == y[3] && Text.Less(x4, y4));
    assert Text.Less(x2, y2) <==> x[2] < y[2] || (x[2] == y[2] && Text.Less(x3, y3));
    assert Text.Less(x1, y1) <==> x[1] < y[1] || (x[1] == y[1] && Text.Less(x2, y2));
  }

  /** A block starting at a well-formed time goes to the morning part
      exactly when it starts before 14:00. */
  lemma MananaAntesDeLas14(m: nat)
    requires m < 1440
    ensures Text.Less(Hora(m), "14:00") <==> m < 840
  {
    assert Hora(840) == "14:00";
    HoraOrdenada(m, 840);
  }

  // ---------------------------------------------------------------------------
  // Reducing the flexible blocks
  // ---------------------------------------------------------------------------

  /** Sixty per cent of the day, in minutes: `int(24 * 60 * 0.6)`. */
  const PresupuestoDia: int := 864

  datatype Fallo = ValorInvalido | DivisionPorCero

  /** All the values, or `None` when one is missing. */
  function Todos(os: seq<Option<nat>>): (r: Option<seq<nat>>)
    ensures r.Some? ==> |r.value| == |os| && forall i :: 0 <= i < |os| ==> os[i] == Some(r.value[i])
    ensures r.None? <==> exists i :: 0 <= i < |os| && os[i].None?
  {
    if |os| == 0 then Some([])
    else if os[0].None? then None
    else
      var resto := Todos(os[1..]);
      if resto.None? then
        var i :| 0 <= i < |os[1..]| && os[1..][i].None?;
        assert os[i + 1] == os[1..][i];
        None
      else
        var r := [os[0].value] + resto.value;
        assert forall i :: 1 <= i < |os| ==> os[i] == os[1..][i - 1];
        Some(r)
  }

  function Minutos(bs: seq<Bloque>): (r: seq<Option<nat>>)
    ensures |r| == |bs|
    ensures forall i :: 0 <= i < |bs| ==> r[i] == ParsearDuracion(bs[i].duracion)
  {
    seq(|bs|, i requires 0 <= i < |bs| => ParsearDuracion(bs[i].duracion))
  }

  /** The minutes of every block, or `None` when one fails to parse. */
  function Duraciones(bs: seq<Bloque>): Option<seq<nat>> {
    Todos(Minutos(bs))
  }

  /** Python's `int(a / b)`: the quotient truncated toward zero. */
  function DivTrunc(a: int, b: int): int
    requires b > 0
  {
    if a >= 0 then a / b else -((-a) / b)
  }

  /** The truncated quotient has the sign of `a` and lies within one `b`
      of it, on the side of zero. */
  lemma DivTruncSpec(a: int, b: int)
    requires b > 0
    ensures a >= 0 ==> DivTrunc(a, b) >= 0 && DivTrunc(a, b) * b <= a < DivTrunc(a, b) * b + b
    ensures a < 0 ==> DivTrunc(a, b) <= 0 && DivTrunc(a, b) * b - b < a <= DivTrunc(a, b) * b
  {
  }

  /** `int(d * (maximo / actual))` for each flexible duration `d`. */
  function NuevasDuraciones(ds: seq<nat>, maximo: int, actual: int): (r: seq<int>)
    requires actual > 0
    ensures |r| == |ds|
  {
    seq(|ds|, i requires 0 <= i < |ds| => DivTrunc(ds[i] * maximo, actual))
  }

  /** The flexible blocks with their durations rewritten as `f"{n}min"`. */
  function Reescritos(es: seq<Bloque>, ns: seq<int>): (r: seq<Bloque>)
    requires |ns| == |es|
    ensures |r| == |es|
    ensures forall i :: 0 <= i < |es| ==> r[i] == es[i].(duracion := Formato(ns[i]))
  {
    seq(|es|, i requires 0 <= i < |es| => es[i].(duracion := Formato(ns[i])))
  }

  /** The anchors, then the flexible blocks with their minutes `de` scaled
      from `actual` to `maximo`. */
  function Recorte(anclados: seq<Bloque>, emergentes: seq<Bloque>, de: seq<nat>, maximo: int, actual: int): (r: seq<Bloque>)
    requires |de| == |emergentes| && actual > 0
    ensures |r| == |anclados| + |emergentes|
  {
    anclados + Reescritos(emergentes, NuevasDuraciones(de, maximo, actual))
  }

  /** `_reducir_bloques_emergentes` as written: the budget is 864 minutes
      less the anchored time, negative when the anchors alone exceed it. */
  function ReducirEscrito(bs: seq<Bloque>): (r: Result<seq<Bloque>, Fallo>)
    ensures r == Err(ValorInvalido) <==> exists i :: 0 <= i < |bs| && ParsearDuracion(bs[i].duracion).None?
  {
    DuracionesPartes(bs);
    var anclados, emergentes := Seqs.Filter(bs, EsAnclado()), Seqs.Filter(bs, No(EsAnclado()));
    RecortarEscrito(bs, anclados, emergentes, Duraciones(anclados), Duraciones(emergentes))
  }

  /** The reducer as written, once the blocks are split and their minutes
      read. */
  function RecortarEscrito(bs: seq<Bloque>, anclados: seq<Bloque>, emergentes: seq<Bloque>,
                           oa: Option<seq<nat>>, oe: Option<seq<nat>>): (r: Result<seq<Bloque>, Fallo>)
    requires oe.Some? ==> |oe.value| == |emergentes|
    ensures r == Err(ValorInvalido) <==> oa.None? || oe.None?
  {
    if oa.None? || oe.None? then Err(ValorInvalido)
    else
      Seqs.SumIntNonNeg(oe.value);
      Escalar(bs, anclados, emergentes, oe.value, PresupuestoDia - Seqs.SumInt(oa.value), Seqs.SumInt(oe.value))
  }

  /** The plan as it was when the flexible minutes `actual` fit in
      `maximo`; else the flexible blocks scaled by `maximo / actual`, which
      fails when there are no flexible minutes to divide by. */
  function Escalar(bs: seq<Bloque>, anclados: seq<Bloque>, emergentes: seq<Bloque>, de: seq<nat>,
                   maximo: int, actual: int): (r: Result<seq<Bloque>, Fallo>)
    requires |de| == |emergentes| && actual >= 0
  {
    if actual <= maximo then Ok(bs)
    else if actual == 0 then Err(DivisionPorCero)
    else Ok(Recorte(anclados, emergentes, de, maximo, actual))
  }

  /** The minutes the flexible blocks may take: the day's budget less the
      anchored time, never below zero. */
  function Presupuesto(anclado: int): (m: nat)
    ensures m >= PresupuestoDia - anclado
    ensures anclado <= PresupuestoDia ==> m == PresupuestoDia - anclado
  {
    if PresupuestoDia - anclado > 0 then PresupuestoDia - anclado else 0
  }

  /** The reducer with its budget clamped at zero, as the block generator
      clamps its own. */
  function Reducir(bs: seq<Bloque>): (r: Result<seq<Bloque>, Fallo>)
    ensures r.Err? <==> exists i :: 0 <= i < |bs| && ParsearDuracion(bs[i].duracion).None?
    ensures r.Err? ==> r.error == ValorInvalido
  {
    var anclados, emergentes := Seqs.Filter(bs, EsAnclado()), Seqs.Filter(bs, No(EsAnclado()));
    DuracionesPartes(bs);
    match (Duraciones(anclados), Duraciones(emergentes))
    case (Some(da), Some(de)) =>
      var maximo := Presupuesto(Seqs.SumInt(da));
      var actual := Seqs.SumInt(de);
      if actual <= maximo then Ok(bs)
      else Ok(Recorte(anclados, emergentes, de, maximo, actual))
    case _ => Err(ValorInvalido)
  }

  function Legible(): Bloque -> bool {
    (b: Bloque) => ParsearDuracion(b.duracion).Some?
  }

  predicate Todas(bs: seq<Bloque>, ok: Bloque -> bool) {
    forall i :: 0 <= i < |bs| ==> ok(bs[i])
  }

  /** Every block parses exactly when both comprehensions parse. */
  lemma DuracionesPartes(bs: seq<Bloque>)
    ensures Duraciones(bs).Some? <==>
      Duraciones(Seqs.Filter(bs, EsAnclado())).Some? && Duraciones(Seqs.Filter(bs, No(EsAnclado()))).Some?
  {
    FiltrosCubren(bs, EsAnclado(), Legible());
    DuracionesLegibles(bs);
    DuracionesLegibles(Seqs.Filter(bs, EsAnclado()));
    DuracionesLegibles(Seqs.Filter(bs, No(EsAnclado())));
  }

  lemma DuracionesLegibles(bs: seq<Bloque>)
    ensures Duraciones(bs).Some? <==> Todas(bs, Legible())
  {
  }

  /** A property holds of every block exactly when it holds of every block
      of both comprehensions. */
  lemma FiltrosCubren(bs: seq<Bloque>, p: Bloque -> bool, ok: Bloque -> bool)
    ensures Todas(bs, ok) <==> Todas(Seqs.Filter(bs, p), ok) && Todas(Seqs.Filter(bs, No(p)), ok)
  {
    var a, e := Seqs.Filter(bs, p), Seqs.Filter(bs, No(p));
    if Todas(bs, ok) {
      forall j | 0 <= j < |a| ensures ok(a[j]) {
        var i :| 0 <= i < |bs| && bs[i] == a[j];
      }
      forall j | 0 <= j < |e| ensures ok(e[j]) {
        var i :| 0 <= i < |bs| && bs[i] == e[j];
      }
    }
    if Todas(a, ok) && Todas(e, ok) {
      forall i | 0 <= i < |bs| ensures ok(bs[i]) {
        if p(bs[i]) {
          assert bs[i] in a;
          var j :| 0 <= j < |a| && a[j] == bs[i];
        } else {
          assert No(p)(bs[i]);
          assert bs[i] in e;
          var j :| 0 <= j < |e| && e[j] == bs[i];
        }
      }
    }
  }

  /** Each truncated share is at most its exact share, so together they
      stay within the exact total: `sum(int(d * m / a)) * a <= sum(d) * m`. */
  lemma {:induction false} SumaTruncada(ds: seq<nat>, m: nat, a: int)
    requires a > 0
    ensures Seqs.SumInt(NuevasDuraciones(ds, m, a)) * a <= Seqs.SumInt(ds) * m
    decreases |ds|
  {
    if |ds| > 0 {
      var ns := NuevasDuraciones(ds, m, a);
      assert ns[1..] == NuevasDuraciones(ds[1..], m, a);
      SumaTruncada(ds[1..], m, a);
      var q, r := ns[0], Seqs.SumInt(ns[1..]);
      var d, rd := ds[0], Seqs.SumInt(ds[1..]);
      ProductoNoNegativo(d, m);
      DivTruncSpec(d * m, a);
      assert q * a <= d * m;
      Distribuye(q, r, a);
      Distribuye(d, rd, m);
    }
  }

  lemma ProductoNoNegativo(x: nat, y: nat)
    ensures x * y >= 0
  {
  }

  lemma Distribuye(x: int, y: int, z: int)
    ensures (x + y) * z == x * z + y * z
  {
  }

  /** Cancelling a positive factor: `x * a <= a * m` gives `x <= m`. */
  lemma Cancelar(x: int, m: int, a: int)
    requires a > 0 && x * a <= a * m
    ensures x <= m
  {
  }

  /** Every value is present, so all of them are collected. */
  lemma TodosPresentes(os: seq<Option<nat>>, ns: seq<nat>)
    requires |os| == |ns| && forall i :: 0 <= i < |os| ==> os[i] == Some(ns[i])
    ensures Todos(os) == Some(ns)
  {
    assert forall i :: 0 <= i < |os| ==> !os[i].None?;
    var r := Todos(os);
    assert r.value == ns;
  }

  /** The reduced plan keeps the anchored blocks as they were and rewrites
      the flexible ones, in minutes, so that they fit the budget, which is
      never negative; a plan already within the budget comes back as it
      was. */
  lemma ReducirSpec(bs: seq<Bloque>)
    requires Duraciones(bs).Some?
    ensures Reducir(bs).Ok?
    ensures |Reducir(bs).value| == |bs|
    ensures Seqs.Filter(Reducir(bs).value, EsAnclado()) == Seqs.Filter(bs, EsAnclado())
    ensures Duraciones(Seqs.Filter(Reducir(bs).value, No(EsAnclado()))).Some?
    ensures Seqs.SumInt(Duraciones(Seqs.Filter(Reducir(bs).value, No(EsAnclado()))).value)
      <= Presupuesto(Seqs.SumInt(Duraciones(Seqs.Filter(bs, EsAnclado())).value))
  {
    var a, e := Seqs.Filter(bs, EsAnclado()), Seqs.Filter(bs, No(EsAnclado()));
    DuracionesPartes(bs);
    if Seqs.SumInt(Duraciones(e).value) <= Presupuesto(Seqs.SumInt(Duraciones(a).value)) {
      ReducirDentro(bs);
      RestoNoPasa(bs, EsAnclado());
      Seqs.FilterAll(e, No(EsAnclado()));
    } else {
      ReducirFuera(bs);
    }
  }

  /** A plan within the budget comes back as it was. */
  lemma ReducirDentro(bs: seq<Bloque>)
    requires Duraciones(Seqs.Filter(bs, EsAnclado())).Some? && Duraciones(Seqs.Filter(bs, No(EsAnclado()))).Some?
    requires Seqs.SumInt(Duraciones(Seqs.Filter(bs, No(EsAnclado()))).value)
      <= Presupuesto(Seqs.SumInt(Duraciones(Seqs.Filter(bs, EsAnclado())).value))
    ensures Reducir(bs) == Ok(bs)
  {
  }

  /** A plan past the budget keeps its anchors and has its flexible blocks
      scaled into the budget. */
  lemma ReducirFuera(bs: seq<Bloque>)
    requires Duraciones(Seqs.Filter(bs, EsAnclado())).Some? && Duraciones(Seqs.Filter(bs, No(EsAnclado()))).Some?
    requires Seqs.SumInt(Duraciones(Seqs.Filter(bs, No(EsAnclado()))).value)
      > Presupuesto(Seqs.SumInt(Duraciones(Seqs.Filter(bs, EsAnclado())).value))
    ensures Reducir(bs).Ok?
    ensures |Reducir(bs).value| == |bs|
    ensures Seqs.Filter(Reducir(bs).value, EsAnclado()) == Seqs.Filter(bs, EsAnclado())
    ensures Duraciones(Seqs.Filter(Reducir(bs).value, No(EsAnclado()))).Some?
    ensures Seqs.SumInt(Duraciones(Seqs.Filter(Reducir(bs).value, No(EsAnclado()))).value)
      <= Presupuesto(Seqs.SumInt(Duraciones(Seqs.Filter(bs, EsAnclado())).value))
  {
    var a, e := Seqs.Filter(bs, EsAnclado()), Seqs.Filter(bs, No(EsAnclado()));
    var da, de := Duraciones(a).value, Duraciones(e).value;
    var maximo, actual := Presupuesto(Seqs.SumInt(da)), Seqs.SumInt(de);
    PartesTamano(bs, EsAnclado());
    RestoNoPasa(bs, EsAnclado());
    ReducirRecorta(bs);
    Reducidos(a, e, de, maximo, actual);
  }

  /** Past the budget, the reducer scales the flexible blocks. */
  lemma ReducirRecorta(bs: seq<Bloque>)
    requires Duraciones(Seqs.Filter(bs, EsAnclado())).Some? && Duraciones(Seqs.Filter(bs, No(EsAnclado()))).Some?
    requires Seqs.SumInt(Duraciones(Seqs.Filter(bs, No(EsAnclado()))).value)
      > Presupuesto(Seqs.SumInt(Duraciones(Seqs.Filter(bs, EsAnclado())).value))
    ensures |Duraciones(Seqs.Filter(bs, No(EsAnclado()))).value| == |Seqs.Filter(bs, No(EsAnclado()))|
    ensures Reducir(bs) == Ok(Recorte(Seqs.Filter(bs, EsAnclado()), Seqs.Filter(bs, No(EsAnclado())),
      Duraciones(Seqs.Filter(bs, No(EsAnclado()))).value,
      Presupuesto(Seqs.SumInt(Duraciones(Seqs.Filter(bs, EsAnclado())).value)),
      Seqs.SumInt(Duraciones(Seqs.Filter(bs, No(EsAnclado()))).value)))
  {
  }

  /** The two comprehensions together are as long as the plan. */
  lemma PartesTamano(bs: seq<Bloque>, p: Bloque -> bool)
    ensures |Seqs.Filter(bs, p)| + |Seqs.Filter(bs, No(p))| == |bs|
  {
    FiltrosPermutan(bs, p);
    assert |multiset(Seqs.Filter(bs, p))| + |multiset(Seqs.Filter(bs, No(p)))| == |multiset(bs)|;
  }

  /** The reduced case: anchors, then the rewritten flexible blocks. */
  lemma Reducidos(a: seq<Bloque>, e: seq<Bloque>, de: seq<nat>, maximo: nat, actual: int)
    requires Todas(a, EsAnclado()) && Todas(e, No(EsAnclado()))
    requires Duraciones(e) == Some(de) && Seqs.SumInt(de) == actual && maximo < actual
    ensures var r := Recorte(a, e, de, maximo, actual);
      && Seqs.Filter(r, EsAnclado()) == a
      && Duraciones(Seqs.Filter(r, No(EsAnclado()))).Some?
      && Seqs.SumInt(Duraciones(Seqs.Filter(r, No(EsAnclado()))).value) <= maximo
  {
    var ns := NuevasDuraciones(de, maximo, actual);
    var re := Reescritos(e, ns);
    ReescritosFlexibles(e, ns);
    FiltrosSeparados(a, re);
    forall j | 0 <= j < |ns| ensures ns[j] >= 0 {
      ProductoNoNegativo(de[j], maximo);
      DivTruncSpec(de[j] * maximo, actual);
    }
    DuracionesReescritas(e, ns);
    SumaTruncada(de, maximo, actual);
    Cancelar(Seqs.SumInt(ns), maximo, actual);
  }

  lemma ReescritosFlexibles(e: seq<Bloque>, ns: seq<int>)
    requires |ns| == |e| && Todas(e, No(EsAnclado()))
    ensures Todas(Reescritos(e, ns), No(EsAnclado()))
  {
    var re := Reescritos(e, ns);
    forall j | 0 <= j < |re| ensures No(EsAnclado())(re[j]) {
      assert No(EsAnclado())(e[j]);
    }
  }

  /** Anchors followed by flexible blocks split back into the two. */
  lemma FiltrosSeparados(a: seq<Bloque>, f: seq<Bloque>)
    requires Todas(a, EsAnclado()) && Todas(f, No(EsAnclado()))
    ensures Seqs.Filter(a + f, EsAnclado()) == a
    ensures Seqs.Filter(a + f, No(EsAnclado())) == f
  {
    Seqs.FilterAppend(a, f, EsAnclado());
    Seqs.FilterAppend(a, f, No(EsAnclado()));
    Seqs.FilterAll(a, EsAnclado());
    forall j | 0 <= j < |a| ensures !No(EsAnclado())(a[j]) {
      assert EsAnclado()(a[j]);
    }
    Seqs.FilterNone(a, No(EsAnclado()));
    forall j | 0 <= j < |f| ensures !EsAnclado()(f[j]) {
      assert No(EsAnclado())(f[j]);
    }
    Seqs.FilterNone(f, EsAnclado());
    Seqs.FilterAll(f, No(EsAnclado()));
  }

  /** Durations written as `f"{n}min"` read back as the numbers written. */
  lemma DuracionesReescritas(e: seq<Bloque>, ns: seq<int>)
    requires |ns| == |e| && forall j :: 0 <= j < |ns| ==> ns[j] >= 0
    ensures Duraciones(Reescritos(e, ns)).Some?
    ensures Duraciones(Reescritos(e, ns)).value == ns
  {
    var re := Reescritos(e, ns);
    var nsn: seq<nat> := seq(|ns|, j requires 0 <= j < |ns| => ns[j] as nat);
    forall j | 0 <= j < |re| ensures ParsearDuracion(re[j].duracion) == Some(nsn[j]) {
      MinutosRoundTrip(nsn[j]);
    }
    TodosPresentes(Minutos(re), nsn);
  }

  /** The anchored and the flexible blocks of a plan, in plan order. */
  function Anclados(bs: seq<Bloque>): seq<Bloque> {
    Seqs.Filter(bs, EsAnclado())
  }

  function Flexibles(bs: seq<Bloque>): seq<Bloque> {
    Seqs.Filter(bs, No(EsAnclado()))
  }

  /** The minutes a list of blocks takes, 0 when one of them does not parse. */
  function Total(bs: seq<Bloque>): int {
    match Duraciones(bs)
    case Some(ds) => Seqs.SumInt(ds)
    case None => 0
  }

  /** The reducer as written, on every plan: an unreadable duration is a
      `ValueError`; a plan without flexible time whose anchors exceed the
      budget divides by zero, and nothing else fails; a plan within the
      budget, even a negative one, comes back as it was; a reduced plan keeps
      its length and its anchored blocks exactly; and when the anchors fit
      in the budget the flexible blocks are scaled into what is left. */
  lemma ReducirEscritoSpec(bs: seq<Bloque>)
    ensures ReducirEscrito(bs) == Err(ValorInvalido) <==> Duraciones(bs).None?
    ensures ReducirEscrito(bs) == Err(DivisionPorCero) <==>
      Duraciones(bs).Some? && Total(Flexibles(bs)) == 0 && Total(Anclados(bs)) > PresupuestoDia
    ensures Duraciones(bs).Some? && Total(Flexibles(bs)) <= PresupuestoDia - Total(Anclados(bs)) ==>
      ReducirEscrito(bs) == Ok(bs)
    ensures ReducirEscrito(bs).Ok? ==>
      |ReducirEscrito(bs).value| == |bs| && Anclados(ReducirEscrito(bs).value) == Anclados(bs)
    ensures ReducirEscrito(bs).Ok? && Total(Anclados(bs)) <= PresupuestoDia ==>
      && Duraciones(Flexibles(ReducirEscrito(bs).value)).Some?
      && Total(Flexibles(ReducirEscrito(bs).value)) <= PresupuestoDia - Total(Anclados(bs))
  {
    DuracionesPartes(bs);
    if Duraciones(bs).Some? {
      var a, e := Anclados(bs), Flexibles(bs);
      EscritoCasos(bs, a, e, Duraciones(a).value, Duraciones(e).value);
    }
  }

  /** The reducer as written, once both comprehensions have parsed. */
  lemma EscritoCasos(bs: seq<Bloque>, a: seq<Bloque>, e: seq<Bloque>, da: seq<nat>, de: seq<nat>)
    requires a == Anclados(bs) && e == Flexibles(bs)
    requires Duraciones(a) == Some(da) && Duraciones(e) == Some(de)
    ensures var r := ReducirEscrito(bs);
      && (r == Err(DivisionPorCero) <==> Seqs.SumInt(de) == 0 && Seqs.SumInt(da) > PresupuestoDia)
      && r != Err(ValorInvalido)
      && (Seqs.SumInt(de) <= PresupuestoDia - Seqs.SumInt(da) ==> r == Ok(bs))
      && (r.Ok? ==> |r.value| == |bs| && Anclados(r.value) == a)
      && (r.Ok? && Seqs.SumInt(da) <= PresupuestoDia ==>
            Duraciones(Flexibles(r.value)).Some? && Total(Flexibles(r.value)) <= PresupuestoDia - Seqs.SumInt(da))
  {
    EscritoPartido(bs, a, e, da, de);
    PartesTamano(bs, EsAnclado());
    RecortarCasos(bs, a, e, da, de);
  }

  /** The reducer as written sees the two comprehensions with their minutes. */
  lemma EscritoPartido(bs: seq<Bloque>, a: seq<Bloque>, e: seq<Bloque>, da: seq<nat>, de: seq<nat>)
    requires a == Anclados(bs) && e == Flexibles(bs)
    requires Duraciones(a) == Some(da) && Duraciones(e) == Some(de)
    ensures |de| == |e| && Todas(a, EsAnclado()) && Todas(e, No(EsAnclado()))
    ensures ReducirEscrito(bs) == RecortarEscrito(bs, a, e, Some(da), Some(de))
  {
  }

  /** The three outcomes of the reducer as written, over plain lists. */
  lemma RecortarCasos(bs: seq<Bloque>, a: seq<Bloque>, e: seq<Bloque>, da: seq<nat>, de: seq<nat>)
    requires |de| == |e| && Todas(a, EsAnclado()) && Todas(e, No(EsAnclado()))
    requires Duraciones(e) == Some(de) && |a| + |e| == |bs| && a == Anclados(bs) && e == Flexibles(bs)
    ensures var r := RecortarEscrito(bs, a, e, Some(da), Some(de));
      && (r == Err(DivisionPorCero) <==> Seqs.SumInt(de) == 0 && Seqs.SumInt(da) > PresupuestoDia)
      && r != Err(ValorInvalido)
      && (Seqs.SumInt(de) <= PresupuestoDia - Seqs.SumInt(da) ==> r == Ok(bs))
      && (r.Ok? ==> |r.value| == |bs| && Anclados(r.value) == a)
      && (r.Ok? && Seqs.SumInt(da) <= PresupuestoDia ==>
            Duraciones(Flexibles(r.value)).Some? && Total(Flexibles(r.value)) <= PresupuestoDia - Seqs.SumInt(da))
  {
    var maximo, actual := PresupuestoDia - Seqs.SumInt(da), Seqs.SumInt(de);
    if actual <= maximo {
      RecortarDentro(bs, a, e, da, de, maximo, actual);
    } else if actual == 0 {
      RecortarCero(bs, a, e, da, de, maximo, actual);
    } else {
      RecortarFuera(bs, a, e, da, de, maximo, actual);
    }
  }

  lemma RecortarDentro(bs: seq<Bloque>, a: seq<Bloque>, e: seq<Bloque>, da: seq<nat>, de: seq<nat>, maximo: int, actual: int)
    requires |de| == |e| && maximo == PresupuestoDia - Seqs.SumInt(da) && actual == Seqs.SumInt(de)
    requires actual <= maximo
    ensures RecortarEscrito(bs, a, e, Some(da), Some(de)) == Ok(bs)
  {
  }

  lemma RecortarCero(bs: seq<Bloque>, a: seq<Bloque>, e: seq<Bloque>, da: seq<nat>, de: seq<nat>, maximo: int, actual: int)
    requires |de| == |e| && maximo == PresupuestoDia - Seqs.SumInt(da) && actual == Seqs.SumInt(de)
    requires maximo < actual == 0
    ensures RecortarEscrito(bs, a, e, Some(da), Some(de)) == Err(DivisionPorCero)
  {
  }

  /** Past a budget and with some flexible time, the reducer as written
      scales the flexible blocks and keeps the anchors; when the budget is
      not negative the flexible minutes fit in it. */
  lemma RecortarFuera(bs: seq<Bloque>, a: seq<Bloque>, e: seq<Bloque>, da: seq<nat>, de: seq<nat>, maximo: int, actual: int)
    requires |de| == |e| && Todas(a, EsAnclado()) && Todas(e, No(EsAnclado())) && Duraciones(e) == Some(de)
    requires maximo == PresupuestoDia - Seqs.SumInt(da) && actual == Seqs.SumInt(de)
    requires maximo < actual && actual != 0
    ensures actual > 0
    ensures RecortarEscrito(bs, a, e, Some(da), Some(de)) == Ok(Recorte(a, e, de, maximo, actual))
    ensures Anclados(Recorte(a, e, de, maximo, actual)) == a
    ensures maximo >= 0 ==>
      Duraciones(Flexibles(Recorte(a, e, de, maximo, actual))).Some? &&
      Total(Flexibles(Recorte(a, e, de, maximo, actual))) <= maximo
  {
    Seqs.SumIntNonNeg(de);
    EscritoRecorta(bs, a, e, da, de);
    AncladosIntactos(a, e, de, maximo, actual);
    if maximo >= 0 {
      Reducidos(a, e, de, maximo, actual);
    }
  }

  /** Scaling the flexible blocks, by any factor, leaves the anchors as
      they were. */
  lemma AncladosIntactos(a: seq<Bloque>, e: seq<Bloque>, de: seq<nat>, maximo: int, actual: int)
    requires Todas(a, EsAnclado()) && Todas(e, No(EsAnclado()))
    requires |de| == |e| && actual > 0
    ensures Anclados(Recorte(a, e, de, maximo, actual)) == a
  {
    var ns := NuevasDuraciones(de, maximo, actual);
    ReescritosFlexibles(e, ns);
    FiltrosSeparados(a, Reescritos(e, ns));
  }

  /** When the anchors fit in the day's budget the clamp never binds: the
      reducer as written and the clamped reducer agree on the plan. */
  lemma EscritoCoincide(bs: seq<Bloque>)
    requires Total(Anclados(bs)) <= PresupuestoDia
    ensures ReducirEscrito(bs) == Reducir(bs)
  {
    var a, e := Anclados(bs), Flexibles(bs);
    if Duraciones(a).Some? && Duraciones(e).Some? {
      var da, de := Duraciones(a).value, Duraciones(e).value;
      EscritoPartido(bs, a, e, da, de);
      ReducirPartido(bs, a, e, da, de);
      if Seqs.SumInt(de) > PresupuestoDia - Seqs.SumInt(da) {
        Seqs.SumIntNonNeg(de);
        EscritoRecorta(bs, a, e, da, de);
      }
    }
  }

  /** The clamped reducer sees the two comprehensions with their minutes. */
  lemma ReducirPartido(bs: seq<Bloque>, a: seq<Bloque>, e: seq<Bloque>, da: seq<nat>, de: seq<nat>)
    requires a == Anclados(bs) && e == Flexibles(bs)
    requires Duraciones(a) == Some(da) && Duraciones(e) == Some(de)
    ensures |de| == |e|
    ensures Seqs.SumInt(de) <= Presupuesto(Seqs.SumInt(da)) ==> Reducir(bs) == Ok(bs)
    ensures Seqs.SumInt(de) > Presupuesto(Seqs.SumInt(da)) ==>
      Reducir(bs) == Ok(Recorte(a, e, de, Presupuesto(Seqs.SumInt(da)), Seqs.SumInt(de)))
  {
  }

  /** When the anchors alone take more than the budget and no block is
      flexible, the reducer as written divides by zero (a single anchored
      `15h` block will do); with the budget clamped at zero the plan comes
      back as it was. */
  lemma ReducirEscritoSinFlexibles(bs: seq<Bloque>)
    requires Todas(bs, EsAnclado()) && Duraciones(bs).Some?
    requires Seqs.SumInt(Duraciones(bs).value) > PresupuestoDia
    ensures ReducirEscrito(bs) == Err(DivisionPorCero)
    ensures Reducir(bs) == Ok(bs)
  {
    FiltrosSeparados(bs, []);
    assert bs + [] == bs;
    TodosPresentes(Minutos([]), []);
  }

  /** When the anchors alone take more than the budget, the reducer as
      written gives a single flexible block the negative overrun as its
      duration. */
  lemma ReducirEscritoNegativo(a: seq<Bloque>, f: Bloque, d: nat, da: seq<nat>, m: int)
    requires AncladosYUno(a, f, d, da)
    requires m == PresupuestoDia - Seqs.SumInt(da) && m < 0
    ensures ReducirEscrito(a + [f]) == Ok(a + [f.(duracion := Formato(m))])
  {
    EscritoUnFlexible(a, f, d, da);
    RecorteNegativo(a, f, d, m);
  }

  /** Anchored blocks with minutes `da`, and one flexible block of `d > 0`
      minutes. */
  predicate AncladosYUno(a: seq<Bloque>, f: Bloque, d: nat, da: seq<nat>) {
    Todas(a, EsAnclado()) && Duraciones(a) == Some(da) && f.flexible && ParsearDuracion(f.duracion) == Some(d) && d > 0
  }

  /** One flexible block scaled to a negative budget gets that budget. */
  lemma RecorteNegativo(a: seq<Bloque>, f: Bloque, d: nat, m: int)
    requires d > 0 && m < 0
    ensures Recorte(a, [f], [d], m, d) == a + [f.(duracion := Formato(m))]
  {
    RecorteUno(a, f, d, m);
    Cociente(d, m);
  }

  /** The reducer as written on anchors and one flexible block that does
      not fit: the block's minutes are scaled to what is left. */
  lemma EscritoUnFlexible(a: seq<Bloque>, f: Bloque, d: nat, da: seq<nat>)
    requires AncladosYUno(a, f, d, da)
    requires d > PresupuestoDia - Seqs.SumInt(da)
    ensures ReducirEscrito(a + [f]) == Ok(Recorte(a, [f], [d], PresupuestoDia - Seqs.SumInt(da), d))
  {
    EscritoPartes(a, f, d, da);
    EscritoRecortaUno(a, f, d, da);
  }

  /** The reducer as written, on anchors and one flexible block, sees the
      anchors and the block with their minutes. */
  lemma EscritoPartes(a: seq<Bloque>, f: Bloque, d: nat, da: seq<nat>)
    requires Todas(a, EsAnclado()) && Duraciones(a) == Some(da)
    requires f.flexible && ParsearDuracion(f.duracion) == Some(d)
    ensures ReducirEscrito(a + [f]) == RecortarEscrito(a + [f], a, [f], Some(da), Some([d]))
  {
    UnFlexible(a, f, d);
  }

  lemma EscritoRecortaUno(a: seq<Bloque>, f: Bloque, d: nat, da: seq<nat>)
    requires d > 0 && d > PresupuestoDia - Seqs.SumInt(da)
    ensures RecortarEscrito(a + [f], a, [f], Some(da), Some([d])) == Ok(Recorte(a, [f], [d], PresupuestoDia - Seqs.SumInt(da), d))
  {
    assert Seqs.SumInt([d]) == d;
    EscritoRecorta(a + [f], a, [f], da, [d]);
  }

  /** Past the budget and with some flexible time, the reducer as written
      scales the flexible blocks to the budget. */
  lemma EscritoRecorta(bs: seq<Bloque>, an: seq<Bloque>, em: seq<Bloque>, da: seq<nat>, de: seq<nat>)
    requires |de| == |em|
    requires Seqs.SumInt(de) > PresupuestoDia - Seqs.SumInt(da) && Seqs.SumInt(de) > 0
    ensures RecortarEscrito(bs, an, em, Some(da), Some(de)) == Ok(Recorte(an, em, de, PresupuestoDia - Seqs.SumInt(da), Seqs.SumInt(de)))
  {
    RecortarPasado(bs, an, em, da, de, PresupuestoDia - Seqs.SumInt(da), Seqs.SumInt(de));
  }

  lemma RecortarPasado(bs: seq<Bloque>, a: seq<Bloque>, e: seq<Bloque>, da: seq<nat>, de: seq<nat>, maximo: int, actual: int)
    requires |de| == |e| && maximo == PresupuestoDia - Seqs.SumInt(da) && actual == Seqs.SumInt(de)
    requires maximo < actual && actual > 0
    ensures RecortarEscrito(bs, a, e, Some(da), Some(de)) == Ok(Recorte(a, e, de, maximo, actual))
  {
  }

  /** One flexible block of `d` minutes scaled to `m` minutes. */
  lemma RecorteUno(a: seq<Bloque>, f: Bloque, d: nat, m: int)
    requires d > 0
    ensures Recorte(a, [f], [d], m, d) == a + [f.(duracion := Formato(DivTrunc(d * m, d)))]
  {
    assert NuevasDuraciones([d], m, d) == [DivTrunc(d * m, d)];
  }

  /** The same plan, reduced with the budget clamped at zero: the flexible
      block gets no time. */
  lemma ReducirSinTiempo(a: seq<Bloque>, f: Bloque, d: nat)
    requires Todas(a, EsAnclado()) && Duraciones(a).Some?
    requires Seqs.SumInt(Duraciones(a).value) > PresupuestoDia
    requires f.flexible && ParsearDuracion(f.duracion) == Some(d) && d > 0
    ensures Reducir(a + [f]) == Ok(a + [f.(duracion := Formato(0))])
  {
    assert Presupuesto(Seqs.SumInt(Duraciones(a).value)) == 0;
    ReducidoUnFlexible(a, f, d);
    RecorteCero(a, f, d);
  }

  /** One flexible block scaled to no time gets none. */
  lemma RecorteCero(a: seq<Bloque>, f: Bloque, d: nat)
    requires d > 0
    ensures Recorte(a, [f], [d], 0, d) == a + [f.(duracion := Formato(0))]
  {
    RecorteUno(a, f, d, 0);
    assert DivTrunc(d * 0, d) == 0;
  }

  /** The reducer on anchors and one flexible block that does not fit: the
      block's minutes are scaled to the clamped budget. */
  lemma ReducidoUnFlexible(a: seq<Bloque>, f: Bloque, d: nat)
    requires Todas(a, EsAnclado()) && Duraciones(a).Some?
    requires f.flexible && ParsearDuracion(f.duracion) == Some(d) && d > 0
    requires d > Presupuesto(Seqs.SumInt(Duraciones(a).value))
    ensures Reducir(a + [f]) == Ok(Recorte(a, [f], [d], Presupuesto(Seqs.SumInt(Duraciones(a).value)), d))
  {
    UnFlexible(a, f, d);
  }

  /** Anchors and one flexible block split back into the two, with the
      block's minutes. */
  lemma UnFlexible(a: seq<Bloque>, f: Bloque, d: nat)
    requires Todas(a, EsAnclado())
    requires f.flexible && ParsearDuracion(f.duracion) == Some(d)
    ensures Seqs.Filter(a + [f], EsAnclado()) == a
    ensures Seqs.Filter(a + [f], No(EsAnclado())) == [f]
    ensures Duraciones([f]) == Some([d]) && Seqs.SumInt([d]) == d
  {
    FlexibleSeparado(a, f);
    MinutosDeUno(f, d);
  }

  /** Anchors and one flexible block split back into the two. */
  lemma FlexibleSeparado(a: seq<Bloque>, f: Bloque)
    requires Todas(a, EsAnclado()) && f.flexible
    ensures Seqs.Filter(a + [f], EsAnclado()) == a
    ensures Seqs.Filter(a + [f], No(EsAnclado())) == [f]
  {
    assert Todas([f], No(EsAnclado()));
    FiltrosSeparados(a, [f]);
  }

  /** One block whose duration reads as `d` minutes. */
  lemma MinutosDeUno(f: Bloque, d: nat)
    requires ParsearDuracion(f.duracion) == Some(d)
    ensures Duraciones([f]) == Some([d]) && Seqs.SumInt([d]) == d
  {
    TodosPresentes(Minutos([f]), [d]);
  }

  /** Dividing `d * m` by `d` toward zero gives back `m`. */
  lemma Cociente(d: int, m: int)
    requires d > 0 && m < 0
    ensures DivTrunc(d * m, d) == m
  {
    var q := DivTrunc(d * m, d);
    DivTruncSpec(d * m, d);
    assert q * d - d < d * m <= q * d;
    if q > m {
      MulMonotono(m + 1, q, d);
      Distribuye(m, 1, d);
    } else if q < m {
      MulMonotono(q + 1, m, d);
      Distribuye(q, 1, d);
    }
  }

  lemma MulMonotono(x: int, y: int, d: int)
    requires x <= y && d > 0
    ensures x * d <= y * d
  {
  }

  /** A single anchored block of fifteen hours satisfies the premise of
      `ReducirEscritoSinFlexibles`. */
  lemma QuinceHorasExceden(b: Bloque)
    requires !b.flexible && b.duracion == Text.NatToString(15) + UnidadHoras
    ensures Todas([b], EsAnclado()) && Duraciones([b]) == Some([900])
    ensures Seqs.SumInt(Duraciones([b]).value) > PresupuestoDia
  {
    assert Minutos([b]) == [Some(900)] by {
      HorasRoundTrip(15);
    }
    TodosPresentes([Some(900)], [900]);
    assert Seqs.SumInt([900]) == 900;
  }

  // ---------------------------------------------------------------------------
  // Non-negotiables
  // ---------------------------------------------------------------------------

  /** The three non-negotiables with a fixed hour. */
  const Movimiento: string := "Movimiento"
  const ComidaNutritiva: string := "Comida nutritiva"
  const LecturaProfunda: string := "Lectura profunda"

  /** The fixed hours of `_calcular_mejor_hora_no_negociable`: 07:00, 13:00
      and 21:30. */
  const HorasFijas: Assoc.Dict<string, string> :=
    [(Movimiento, Hora(420)), (ComidaNutritiva, Hora(780)), (LecturaProfunda, Hora(1290))]

  /** The hour of any other non-negotiable, 12:00. */
  const Mediodia: string := Hora(720)

  /** The hour a non-negotiable is placed at: its fixed hour, or noon. */
  function MejorHoraNoNegociable(nombre: string): (h: string)
  {
    Assoc.Get(HorasFijas, nombre).GetOr(Mediodia)
  }

  /** Each named non-negotiable gets its hour and every other one noon. */
  lemma HorasNoNegociables(nombre: string)
    ensures nombre == Movimiento ==> MejorHoraNoNegociable(nombre) == Hora(420)
    ensures nombre == ComidaNutritiva ==> MejorHoraNoNegociable(nombre) == Hora(780)
    ensures nombre == LecturaProfunda ==> MejorHoraNoNegociable(nombre) == Hora(1290)
    ensures nombre != Movimiento && nombre != ComidaNutritiva && nombre != LecturaProfunda ==>
      MejorHoraNoNegociable(nombre) == Hora(720)
  {
    var d := HorasFijas;
    assert Movimiento[0] == 'M' && ComidaNutritiva[0] == 'C' && LecturaProfunda[0] == 'L';
    Assoc.GetCons(d[0], d[1..], nombre);
    Assoc.GetCons(d[1], d[2..], nombre);
    Assoc.GetCons(d[2], d[3..], nombre);
    assert d == [d[0]] + d[1..] && d[1..] == [d[1]] + d[2..] && d[2..] == [d[2]] + d[3..];
    assert Assoc.Get(d[3..], nombre) == None;
  }

  /** Only the evening reading lands at or after 14:00. */
  lemma NoNegociableAntesDeLas14(nombre: string)
    ensures Text.Less(MejorHoraNoNegociable(nombre), "14:00") <==> nombre != LecturaProfunda
  {
    HorasNoNegociables(nombre);
    if nombre == Movimiento {
      MananaAntesDeLas14(420);
    } else if nombre == ComidaNutritiva {
      MananaAntesDeLas14(780);
    } else if nombre == LecturaProfunda {
      MananaAntesDeLas14(1290);
    } else {
      MananaAntesDeLas14(720);
    }
  }
}

/** The day-validation screen (`ValidacionSimplificada`): the list of
    intensive work blocks the user arranges for the day, their durations, and
    the minutes they take out of a 16-hour waking day.

    Block times come from `<input type="time">` fields and are modelled as
    already-split hour and minute numbers.
 */
module DayBlocks {

  import opened Wrappers
  import Text
  import Seqs

  datatype Hora = Hora(h: int, m: int)

  datatype Bloque = Bloque(
    id: string,
    horaInicio: Hora,
    horaFin: Hora,
    titulo: string,
    tipo: string,
    energiaFase: string,
    dimension: string,
    color: string)

  /** Minutes since midnight: `h * 60 + m`. */
  function Minutos(t: Hora): int {
    t.h * 60 + t.m
  }

  /** End minus start, in minutes; negative when the block ends before it
      starts. */
  function DuracionMin(b: Bloque): (r: int)
    ensures Minutos(b.horaInicio) + r == Minutos(b.horaFin)
  {
    Minutos(b.horaFin) - Minutos(b.horaInicio)
  }

  // ---------------------------------------------------------------------------
  // calcularDuracion
  // ---------------------------------------------------------------------------

  /** JavaScript's `a % b` for `b > 0`: the sign follows the dividend. */
  function JsRem(a: int, b: int): (r: int)
    requires b > 0
    ensures a >= 0 ==> r == a % b
    ensures -b < r < b
    ensures a < 0 ==> r <= 0
  {
    if a >= 0 then a % b else -((-a) % b)
  }

  /** The remainder is odd in its dividend: `-a % b == -(a % b)`. */
  lemma JsRemOdd(a: int, b: int)
    requires b > 0
    ensures JsRem(-a, b) == -JsRem(a, b)
  {
  }

  /** `calcularDuracion`: whole hours from `Math.floor(d / 60)`, minutes from
      `d % 60`, printed as `Xh Ymin`, `Xh` or `Ymin`. */
  function Duracion(inicio: Hora, fin: Hora): (r: string)
  {
    Etiqueta(Minutos(fin) - Minutos(inicio))
  }

  /** The label for a span of `d` minutes: whole hours, then the truncated
      remainder, each part only when it is non-zero. */
  function Etiqueta(d: int): (r: string)
  {
    var horas := d / 60;
    var mins := JsRem(d, 60);
    if horas > 0 && mins > 0 then Text.IntToString(horas) + "h " + Text.IntToString(mins) + "min"
    else if horas > 0 then Text.IntToString(horas) + "h"
    else Text.IntToString(mins) + "min"
  }

  /** Every character of `s` is a decimal digit. */
  predicate AllDigits(s: string) {
    forall i :: 0 <= i < |s| ==> Text.IsDigit(s[i])
  }

  /** The first position of `c` in `s`, if any. */
  function FirstIndex(s: string, c: char): (r: Option<nat>)
    ensures r.Some? ==> r.value < |s| && s[r.value] == c
    ensures r.Some? ==> forall i :: 0 <= i < r.value ==> s[i] != c
    ensures r.None? ==> forall i :: 0 <= i < |s| ==> s[i] != c
  {
    if |s| == 0 then None
    else if s[0] == c then Some(0)
    else match FirstIndex(s[1..], c)
      case None => None
      case Some(i) => Some(i + 1)
  }

  /** Reads a duration label back into minutes. */
  function ReadDuracion(s: string): (r: Option<int>)
  {
    if |s| >= 3 && s[|s| - 3..] == "min" then ReadMinBody(s[..|s| - 3])
    else if |s| >= 1 && s[|s| - 1] == 'h' && AllDigits(s[..|s| - 1]) then
      Some(Text.ParseDigits(s[..|s| - 1]) * 60)
    else None
  }

  /** The part before `min`: either `Xh Y` or just `Y`. */
  function ReadMinBody(body: string): Option<int> {
    match FirstIndex(body, 'h')
    case Some(i) =>
      var hh := body[..i];
      var rest := body[i + 1..];
      if |rest| >= 1 && rest[0] == ' ' && AllDigits(hh) && AllDigits(rest[1..])
      then Some(Text.ParseDigits(hh) * 60 + Text.ParseDigits(rest[1..]))
      else None
    case None =>
      if AllDigits(body) then Some(Text.ParseDigits(body)) else None
  }

  lemma NoHInDigits(a: string)
    requires AllDigits(a)
    ensures forall i :: 0 <= i < |a| ==> a[i] != 'h'
  {
  }

  lemma {:induction false} FirstIndexAfterDigits(a: string, b: string)
    requires AllDigits(a) && |b| > 0 && b[0] == 'h'
    ensures FirstIndex(a + b, 'h') == Some(|a|)
    decreases |a|
  {
    if |a| == 0 {
      assert a + b == b;
    } else {
      assert (a + b)[0] == a[0] != 'h';
      assert (a + b)[1..] == a[1..] + b;
      FirstIndexAfterDigits(a[1..], b);
    }
  }

  /** For a block that does not end before it starts, the label reads back
      as exactly its duration. */
  lemma DuracionRoundTrip(inicio: Hora, fin: Hora)
    requires Minutos(inicio) <= Minutos(fin)
    ensures ReadDuracion(Duracion(inicio, fin)) == Some(Minutos(fin) - Minutos(inicio))
  {
    var d := Minutos(fin) - Minutos(inicio);
    assert Duracion(inicio, fin) == Etiqueta(d);
    EtiquetaRoundTrip(d);
  }

  /** The label of a non-negative span reads back as that span. */
  lemma EtiquetaRoundTrip(d: nat)
    ensures ReadDuracion(Etiqueta(d)) == Some(d)
  {
    var horas, mins := d / 60, d % 60;
    assert d == horas * 60 + mins;
    assert JsRem(d, 60) == mins;
    if horas > 0 && mins > 0 {
      ReadBoth(horas, mins);
    } else if horas > 0 {
      ReadHours(horas);
    } else {
      ReadMinutes(mins);
    }
  }

  lemma ReadBoth(horas: nat, mins: nat)
    requires horas > 0 && mins > 0
    ensures ReadDuracion(Text.NatToString(horas) + "h " + Text.NatToString(mins) + "min") == Some(horas * 60 + mins)
  {
    var A, B := Text.NatToString(horas), Text.NatToString(mins);
    var s := A + "h " + B + "min";
    var body := A + "h " + B;
    assert s[|s| - 3..] == "min" && s[..|s| - 3] == body;
    ReadBothBody(A, B);
    Text.NatToStringRoundTrip(horas);
    Text.NatToStringRoundTrip(mins);
  }

  lemma ReadBothBody(A: string, B: string)
    requires AllDigits(A) && AllDigits(B)
    ensures ReadMinBody(A + "h " + B) == Some(Text.ParseDigits(A) * 60 + Text.ParseDigits(B))
  {
    var t := "h " + B;
    var body := A + t;
    assert A + "h " + B == body;
    FirstIndexAfterDigits(A, t);
    assert body[..|A|] == A;
    assert body[|A| + 1..] == " " + B by {
      assert t[1..] == " " + B;
    }
    ReadMinBodyAt(body, |A|, A, B);
  }

  lemma ReadMinBodyAt(body: string, i: nat, A: string, B: string)
    requires FirstIndex(body, 'h') == Some(i)
    requires body[..i] == A && body[i + 1..] == " " + B
    requires AllDigits(A) && AllDigits(B)
    ensures ReadMinBody(body) == Some(Text.ParseDigits(A) * 60 + Text.ParseDigits(B))
  {
    assert (" " + B)[1..] == B;
  }

  lemma ReadHours(horas: nat)
    requires horas > 0
    ensures ReadDuracion(Text.NatToString(horas) + "h") == Some(horas * 60)
  {
    var A := Text.NatToString(horas);
    Text.NatToStringRoundTrip(horas);
    var s := A + "h";
    assert s[|s| - 1] == 'h' && s[..|s| - 1] == A;
    if |s| >= 3 {
      assert s[|s| - 3..][2] == 'h';
    }
  }

  lemma ReadMinutes(mins: nat)
    ensures ReadDuracion(Text.NatToString(mins) + "min") == Some(mins)
  {
    var B := Text.NatToString(mins);
    Text.NatToStringRoundTrip(mins);
    var s := B + "min";
    assert s[|s| - 3..] == "min" && s[..|s| - 3] == B;
    NoHInDigits(B);
  }

  /** A negative duration loses its whole hours: only the truncated
      remainder is shown. */
  lemma NegativeDuracionDropsHours(inicio: Hora, fin: Hora)
    requires Minutos(fin) < Minutos(inicio)
    ensures Duracion(inicio, fin) == Text.IntToString(JsRem(Minutos(fin) - Minutos(inicio), 60)) + "min"
  {
  }

  // ---------------------------------------------------------------------------
  // Block list
  // ---------------------------------------------------------------------------

  const DefaultColor := "#22C55E"

  /** `generarSugerenciaInicial`: two 90-minute development blocks. */
  function SugerenciaInicial(): (r: seq<Bloque>)
    ensures |r| == 2
  {
    [ Bloque("b1", Hora(9, 0), Hora(10, 30), "Bloque de trabajo profundo 1", "desarrollo", "alta", "desarrollo", DefaultColor),
      Bloque("b2", Hora(15, 0), Hora(16, 30), "Bloque de trabajo profundo 2", "desarrollo", "moderada", "desarrollo", DefaultColor) ]
  }

  /** The initial suggestion takes three hours. */
  lemma SugerenciaInicialMinutes()
    ensures MinutosAsignados(SugerenciaInicial()) == 180
  {
    var r := SugerenciaInicial();
    assert r[..1][..0] == [];
    assert DuracionMin(r[0]) == 90 && DuracionMin(r[1]) == 90;
  }

  /** `agregarBloque`: a new 10:00-11:30 block at the end; its id is `b`
      followed by the clock reading, which is an input here. */
  function AgregarBloque(bs: seq<Bloque>, now: nat): (r: seq<Bloque>)
    ensures |r| == |bs| + 1 && r[..|bs|] == bs
    ensures r[|bs|].id == "b" + Text.NatToString(now)
    ensures DuracionMin(r[|bs|]) == 90
  {
    bs + [Bloque("b" + Text.NatToString(now), Hora(10, 0), Hora(11, 30), "Nuevo bloque de trabajo",
      "desarrollo", "alta", "desarrollo", DefaultColor)]
  }

  /** The field written by `actualizarBloque`, with its new value. */
  datatype Cambio =
    | CambiarId(id: string)
    | CambiarInicio(t: Hora)
    | CambiarFin(t: Hora)
    | CambiarTitulo(s: string)
    | CambiarTipoCampo(s: string)
    | CambiarEnergia(s: string)
    | CambiarDimension(s: string)
    | CambiarColor(s: string)

  function Aplicar(b: Bloque, c: Cambio): Bloque {
    match c
    case CambiarId(v) => b.(id := v)
    case CambiarInicio(t) => b.(horaInicio := t)
    case CambiarFin(t) => b.(horaFin := t)
    case CambiarTitulo(v) => b.(titulo := v)
    case CambiarTipoCampo(v) => b.(tipo := v)
    case CambiarEnergia(v) => b.(energiaFase := v)
    case CambiarDimension(v) => b.(dimension := v)
    case CambiarColor(v) => b.(color := v)
  }

  /** `actualizarBloque`: every block with the id gets the change; all
      others are kept as they are, in place. */
  function ActualizarBloque(bs: seq<Bloque>, id: string, c: Cambio): (r: seq<Bloque>)
    ensures |r| == |bs|
    ensures forall i :: 0 <= i < |bs| && bs[i].id != id ==> r[i] == bs[i]
    ensures forall i :: 0 <= i < |bs| && bs[i].id == id ==> r[i] == Aplicar(bs[i], c)
  {
    seq(|bs|, i requires 0 <= i < |bs| => if bs[i].id == id then Aplicar(bs[i], c) else bs[i])
  }

  /** Each change writes one field and leaves the other seven alone. */
  lemma AplicarTouchesOneField(b: Bloque, v: string, t: Hora)
    ensures Aplicar(b, CambiarTitulo(v)) == b.(titulo := v)
    ensures Aplicar(b, CambiarInicio(t)).(horaInicio := b.horaInicio) == b
    ensures Aplicar(b, CambiarColor(v)).(color := b.color) == b
    ensures Aplicar(b, CambiarDimension(v)).(dimension := b.dimension) == b
  {
  }

  /** The block types and the dimension and colour each one implies. */
  datatype TipoInfo = TipoInfo(value: string, dimension: string, color: string)

  function TiposBloque(): seq<TipoInfo> {
    [ TipoInfo("creacion", "creatividad", "#8B5CF6"),
      TipoInfo("desarrollo", "desarrollo", "#22C55E"),
      TipoInfo("aprendizaje", "conocimiento", "#EAB308"),
      TipoInfo("relaciones", "relaciones", "#3B82F6") ]
  }

  function FindTipo(ts: seq<TipoInfo>, tipo: string): (r: Option<TipoInfo>)
    ensures r.Some? ==> r.value in ts && r.value.value == tipo
    ensures r.None? ==> forall i :: 0 <= i < |ts| ==> ts[i].value != tipo
  {
    if |ts| == 0 then None
    else if ts[0].value == tipo then Some(ts[0])
    else FindTipo(ts[1..], tipo)
  }

  /** `cambiarTipo`: a known type sets type, dimension and colour together;
      an unknown type changes nothing. */
  function CambiarTipo(bs: seq<Bloque>, id: string, tipo: string): (r: seq<Bloque>)
    ensures |r| == |bs|
    ensures FindTipo(TiposBloque(), tipo).None? ==> r == bs
    ensures forall i :: 0 <= i < |bs| && bs[i].id != id ==> r[i] == bs[i]
    ensures FindTipo(TiposBloque(), tipo).Some? ==>
      var info := FindTipo(TiposBloque(), tipo).value;
      forall i :: 0 <= i < |bs| && bs[i].id == id ==>
        r[i] == bs[i].(tipo := tipo, dimension := info.dimension, color := info.color)
  {
    match FindTipo(TiposBloque(), tipo)
    case None => bs
    case Some(info) =>
      var b1 := ActualizarBloque(bs, id, CambiarTipoCampo(tipo));
      var b2 := ActualizarBloque(b1, id, CambiarDimension(info.dimension));
      ActualizarBloque(b2, id, CambiarColor(info.color))
  }

  function OtherId(id: string): Bloque -> bool {
    (b: Bloque) => b.id != id
  }

  function SameId(id: string): Bloque -> bool {
    (b: Bloque) => b.id == id
  }

  /** `eliminarBloque`: the blocks whose id differs, in order. */
  function EliminarBloque(bs: seq<Bloque>, id: string): (r: seq<Bloque>)
    ensures forall i :: 0 <= i < |r| ==> r[i].id != id && r[i] in bs
    ensures forall i :: 0 <= i < |bs| && bs[i].id != id ==> bs[i] in r
    ensures Seqs.Subsequence(r, bs)
    ensures forall b {:trigger Seqs.Count(r, b)} :: Seqs.Count(r, b) == if b.id != id then Seqs.Count(bs, b) else 0
  {
    Seqs.FilterOrder(bs, OtherId(id));
    Seqs.Filter(bs, OtherId(id))
  }

  /** A block added at the end survives the removal at the end, unless it
      carries the removed id. */
  lemma EliminarBloqueAlFinal(bs: seq<Bloque>, b: Bloque, id: string)
    ensures EliminarBloque(bs + [b], id) == EliminarBloque(bs, id) + (if b.id != id then [b] else [])
  {
    Seqs.FilterSnoc(bs, b, OtherId(id));
  }

  /** The blocks `eliminarBloque` removes. */
  function ConId(bs: seq<Bloque>, id: string): seq<Bloque> {
    Seqs.Filter(bs, SameId(id))
  }

  // ---------------------------------------------------------------------------
  // Allocated time
  // ---------------------------------------------------------------------------

  /** `minutosAsignados`: the sum of all block durations. */
  function MinutosAsignados(bs: seq<Bloque>): int
    decreases |bs|
  {
    if |bs| == 0 then 0 else MinutosAsignados(bs[..|bs| - 1]) + DuracionMin(bs[|bs| - 1])
  }

  lemma {:induction false} MinutosAppend(a: seq<Bloque>, b: seq<Bloque>)
    ensures MinutosAsignados(a + b) == MinutosAsignados(a) + MinutosAsignados(b)
    decreases |b|
  {
    if |b| == 0 {
      assert a + b == a;
    } else {
      MinutosAppend(a, b[..|b| - 1]);
      assert (a + b)[..|a + b| - 1] == a + b[..|b| - 1];
      assert (a + b)[|a + b| - 1] == b[|b| - 1];
    }
  }

  /** Adding a block adds its 90 minutes. */
  lemma AgregarAddsMinutes(bs: seq<Bloque>, now: nat)
    ensures MinutosAsignados(AgregarBloque(bs, now)) == MinutosAsignados(bs) + 90
  {
    var r := AgregarBloque(bs, now);
    assert r[..|r| - 1] == bs;
  }

  /** Deleting blocks takes away exactly their minutes: what remains plus
      what was removed is the old total. */
  lemma {:induction false} EliminarSplitsMinutes(bs: seq<Bloque>, id: string)
    ensures MinutosAsignados(EliminarBloque(bs, id)) + MinutosAsignados(ConId(bs, id)) == MinutosAsignados(bs)
    decreases |bs|
  {
    if |bs| > 0 {
      var init, last := bs[..|bs| - 1], bs[|bs| - 1];
      assert bs == init + [last];
      EliminarSplitsMinutes(init, id);
      var e, c := EliminarBloque(init, id), ConId(init, id);
      EliminarBloqueAlFinal(init, last, id);
      ConIdAlFinal(init, last, id);
      if last.id != id {
        assert EliminarBloque(bs, id) == e + [last] && ConId(bs, id) == c;
        MinutosAlFinal(e, last);
      } else {
        assert EliminarBloque(bs, id) == e && ConId(bs, id) == c + [last];
        MinutosAlFinal(c, last);
      }
    }
  }

  lemma ConIdAlFinal(bs: seq<Bloque>, b: Bloque, id: string)
    ensures ConId(bs + [b], id) == ConId(bs, id) + (if b.id == id then [b] else [])
  {
    Seqs.FilterSnoc(bs, b, SameId(id));
  }

  lemma MinutosAlFinal(bs: seq<Bloque>, b: Bloque)
    ensures MinutosAsignados(bs + [b]) == MinutosAsignados(bs) + DuracionMin(b)
  {
    assert (bs + [b])[..|bs|] == bs;
  }

  /** The share of a 16-hour day taken by the blocks, and the rest
      ("chaos"): the two always add up to 100. */
  function PorcentajeAsignado(bs: seq<Bloque>): (r: real)
    ensures r * 960.0 == MinutosAsignados(bs) as real * 100.0
  {
    MinutosAsignados(bs) as real / 960.0 * 100.0
  }

  function PorcentajeCaos(bs: seq<Bloque>): (r: real)
    ensures r + PorcentajeAsignado(bs) == 100.0
  {
    100.0 - PorcentajeAsignado(bs)
  }
}

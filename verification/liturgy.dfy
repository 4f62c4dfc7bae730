/** The five liturgical moments of the day (`MomentoLiturgico`), shared by
    every module that schedules around prayer times.
 */
module Liturgy {

  import opened Wrappers

  datatype Momento = Fajr | Dhuhr | Asr | Maghrib | Isha

  /** The moments in the order of the day. */
  const Momentos: seq<Momento> := [Fajr, Dhuhr, Asr, Maghrib, Isha]

  /** The enum's value, as stored and sent. */
  function Nombre(m: Momento): (r: string) {
    match m
    case Fajr => "fajr"
    case Dhuhr => "dhuhr"
    case Asr => "asr"
    case Maghrib => "maghrib"
    case Isha => "isha"
  }

  /** `MomentoLiturgico(s)`: the moment with that value, if any. */
  function DeNombre(s: string): (r: Option<Momento>)
    ensures r.Some? ==> Nombre(r.value) == s
  {
    if s == "fajr" then Some(Fajr)
    else if s == "dhuhr" then Some(Dhuhr)
    else if s == "asr" then Some(Asr)
    else if s == "maghrib" then Some(Maghrib)
    else if s == "isha" then Some(Isha)
    else None
  }

  /** Values and moments correspond one to one. */
  lemma NombreRoundTrip(m: Momento)
    ensures DeNombre(Nombre(m)) == Some(m)
    ensures forall n :: Nombre(n) == Nombre(m) ==> n == m
  {
  }

  /** Position of a moment in the day, 0 for fajr to 4 for isha. */
  function Orden(m: Momento): (i: nat)
    ensures i < 5 && Momentos[i] == m
  {
    match m
    case Fajr => 0
    case Dhuhr => 1
    case Asr => 2
    case Maghrib => 3
    case Isha => 4
  }
}

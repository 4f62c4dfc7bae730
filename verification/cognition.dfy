/** The cognitive layer (`PerfilCognitivo`, layer 6): an MBTI function stack
    and an Enneagram profile. The hour of the day picks the active function
    of the stack, observed patterns estimate the Enneagram health level, and
    both feed the mental context of a moment.
 */
module Cognition {

  import opened Wrappers
  import Text
  import Seqs

  datatype Funcion = Ne | Ni | Se | Si | Te | Ti | Fe | Fi

  datatype Mbti =
    | INTJ | INTP | ENTJ | ENTP | INFJ | INFP | ENFJ | ENFP
    | ISTJ | ISFJ | ESTJ | ESFJ | ISTP | ISFP | ESTP | ESFP

  datatype PerfilMbti = PerfilMbti(
    tipo: Mbti,
    dominante: Funcion,
    auxiliar: Funcion,
    terciaria: Funcion,
    inferior: Funcion,
    sombra: seq<Funcion>)

  datatype NivelSalud = Saludable | Promedio | NoSaludable

  /** Enneagram types are the integers 1..9. */
  type TipoEneagrama = t: int | 1 <= t <= 9 witness 1

  datatype PerfilEneagrama = PerfilEneagrama(
    tipoBase: TipoEneagrama,
    alaDominante: Option<int>,
    alaSecundaria: Option<int>,
    lineaIntegracion: int,
    lineaDesintegracion: int,
    nivelSalud: NivelSalud,
    motivacionBasica: string,
    miedoBasico: string,
    pasion: string,
    virtud: string)

  datatype PerfilCognitivo = PerfilCognitivo(mbti: PerfilMbti, eneagrama: PerfilEneagrama)

  // ---------------------------------------------------------------------------
  // Active function
  // ---------------------------------------------------------------------------

  /** The four positions of the stack. */
  datatype Posicion = Dominante | Auxiliar | Terciaria | Inferior

  /** Which stack position the hour selects: mornings the dominant, afternoons
      the auxiliary, early evenings the tertiary, and everything else
      (late night, and any hour outside 0..23) the inferior. */
  function PosicionPorHora(hora: int): (p: Posicion)
    ensures p == Dominante <==> 6 <= hora < 12
    ensures p == Auxiliar <==> 12 <= hora < 18
    ensures p == Terciaria <==> 18 <= hora < 22
    ensures p == Inferior <==> (hora < 6 || hora >= 22)
  {
    if 6 <= hora < 12 then Dominante
    else if 12 <= hora < 18 then Auxiliar
    else if 18 <= hora < 22 then Terciaria
    else Inferior
  }

  function EnPosicion(m: PerfilMbti, p: Posicion): Funcion {
    match p
    case Dominante => m.dominante
    case Auxiliar => m.auxiliar
    case Terciaria => m.terciaria
    case Inferior => m.inferior
  }

  /** `_descripcion_funcion`; every function has an entry, so the table's
      fallback text is never produced. */
  function Descripcion(f: Funcion): (r: string)
    ensures r != "Función cognitiva"
  {
    match f
    case Ne => "Exploración de posibilidades, conexiones, ideas divergentes"
    case Ni => "Visión convergente, insight profundo, futuro"
    case Se => "Experiencia sensorial presente, acción inmediata"
    case Si => "Memoria detallada, datos pasados, tradición"
    case Te => "Organización externa, eficiencia, logística"
    case Ti => "Análisis lógico interno, comprensión de sistemas"
    case Fe => "Armonía grupal, conexión social, valores compartidos"
    case Fi => "Autenticidad interna, valores personales, identidad"
  }

  /** `mapear_funcion_activa`. */
  function FuncionActiva(m: PerfilMbti, hora: int): (r: (Funcion, string))
    ensures r.0 == EnPosicion(m, PosicionPorHora(hora))
    ensures r.1 == Descripcion(r.0)
  {
    var f := EnPosicion(m, PosicionPorHora(hora));
    (f, Descripcion(f))
  }

  /** A stack of four different functions. */
  predicate StackDistinto(m: PerfilMbti) {
    m.dominante != m.auxiliar && m.dominante != m.terciaria && m.dominante != m.inferior
    && m.auxiliar != m.terciaria && m.auxiliar != m.inferior && m.terciaria != m.inferior
  }

  // ---------------------------------------------------------------------------
  // Health level
  // ---------------------------------------------------------------------------

  const IndicadoresSaludables: seq<string> := ["curiosidad", "compartir conocimiento", "conexión social"]
  const IndicadoresNoSaludables: seq<string> := ["aislamiento extremo", "acumulación sin acción", "desconexión total"]

  /** Patterns that mention one of the indicators, case-insensitively. */
  function Menciona(indicadores: seq<string>): string -> bool {
    (p: string) => Text.ContainsAny(Text.Lower(p), indicadores)
  }

  /** `detectar_nivel_desde_patrones`: only type 5 has indicators; a level
      other than average needs one kind of indicator to outnumber the other
      more than twice over. */
  function NivelDesdePatrones(e: PerfilEneagrama, patrones: seq<string>): (r: NivelSalud)
    ensures e.tipoBase != 5 ==> r == Promedio
    ensures e.tipoBase == 5 ==>
      var s := Seqs.CountIf(patrones, Menciona(IndicadoresSaludables));
      var n := Seqs.CountIf(patrones, Menciona(IndicadoresNoSaludables));
      (r == Saludable <==> s > 2 * n) && (r == NoSaludable <==> n > 2 * s)
  {
    if e.tipoBase == 5 then
      var s := Seqs.CountIf(patrones, Menciona(IndicadoresSaludables));
      var n := Seqs.CountIf(patrones, Menciona(IndicadoresNoSaludables));
      if s > n * 2 then Saludable
      else if n > s * 2 then NoSaludable
      else Promedio
    else Promedio
  }

  /** With no patterns nothing outnumbers anything, and a healthy-only
      history is healthy as soon as it has one healthy pattern. */
  lemma HealthFromCounts(e: PerfilEneagrama, patrones: seq<string>)
    ensures NivelDesdePatrones(e, []) == Promedio
    ensures e.tipoBase == 5 && Seqs.CountIf(patrones, Menciona(IndicadoresNoSaludables)) == 0
            && Seqs.CountIf(patrones, Menciona(IndicadoresSaludables)) > 0
            ==> NivelDesdePatrones(e, patrones) == Saludable
  {
  }

  /** `PerfilEneagrama.generar_recordatorio`. */
  function RecordatorioEneagrama(e: PerfilEneagrama): (r: string)
    ensures var pre := "Tipo " + Text.IntToString(e.tipoBase) + ": ";
      |pre| <= |r| && r[..|pre|] == pre
  {
    var pre := "Tipo " + Text.IntToString(e.tipoBase) + ": ";
    match e.nivelSalud
    case Saludable => pre + "En tu mejor momento. Comparte tu " + e.virtud + "."
    case NoSaludable => pre + "Atención a " + e.pasion + ". Cultivar " + e.virtud + "."
    case Promedio => pre + "Equilibrio. Recordar motivación: " + e.motivacionBasica + "."
  }

  /** `f"{tipo}w{ala}"`, where a missing wing prints as `None`. */
  function EneagramaTexto(e: PerfilEneagrama): (r: string)
    ensures e.alaDominante.None? ==> r == Text.IntToString(e.tipoBase) + "wNone"
  {
    Text.IntToString(e.tipoBase) + "w"
      + (if e.alaDominante.Some? then Text.IntToString(e.alaDominante.value) else "None")
  }

  // ---------------------------------------------------------------------------
  // Mental context
  // ---------------------------------------------------------------------------

  datatype ContextoMental = ContextoMental(
    mbti: Mbti,
    funcionActiva: Funcion,
    descripcionFuncion: string,
    eneagrama: string,
    nivelSalud: NivelSalud,
    recordatorioEneagrama: string,
    activa: bool)

  /** `generar_contexto_mental`: the level is re-estimated only from a
      non-empty pattern list (a missing list counts as empty); the context
      is active when the active function is the dominant or the inferior. */
  function GenerarContextoMental(p: PerfilCognitivo, hora: int, patrones: seq<string>): (r: ContextoMental)
    ensures r.funcionActiva == EnPosicion(p.mbti, PosicionPorHora(hora))
    ensures |patrones| == 0 ==> r.nivelSalud == p.eneagrama.nivelSalud
    ensures |patrones| > 0 ==> r.nivelSalud == NivelDesdePatrones(p.eneagrama, patrones)
    ensures r.activa <==> (r.funcionActiva == p.mbti.dominante || r.funcionActiva == p.mbti.inferior)
    ensures r.recordatorioEneagrama == RecordatorioEneagrama(p.eneagrama)
  {
    var fa := FuncionActiva(p.mbti, hora);
    ContextoMental(
      p.mbti.tipo, fa.0, fa.1, EneagramaTexto(p.eneagrama),
      if |patrones| > 0 then NivelDesdePatrones(p.eneagrama, patrones) else p.eneagrama.nivelSalud,
      RecordatorioEneagrama(p.eneagrama),
      fa.0 == p.mbti.dominante || fa.0 == p.mbti.inferior)
  }

  /** For a stack of four different functions the context is active exactly
      in the morning and at night, never in the afternoon or early evening. */
  lemma ActiveByHour(p: PerfilCognitivo, hora: int, patrones: seq<string>)
    requires StackDistinto(p.mbti)
    ensures GenerarContextoMental(p, hora, patrones).activa <==> (hora < 12 || hora >= 22)
  {
  }

  /** The health level that the context reports is stored only on an empty
      list; the reminder still uses the stored level in both cases. */
  lemma ReminderUsesStoredLevel(p: PerfilCognitivo, hora: int, patrones: seq<string>)
    ensures GenerarContextoMental(p, hora, patrones).recordatorioEneagrama
            == GenerarContextoMental(p, hora, []).recordatorioEneagrama
  {
  }

  // ---------------------------------------------------------------------------
  // The ENTP 5w4 profile
  // ---------------------------------------------------------------------------

  /** `crear_perfil_entp_5w4`, without the descriptive texts. */
  function PerfilEntp5w4(): (p: PerfilCognitivo)
    ensures p.mbti.tipo == ENTP
    ensures p.eneagrama.tipoBase == 5 && p.eneagrama.alaDominante == Some(4)
    ensures p.eneagrama.lineaIntegracion == 8 && p.eneagrama.lineaDesintegracion == 7
    ensures p.eneagrama.nivelSalud == Promedio
  {
    PerfilCognitivo(
      PerfilMbti(ENTP, Ne, Ti, Fe, Si, [Ni, Te, Fi, Se]),
      PerfilEneagrama(5, Some(4), Some(6), 8, 7, Promedio,
        "Comprender el mundo, ser competente",
        "Ser incompetente, inútil, vacío",
        "Avaricia (acumular conocimiento sin acción)",
        "Desapego (compartir conocimiento sin miedo)"))
  }

  /** The profile's stack Ne/Ti/Fe/Si and its four shadows together are the
      eight functions: every function is in exactly one of the two. */
  lemma EntpStackAndShadow(f: Funcion)
    ensures var m := PerfilEntp5w4().mbti;
      StackDistinto(m) && |m.sombra| == 4
      && (f in m.sombra <==> !(f == m.dominante || f == m.auxiliar || f == m.terciaria || f == m.inferior))
  {
    var m := PerfilEntp5w4().mbti;
    assert m.sombra == [Ni, Te, Fi, Se];
  }
}

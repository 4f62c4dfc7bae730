/** The onboarding wizard store (`useOnboardingStore`).

    The store holds the wizard step (1 to 4) and a partial individual
    configuration. Every action is a function from the old store to the new
    one.
 */
module OnboardingStore {

  import opened Wrappers

  datatype NoNegociables = NoNegociables(
    fajrEstadoCero: bool,
    dhuhrEstadoCero: bool,
    asrEstadoCero: bool,
    maghribValidacion: bool,
    ishaEstadoCero: bool)

  datatype ContextoFinanciero = ContextoFinanciero(runwayMeses: int, urgencia: bool)

  datatype ContextoBiologico = ContextoBiologico(patronSueno: string, nivelEnergia: int, ejercicioRegular: bool)

  /** `Partial<ConfiguracionIndividual>`: every field may be missing. */
  datatype PartialConfig = PartialConfig(
    noNegociables: Option<NoNegociables>,
    dimensionesPrioritarias: Option<seq<string>>,
    energiaDisponible: Option<int>,
    contextoFinanciero: Option<ContextoFinanciero>,
    contextoBiologico: Option<ContextoBiologico>,
    expresionLibre: Option<string>)

  /** `ConfiguracionIndividual` as sent to the backend; `expresion_libre` is
      optional there too. */
  datatype Configuracion = Configuracion(
    userId: string,
    noNegociables: NoNegociables,
    dimensionesPrioritarias: seq<string>,
    energiaDisponible: int,
    contextoFinanciero: ContextoFinanciero,
    contextoBiologico: ContextoBiologico,
    expresionLibre: Option<string>)

  datatype Store = Store(pasoActual: int, configuracion: PartialConfig)

  const FirstStep := 1
  const LastStep := 4

  function DefaultConfig(): PartialConfig {
    PartialConfig(
      Some(NoNegociables(true, true, false, true, false)),
      Some([]),
      Some(3),
      Some(ContextoFinanciero(6, false)),
      Some(ContextoBiologico("regular", 3, false)),
      Some(""))
  }

  /** The store as created. */
  function Initial(): Store {
    Store(FirstStep, DefaultConfig())
  }

  /** The fields that `getConfiguracionCompleta` asserts non-null with `!`. */
  predicate Complete(c: PartialConfig) {
    c.noNegociables.Some? && c.dimensionesPrioritarias.Some? && c.energiaDisponible.Some?
    && c.contextoFinanciero.Some? && c.contextoBiologico.Some?
  }

  // ---------------------------------------------------------------------------
  // Navigation
  // ---------------------------------------------------------------------------

  /** `setPaso`: any number is stored as given, with no clamping. */
  function SetPaso(s: Store, paso: int): (r: Store)
    ensures r.pasoActual == paso && r.configuracion == s.configuracion
  {
    s.(pasoActual := paso)
  }

  /** Setting the step back to its old value undoes `setPaso`. */
  lemma SetPasoUndo(s: Store, paso: int)
    ensures SetPaso(SetPaso(s, paso), s.pasoActual) == s
  {
  }

  /** `siguientePaso`: one step forward, never beyond the last step. */
  function SiguientePaso(s: Store): (r: Store)
    ensures r.configuracion == s.configuracion
    ensures r.pasoActual <= LastStep
    ensures s.pasoActual < LastStep ==> r.pasoActual == s.pasoActual + 1
    ensures s.pasoActual >= LastStep ==> r.pasoActual == LastStep
  {
    s.(pasoActual := if s.pasoActual + 1 < LastStep then s.pasoActual + 1 else LastStep)
  }

  /** `anteriorPaso`: one step back, never below the first step. */
  function AnteriorPaso(s: Store): (r: Store)
    ensures r.configuracion == s.configuracion
    ensures r.pasoActual >= FirstStep
    ensures s.pasoActual > FirstStep ==> r.pasoActual == s.pasoActual - 1
    ensures s.pasoActual <= FirstStep ==> r.pasoActual == FirstStep
  {
    s.(pasoActual := if s.pasoActual - 1 > FirstStep then s.pasoActual - 1 else FirstStep)
  }

  /** Forward then back (or back then forward) returns to the same store on
      every step where the move was not clamped. */
  lemma NavigationRoundTrip(s: Store)
    ensures FirstStep <= s.pasoActual < LastStep ==> AnteriorPaso(SiguientePaso(s)) == s
    ensures FirstStep < s.pasoActual <= LastStep ==> SiguientePaso(AnteriorPaso(s)) == s
  {
  }

  /** Starting anywhere in 1..4, any sequence of forward/back moves stays in 1..4. */
  lemma {:induction false} NavigationStaysInRange(s: Store, moves: seq<bool>)
    requires FirstStep <= s.pasoActual <= LastStep
    ensures FirstStep <= Navigate(s, moves).pasoActual <= LastStep
    ensures Navigate(s, moves).configuracion == s.configuracion
    decreases |moves|
  {
    if |moves| > 0 {
      var next := if moves[0] then SiguientePaso(s) else AnteriorPaso(s);
      NavigationStaysInRange(next, moves[1..]);
    }
  }

  /** Applies `siguientePaso` for `true` and `anteriorPaso` for `false`. */
  function Navigate(s: Store, moves: seq<bool>): Store
    decreases |moves|
  {
    if |moves| == 0 then s
    else Navigate(if moves[0] then SiguientePaso(s) else AnteriorPaso(s), moves[1..])
  }

  // ---------------------------------------------------------------------------
  // Field setters
  // ---------------------------------------------------------------------------

  function SetNoNegociables(s: Store, v: NoNegociables): (r: Store)
    ensures r.pasoActual == s.pasoActual
    ensures r.configuracion.noNegociables == Some(v)
    ensures r.configuracion.(noNegociables := s.configuracion.noNegociables) == s.configuracion
  {
    s.(configuracion := s.configuracion.(noNegociables := Some(v)))
  }

  function SetDimensiones(s: Store, v: seq<string>): (r: Store)
    ensures r.pasoActual == s.pasoActual
    ensures r.configuracion.dimensionesPrioritarias == Some(v)
    ensures r.configuracion.(dimensionesPrioritarias := s.configuracion.dimensionesPrioritarias) == s.configuracion
  {
    s.(configuracion := s.configuracion.(dimensionesPrioritarias := Some(v)))
  }

  function SetEnergiaDisponible(s: Store, v: int): (r: Store)
    ensures r.pasoActual == s.pasoActual
    ensures r.configuracion.energiaDisponible == Some(v)
    ensures r.configuracion.(energiaDisponible := s.configuracion.energiaDisponible) == s.configuracion
  {
    s.(configuracion := s.configuracion.(energiaDisponible := Some(v)))
  }

  function SetContextoFinanciero(s: Store, v: ContextoFinanciero): (r: Store)
    ensures r.pasoActual == s.pasoActual
    ensures r.configuracion.contextoFinanciero == Some(v)
    ensures r.configuracion.(contextoFinanciero := s.configuracion.contextoFinanciero) == s.configuracion
  {
    s.(configuracion := s.configuracion.(contextoFinanciero := Some(v)))
  }

  function SetContextoBiologico(s: Store, v: ContextoBiologico): (r: Store)
    ensures r.pasoActual == s.pasoActual
    ensures r.configuracion.contextoBiologico == Some(v)
    ensures r.configuracion.(contextoBiologico := s.configuracion.contextoBiologico) == s.configuracion
  {
    s.(configuracion := s.configuracion.(contextoBiologico := Some(v)))
  }

  function SetExpresionLibre(s: Store, v: string): (r: Store)
    ensures r.pasoActual == s.pasoActual
    ensures r.configuracion.expresionLibre == Some(v)
    ensures r.configuracion.(expresionLibre := s.configuracion.expresionLibre) == s.configuracion
  {
    s.(configuracion := s.configuracion.(expresionLibre := Some(v)))
  }

  /** Setters of different fields commute, and a second write to the same
      field wins. */
  lemma SettersCommute(s: Store, n: NoNegociables, d: seq<string>, e: int, e2: int, t: string)
    ensures SetDimensiones(SetNoNegociables(s, n), d) == SetNoNegociables(SetDimensiones(s, d), n)
    ensures SetExpresionLibre(SetEnergiaDisponible(s, e), t) == SetEnergiaDisponible(SetExpresionLibre(s, t), e)
    ensures SetEnergiaDisponible(SetEnergiaDisponible(s, e), e2) == SetEnergiaDisponible(s, e2)
  {
  }

  // ---------------------------------------------------------------------------
  // Payload and reset
  // ---------------------------------------------------------------------------

  /** `getConfiguracionCompleta`: the current fields, unchanged, under user
      id `'default'`. */
  function GetConfiguracionCompleta(s: Store): (r: Configuracion)
    requires Complete(s.configuracion)
    ensures r.userId == "default"
    ensures ToPartial(r) == s.configuracion
  {
    var c := s.configuracion;
    Configuracion("default", c.noNegociables.value, c.dimensionesPrioritarias.value,
      c.energiaDisponible.value, c.contextoFinanciero.value, c.contextoBiologico.value,
      c.expresionLibre)
  }

  /** The payload seen as a partial configuration again. */
  function ToPartial(c: Configuracion): PartialConfig {
    PartialConfig(Some(c.noNegociables), Some(c.dimensionesPrioritarias), Some(c.energiaDisponible),
      Some(c.contextoFinanciero), Some(c.contextoBiologico), c.expresionLibre)
  }

  /** `reset`: step 1 and the default configuration, written out again in the
      source. */
  function Reset(s: Store): (r: Store)
    ensures r == Initial()
  {
    Store(1, PartialConfig(
      Some(NoNegociables(true, true, false, true, false)),
      Some([]),
      Some(3),
      Some(ContextoFinanciero(6, false)),
      Some(ContextoBiologico("regular", 3, false)),
      Some("")))
  }

  /** One user action on the store. */
  datatype Action =
    | Paso(paso: int)
    | Siguiente
    | Anterior
    | NoNeg(n: NoNegociables)
    | Dimensiones(d: seq<string>)
    | Energia(e: int)
    | Financiero(f: ContextoFinanciero)
    | Biologico(b: ContextoBiologico)
    | Expresion(t: string)
    | DoReset

  function Apply(s: Store, a: Action): Store {
    match a
    case Paso(p) => SetPaso(s, p)
    case Siguiente => SiguientePaso(s)
    case Anterior => AnteriorPaso(s)
    case NoNeg(n) => SetNoNegociables(s, n)
    case Dimensiones(d) => SetDimensiones(s, d)
    case Energia(e) => SetEnergiaDisponible(s, e)
    case Financiero(f) => SetContextoFinanciero(s, f)
    case Biologico(b) => SetContextoBiologico(s, b)
    case Expresion(t) => SetExpresionLibre(s, t)
    case DoReset => Reset(s)
  }

  function Run(s: Store, actions: seq<Action>): Store
    decreases |actions|
  {
    if |actions| == 0 then s else Run(Apply(s, actions[0]), actions[1..])
  }

  /** Every store reachable from the initial one has all the fields that
      `getConfiguracionCompleta` asserts, so its `!` assertions never see a
      missing field. */
  lemma {:induction false} ReachableIsComplete(s: Store, actions: seq<Action>)
    requires Complete(s.configuracion)
    ensures Complete(Run(s, actions).configuracion)
    decreases |actions|
  {
    if |actions| > 0 {
      ReachableIsComplete(Apply(s, actions[0]), actions[1..]);
    }
  }

  /** The payload from a store reachable from the initial store carries the
      last values written to each field. */
  lemma PayloadAfterSetters(n: NoNegociables, e: int)
    ensures GetConfiguracionCompleta(SetEnergiaDisponible(SetNoNegociables(Initial(), n), e)).noNegociables == n
    ensures GetConfiguracionCompleta(SetEnergiaDisponible(SetNoNegociables(Initial(), n), e)).energiaDisponible == e
    ensures GetConfiguracionCompleta(Initial()).dimensionesPrioritarias == []
  {
  }
}

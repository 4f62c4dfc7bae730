/** The five-step input wizard shown before a session
    (`PuertaDeEntrada7Capas`): physical energy, sleep quality, body resonance,
    emotional state and emotional intensity, one per step.
 */
module InputWizard {

  import opened Wrappers

  /** What the wizard hands to its parent. */
  datatype InputsCapas = InputsCapas(
    energia: int,
    calidadSueno: int,
    resonanciaCorporal: string,
    estadoEmocional: string,
    intensidadEmocional: int)

  datatype Wizard = Wizard(paso: int, inputs: InputsCapas)

  const LastPaso := 4

  function Initial(): (r: Wizard)
    ensures r.paso == 0
    ensures r.inputs == InputsCapas(3, 3, "neutral", "neutro", 3)
  {
    Wizard(0, InputsCapas(3, 3, "neutral", "neutro", 3))
  }

  /** The kind of control on each step. */
  datatype StepKind = Slider(labels: seq<string>) | Opciones(valores: seq<string>)

  /** The step table, in order. */
  function Pasos(): (r: seq<StepKind>)
    ensures |r| == LastPaso + 1
    ensures forall i :: 0 <= i < |r| && r[i].Slider? ==> |r[i].labels| == 5
  {
    [ Slider(["Muy baja", "Baja", "Media", "Alta", "Muy alta"]),
      Slider(["Pésimo", "Malo", "Regular", "Bueno", "Excelente"]),
      Opciones(["tension", "fatiga", "neutral", "fluido", "vibrante"]),
      Opciones(["calma", "ansioso", "entusiasmado", "apagado", "neutro"]),
      Slider(["Muy leve", "Leve", "Media", "Intensa", "Muy intensa"]) ]
  }

  /** The result of pressing "next": the new state and what `onComplete`
      receives, if it is called. */
  datatype Step = Step(wizard: Wizard, completed: Option<InputsCapas>)

  /** `siguientePaso`: advance until the last step; on the last step report
      the inputs and stay. */
  function Siguiente(w: Wizard): (r: Step)
    ensures w.paso < LastPaso ==> r == Step(w.(paso := w.paso + 1), None)
    ensures w.paso >= LastPaso ==> r == Step(w, Some(w.inputs))
  {
    if w.paso < |Pasos()| - 1 then Step(w.(paso := w.paso + 1), None)
    else Step(w, Some(w.inputs))
  }

  /** `pasoAnterior`. */
  function Anterior(w: Wizard): (r: Wizard)
    ensures w.paso <= 0 ==> r == w
    ensures w.paso > 0 ==> r == w.(paso := w.paso - 1)
  {
    if w.paso > 0 then w.(paso := w.paso - 1) else w
  }

  /** Pressing "next" `k` times: the final state and every report made. */
  datatype Outcome = Outcome(end: Wizard, reports: seq<InputsCapas>)

  function Presses(w: Wizard, k: nat): Outcome
    decreases k
  {
    if k == 0 then Outcome(w, [])
    else
      var s := Siguiente(w);
      var rest := Presses(s.wizard, k - 1);
      Outcome(rest.end, (if s.completed.Some? then [s.completed.value] else []) + rest.reports)
  }

  /** From the first step, the first four presses only advance, and the
      fifth reports the inputs exactly once. */
  lemma {:induction false} PressesFromStart(w: Wizard, k: nat)
    requires 0 <= w.paso <= LastPaso
    ensures k <= LastPaso - w.paso ==> Presses(w, k) == Outcome(w.(paso := w.paso + k), [])
    ensures k == LastPaso - w.paso + 1 ==> Presses(w, k) == Outcome(w.(paso := LastPaso), [w.inputs])
    decreases k
  {
    if k > 0 {
      if w.paso < LastPaso {
        var next := w.(paso := w.paso + 1);
        PressesFromStart(next, k - 1);
        assert Presses(w, k).reports == [] + Presses(next, k - 1).reports;
      } else {
        assert Presses(w, 0) == Outcome(w, []);
      }
    }
  }

  /** Going back undoes going forward (and vice versa) away from the ends. */
  lemma NavigationRoundTrip(w: Wizard)
    ensures 0 <= w.paso < LastPaso ==> Anterior(Siguiente(w).wizard) == w
    ensures 0 < w.paso <= LastPaso ==> Siguiente(Anterior(w)).wizard == w
  {
  }

  /** The value a slider or option list writes, by step. */
  function SetValor(w: Wizard, paso: nat, n: int, t: string): (r: Wizard)
    requires paso <= LastPaso
    ensures r.paso == w.paso
    ensures paso == 0 ==> r.inputs == w.inputs.(energia := n)
    ensures paso == 1 ==> r.inputs == w.inputs.(calidadSueno := n)
    ensures paso == 2 ==> r.inputs == w.inputs.(resonanciaCorporal := t)
    ensures paso == 3 ==> r.inputs == w.inputs.(estadoEmocional := t)
    ensures paso == 4 ==> r.inputs == w.inputs.(intensidadEmocional := n)
  {
    var i := w.inputs;
    w.(inputs :=
      if paso == 0 then i.(energia := n)
      else if paso == 1 then i.(calidadSueno := n)
      else if paso == 2 then i.(resonanciaCorporal := t)
      else if paso == 3 then i.(estadoEmocional := t)
      else i.(intensidadEmocional := n))
  }

  /** The label under a slider: `labels[valor - 1]`. */
  function SliderLabel(paso: nat, valor: int): (r: string)
    requires paso <= LastPaso && Pasos()[paso].Slider?
    requires 1 <= valor <= 5
    ensures r in Pasos()[paso].labels
  {
    Pasos()[paso].labels[valor - 1]
  }

  /** Each slider's labels are distinct, so the label shown identifies the
      value chosen. */
  lemma SliderLabelInjective(paso: nat, v1: int, v2: int)
    requires paso <= LastPaso && Pasos()[paso].Slider?
    requires 1 <= v1 <= 5 && 1 <= v2 <= 5
    ensures SliderLabel(paso, v1) == SliderLabel(paso, v2) <==> v1 == v2
  {
  }

  /** The filled part of a slider track, in percent. */
  function SliderFill(valor: int): (r: real)
    requires 1 <= valor <= 5
    ensures 0.0 <= r <= 100.0
    ensures r == 0.0 <==> valor == 1
    ensures r == 100.0 <==> valor == 5
  {
    ((valor - 1) as real) / 4.0 * 100.0
  }

  /** `obtenerColorMomento`: the background gradient, grey for an unknown
      moment. */
  function ColorMomento(momento: string): (r: string)
    ensures momento !in {"fajr", "dhuhr", "asr", "maghrib", "isha"} ==> r == "from-gray-600 to-gray-800"
    ensures momento in {"fajr", "dhuhr", "asr", "maghrib", "isha"} ==> r != "from-gray-600 to-gray-800"
  {
    if momento == "fajr" then "from-purple-600 to-amber-500"
    else if momento == "dhuhr" then "from-yellow-500 to-green-500"
    else if momento == "maghrib" then "from-red-500 to-purple-600"
    else if momento == "asr" then "from-orange-500 to-red-500"
    else if momento == "isha" then "from-indigo-600 to-purple-800"
    else "from-gray-600 to-gray-800"
  }
}

# Estado Cero decision logic, in Dafny

Estado Cero ("Zero State") is an app for guided self-reflection sessions. Five times a day, at the liturgical moments fajr, dhuhr, asr, maghrib and isha, the user answers a few binary questions. The answers are read as expansion or contraction of a life domain. A sacral decree fixes the day's action. A set of agents, ministries and services then turns the profile (Human Design, MBTI, Enneagram), the recent Estados Cero and the vault of Obsidian notes into plans, scores and advice.

This project models the deterministic part of that system as pure Dafny functions over immutable datatypes, and proves what the code promises. Each source file of the core becomes one module:

- **Front-end state.** The onboarding and session stores, the answer list, the input wizard, the API client's error messages and the day's block list.
- **Models and services.** The Law of the Octave and the octave goals, the sacral decree, the rate limiter, and the scoring of the seven context layers: vitality, emotion, Human Design, cognition, social context and the seven-layer orchestrator.
- **Decision services.** The pillar verifier, the ministerial cabinet and its body and meaning ministries, and the prism engine.
- **Planning agents.** The weekly planner and the domain entangler, the pattern analyser, the action documenter and the orchestrator's plan helpers.
- **Calendars.** The liturgical questions, the Hijri calendar, the prayer windows and the purposes of the day.
- **The vault.** Vault paths, the note parser and the star universe built from the notes.

I/O is never modelled. Files, databases, language models, clocks and astronomy become parameters: the hour, today's date, the prayer times, the Hijri month number, the parsed notes and the counts a query returns.

Conventions shared by the modules:
- A Python `date` is its proleptic ordinal, and Monday is weekday 0.
- A `dict` is an association list that keeps insertion order.
- An exception the source raises is the `Err` case of a `Result`.
- Python floats are exact `real`s. The places where this matters are listed under "Left out".
- `Wrappers`, `Seqs`, `Text`, `Assoc`, `Arith`, `Dates` and `Liturgy` are helper modules with no counterpart in the source.

Where the code and its own comments or documents disagree, the model follows the code. The discrepancies found that way are under "Findings", each with the code as written and the evidently intended version.

## Model

| member | source | states |
|---|---|---|
| OnboardingStore.SetPaso | apps/frontend/lib/stores/onboarding-store.ts:56 | any step number is stored as given, with no clamping, and the configuration is untouched |
| OnboardingStore.SetPasoUndo | apps/frontend/lib/stores/onboarding-store.ts:56 | writing the old step back restores the store exactly |
| OnboardingStore.SiguientePaso | apps/frontend/lib/stores/onboarding-store.ts:58-60 | the step moves one forward below 4 and stays at 4 from 4 on; it never exceeds 4; the configuration is untouched |
| OnboardingStore.AnteriorPaso | apps/frontend/lib/stores/onboarding-store.ts:62-64 | the step moves one back above 1 and stays at 1 from 1 down; it never goes below 1 |
| OnboardingStore.NavigationRoundTrip | apps/frontend/lib/stores/onboarding-store.ts:58-64 | forward then back (and back then forward) is the identity wherever the move was not clamped |
| OnboardingStore.NavigationStaysInRange | apps/frontend/lib/stores/onboarding-store.ts:58-64 | from a step in 1..4, any sequence of forward/back moves stays in 1..4 and leaves the configuration alone |
| OnboardingStore.SetNoNegociables | apps/frontend/lib/stores/onboarding-store.ts:67-73 | replaces the non-negotiables field only; step and every other field unchanged |
| OnboardingStore.SetDimensiones | apps/frontend/lib/stores/onboarding-store.ts:74-80 | replaces the priority dimensions only |
| OnboardingStore.SetEnergiaDisponible | apps/frontend/lib/stores/onboarding-store.ts:81-87 | replaces the available energy only |
| OnboardingStore.SetContextoFinanciero | apps/frontend/lib/stores/onboarding-store.ts:88-94 | replaces the financial context only |
| OnboardingStore.SetContextoBiologico | apps/frontend/lib/stores/onboarding-store.ts:95-101 | replaces the biological context only |
| OnboardingStore.SetExpresionLibre | apps/frontend/lib/stores/onboarding-store.ts:102-107 | replaces the free expression only |
| OnboardingStore.SettersCommute | apps/frontend/lib/stores/onboarding-store.ts:67-107 | setters of different fields commute and the last write to a field wins |
| OnboardingStore.GetConfiguracionCompleta | apps/frontend/lib/stores/onboarding-store.ts:110-121 | the payload carries user id 'default' and exactly the store's current fields |
| OnboardingStore.Reset | apps/frontend/lib/stores/onboarding-store.ts:124-147 | the result is the initial store (step 1, default configuration) whatever the store was |
| OnboardingStore.ReachableIsComplete | apps/frontend/lib/stores/onboarding-store.ts:30-147 | every action keeps all configuration fields present, so the payload's non-null assertions always hold |
| OnboardingStore.PayloadAfterSetters | apps/frontend/lib/stores/onboarding-store.ts:67-121 | the payload after setters reports the last values written; untouched fields keep their defaults |
| SessionStore.Initial | apps/frontend/lib/stores/estado-cero-store.ts:27-32 | phase 'pre-inicio', no session, no answers, no direction or error, not loading |
| SessionStore.SetFase | apps/frontend/lib/stores/estado-cero-store.ts:35 | the phase is the value written and no other field changes |
| SessionStore.SetEstadoActual | apps/frontend/lib/stores/estado-cero-store.ts:37 | only the current session changes |
| SessionStore.AgregarRespuesta | apps/frontend/lib/stores/estado-cero-store.ts:39-41 | the answer list grows by one, the new answer is last, the prefix and every other field are kept |
| SessionStore.SetDireccion | apps/frontend/lib/stores/estado-cero-store.ts:43 | only the direction changes |
| SessionStore.SetCargando | apps/frontend/lib/stores/estado-cero-store.ts:45 | only the loading flag changes |
| SessionStore.SetError | apps/frontend/lib/stores/estado-cero-store.ts:47 | only the error changes |
| SessionStore.Reset | apps/frontend/lib/stores/estado-cero-store.ts:49-56 | the result is the initial store whatever the store was |
| SessionStore.RunAnswers | apps/frontend/lib/stores/estado-cero-store.ts:39-56 | after any history the answers are the earlier ones (unless a reset happened) followed by every answer added since the last reset |
| SessionStore.RunFase | apps/frontend/lib/stores/estado-cero-store.ts:35-56 | the phase after any history is the last one written, or 'pre-inicio' after a later reset |
| SessionStore.ResetForgetsHistory | apps/frontend/lib/stores/estado-cero-store.ts:49-56 | a reset as last action yields the initial store regardless of history |
| AnswerList.SetIntensidad | apps/frontend/app/estado-cero/components/PreguntasSacrales.tsx:189 | the slider writes the intensity and nothing else |
| AnswerList.SetNota | apps/frontend/app/estado-cero/components/PreguntasSacrales.tsx:206 | the text box writes the note and nothing else |
| AnswerList.InitialSynced | apps/frontend/app/estado-cero/components/PreguntasSacrales.tsx:15-19 | the initial state (first question, no answers) satisfies the one-answer-per-passed-question invariant |
| AnswerList.Seleccionar | apps/frontend/app/estado-cero/components/PreguntasSacrales.tsx:24-26 | only the selected sensation changes |
| AnswerList.Answer | apps/frontend/app/estado-cero/components/PreguntasSacrales.tsx:32-37 | the answer carries the question id, the sensation and intensity; an empty note is not sent |
| AnswerList.Siguiente | apps/frontend/app/estado-cero/components/PreguntasSacrales.tsx:28-51 | no-op without a sensation; otherwise appends one answer; completes with all answers exactly on the last question, else advances and resets sensation, intensity 3 and note |
| AnswerList.Anterior | apps/frontend/app/estado-cero/components/PreguntasSacrales.tsx:54-65 | no change at index 0; otherwise the index decrements and exactly the last answer is dropped |
| AnswerList.Progreso | apps/frontend/app/estado-cero/components/PreguntasSacrales.tsx:22 | progress times the question count equals (index+1)×100; with no questions there is no value |
| AnswerList.SiguienteSynced | apps/frontend/app/estado-cero/components/PreguntasSacrales.tsx:28-51 | moving forward keeps one answer per question already passed |
| AnswerList.AnteriorSynced | apps/frontend/app/estado-cero/components/PreguntasSacrales.tsx:54-65 | moving back keeps one answer per question already passed |
| AnswerList.CompletionListsAll | apps/frontend/app/estado-cero/components/PreguntasSacrales.tsx:39-44 | on the last question the completion receives one answer per question, in question order |
| AnswerList.AnteriorThenSiguiente | apps/frontend/app/estado-cero/components/PreguntasSacrales.tsx:28-65 | going back reloads the dropped answer, so pressing next restores the same answer list |
| AnswerList.ProgresoBounds | apps/frontend/app/estado-cero/components/PreguntasSacrales.tsx:22 | while answering the bar lies in (0, 100] and reaches 100 exactly on the last question |
| InputWizard.Initial | apps/frontend/app/components/PuertaDeEntrada7Capas.tsx:20-27 | step 0 with energy 3, sleep 3, 'neutral', 'neutro', intensity 3 |
| InputWizard.Pasos | apps/frontend/app/components/PuertaDeEntrada7Capas.tsx:29-99 | five steps; every slider has five labels |
| InputWizard.Siguiente | apps/frontend/app/components/PuertaDeEntrada7Capas.tsx:102-115 | increments the step below the last; on the last step reports the inputs and stays |
| InputWizard.Anterior | apps/frontend/app/components/PuertaDeEntrada7Capas.tsx:117-121 | no-op at step 0, otherwise decrements |
| InputWizard.PressesFromStart | apps/frontend/app/components/PuertaDeEntrada7Capas.tsx:102-115 | from any step, presses only advance until the last step, and one more press reports the inputs exactly once |
| InputWizard.NavigationRoundTrip | apps/frontend/app/components/PuertaDeEntrada7Capas.tsx:102-121 | back undoes forward and forward undoes back away from the ends |
| InputWizard.SetValor | apps/frontend/app/components/PuertaDeEntrada7Capas.tsx:36-96 | each step's control writes its own input field only |
| InputWizard.SliderLabel | apps/frontend/app/components/PuertaDeEntrada7Capas.tsx:191 | a slider value v in 1..5 shows one of the step's labels (label v-1) |
| InputWizard.SliderLabelInjective | apps/frontend/app/components/PuertaDeEntrada7Capas.tsx:40-96 | two slider values show the same label iff they are equal |
| InputWizard.SliderFill | apps/frontend/app/components/PuertaDeEntrada7Capas.tsx:178 | the filled track lies in [0, 100], empty exactly at 1 and full exactly at 5 |
| InputWizard.ColorMomento | apps/frontend/app/components/PuertaDeEntrada7Capas.tsx:123-133 | the grey gradient is returned exactly for names that are not one of the five moments |
| ApiClient.IniciarErrorMessage | apps/frontend/lib/api-client.ts:88-94 | a string detail verbatim, an array detail's msg fields joined, anything else the fixed fallback |
| ApiClient.IniciarErrorListsAll | apps/frontend/lib/api-client.ts:92-93 | every msg of an array detail appears in the message, in order, followed by ', ' unless it is the last |
| ApiClient.IniciarErrorShortLists | apps/frontend/lib/api-client.ts:92-93 | an empty array detail gives an empty message and a one-element array gives that msg alone, with no separator |
| ApiClient.ItemTexts | apps/frontend/lib/api-client.ts:93 | one msg per array item, in order |
| ApiClient.Iniciar | apps/frontend/lib/api-client.ts:82-98 | success returns the body; failure the message above |
| ApiClient.CallFixed | apps/frontend/lib/api-client.ts:73-190 | success returns the body; failure a fixed message per call |
| ApiClient.FixedMessagesDistinct | apps/frontend/lib/api-client.ts:75-188 | the fixed messages are pairwise distinct and differ from the fallback of iniciar |
| ApiClient.FixedIgnoresDetail | apps/frontend/lib/api-client.ts:109-188 | the failure message does not depend on the error body |
| DayBlocks.EtiquetaRoundTrip | apps/frontend/app/estado-cero/validacion/page.tsx:406-411 | the label of any non-negative span of minutes reads back as exactly that span |
| DayBlocks.SugerenciaInicial | apps/frontend/app/estado-cero/validacion/page.tsx:45-70 | the initial suggestion has two blocks |
| DayBlocks.FindTipo | apps/frontend/app/estado-cero/validacion/page.tsx:26-95 | the lookup returns a listed block type with the requested value, and finds nothing exactly when no listed type has it |
| DayBlocks.DuracionMin | apps/frontend/app/estado-cero/validacion/page.tsx:402-404 | start plus the duration is the end, in minutes of the day |
| DayBlocks.JsRem | apps/frontend/app/estado-cero/validacion/page.tsx:407 | JavaScript's `%`: agrees with the mathematical remainder on non-negatives, lies strictly within ±60, and is never positive for a negative dividend |
| DayBlocks.DuracionRoundTrip | apps/frontend/app/estado-cero/validacion/page.tsx:398-411 | for a block that does not end before it starts, the 'Xh Ymin' / 'Xh' / 'Ymin' label reads back as exactly its duration |
| DayBlocks.ReadBoth | apps/frontend/app/estado-cero/validacion/page.tsx:409 | the 'Xh Ymin' form denotes X·60+Y |
| DayBlocks.ReadHours | apps/frontend/app/estado-cero/validacion/page.tsx:410 | the 'Xh' form denotes X·60 |
| DayBlocks.ReadMinutes | apps/frontend/app/estado-cero/validacion/page.tsx:411 | the 'Ymin' form denotes Y |
| DayBlocks.NegativeDuracionDropsHours | apps/frontend/app/estado-cero/validacion/page.tsx:404-411 | a block ending before it starts is shown only as its truncated remainder in minutes |
| DayBlocks.SugerenciaInicialMinutes | apps/frontend/app/estado-cero/validacion/page.tsx:44-70 | the initial suggestion is two blocks taking 180 minutes |
| DayBlocks.AgregarBloque | apps/frontend/app/estado-cero/validacion/page.tsx:73-86 | appends one 90-minute block with id 'b' + clock, keeping the earlier blocks |
| DayBlocks.AgregarAddsMinutes | apps/frontend/app/estado-cero/validacion/page.tsx:73-150 | adding a block adds exactly 90 allocated minutes |
| DayBlocks.ActualizarBloque | apps/frontend/app/estado-cero/validacion/page.tsx:88-92 | same length; blocks with the id get the change, every other block is kept in place |
| DayBlocks.AplicarTouchesOneField | apps/frontend/app/estado-cero/validacion/page.tsx:90 | a change writes one field and leaves the others alone |
| DayBlocks.CambiarTipo | apps/frontend/app/estado-cero/validacion/page.tsx:94-101 | a known type sets type, dimension and colour of the matching blocks; an unknown type changes nothing |
| DayBlocks.EliminarBloque | apps/frontend/app/estado-cero/validacion/page.tsx:103-105 | no kept block has the id, and every block with another id is kept; the kept blocks are a subsequence of the input (input order) and each block with another id occurs as often as in the input |
| DayBlocks.EliminarBloqueAlFinal | apps/frontend/app/estado-cero/validacion/page.tsx:103-105 | removing from a list extended by one block gives the earlier result extended by that block exactly when its id differs |
| DayBlocks.EliminarSplitsMinutes | apps/frontend/app/estado-cero/validacion/page.tsx:103-150 | remaining minutes plus the removed blocks' minutes is the old total |
| DayBlocks.PorcentajeAsignado | apps/frontend/app/estado-cero/validacion/page.tsx:145-153 | the allocated share is the minutes over a 16-hour day, in percent |
| DayBlocks.PorcentajeCaos | apps/frontend/app/estado-cero/validacion/page.tsx:154 | allocated and chaos percentages add up to 100 |
| Octave.NotaDeDia | apps/backend/models/ley_octava.py:135-208 | the note of a weekday is the one whose correspondence names that day |
| Octave.NotaDeDimension | apps/backend/models/ley_octava.py:135-208 | the note of a dimension is the one whose correspondence names that dimension |
| Octave.CorrespondenceIsBijective | apps/backend/models/ley_octava.py:135-208 | note↔day and note↔dimension are mutually inverse, and day, dimension, colour and hex colour each identify the note |
| Octave.SequencesAlign | apps/backend/models/ley_octava.py:401-411 | the i-th note of the scale corresponds to the i-th day (domingo first) and the i-th dimension |
| Octave.Frecuencia | apps/backend/models/ley_octava.py:88-133 | every base frequency lies in [1, 2) |
| Octave.FrequencyLadder | apps/backend/models/ley_octava.py:88-133 | each note times its interval gives the next note's frequency, SI reaches 2; the critical notes are exactly those with the smallest interval 16/15, i.e. MI and SI |
| Octave.FrecuenciaEnOctava | apps/backend/models/ley_octava.py:359-369 | in octave 1 the frequency is the base frequency |
| Octave.OctaveDoubles | apps/backend/models/ley_octava.py:359-369 | one octave up doubles the frequency, i.e. base × 2^(n-1) |
| Octave.ShockRequerido | apps/backend/models/ley_octava.py:372-383 | a shock is required iff the note is critical: REVISION exactly for MI, CELEBRACION exactly for SI |
| Octave.ShockDe | apps/backend/models/ley_octava.py:504-535 | the pending shock of a type is unrealised, MI-FA on miércoles for 30 min or SI-DO on domingo for 45 min |
| Octave.PlanSemanal | apps/backend/models/ley_octava.py:386-447 | seven entries mapping domingo..sabado to DO..SI, all uncompleted, each with its note's required shock |
| Octave.PlanCoversWeek | apps/backend/models/ley_octava.py:386-447 | the plan has distinct days and looking a day up gives the phase of that day's note |
| Octave.ArmonicosIniciales | apps/backend/models/ley_octava.py:450-485 | one harmonic per dimension, each with its own note, unsatisfied, weight 0.30 exactly for the primary dimension |
| Octave.PesosSumToOne | apps/backend/models/ley_octava.py:462-464 | the weights 0.30 and six times 0.70/6 sum to 1 |
| Octave.CoherenciaArmonica | apps/backend/models/ley_octava.py:488-501 | 0 with no harmonics, else satisfied/total × 100 |
| Octave.CoherenciaBounds | apps/backend/models/ley_octava.py:488-501 | coherence lies in [0, 100]; 100 iff all are satisfied, 0 iff none is |
| Octave.ShockPendiente | apps/backend/models/ley_octava.py:504-535 | a shock is returned iff today's phase exists, requires a shock and is not completed; it is that shock |
| Octave.FreshPlanShockDays | apps/backend/models/ley_octava.py:386-447 | on a fresh plan a shock is pending exactly on martes (MI) and sábado (SI) |
| OctaveGoals.Buscar | apps/backend/services/gestor_octavas.py:149-151 | a goal is found iff its id is registered; otherwise the 'Objetivo no encontrado' error |
| OctaveGoals.DiaDeFecha | apps/backend/services/gestor_octavas.py:381-382 | with a Monday-first list, weekday 0, 2 and 6 give lunes, miércoles and domingo |
| OctaveGoals.DiaDeFechaInjective | apps/backend/services/gestor_octavas.py:381-382 | two dates get the same day name iff they share a weekday |
| OctaveGoals.DiaDeFechaAsWritten | apps/backend/services/gestor_octavas.py:153-155 | the label the state computation gives a date is the correct label of the day before; a Monday is labelled domingo |
| OctaveGoals.AsWrittenIsOneDayBehind | apps/backend/services/gestor_octavas.py:153-155 | that lookup names the previous day: a Monday is called domingo, and it is never the right day |
| OctaveGoals.GenerarShocks | apps/backend/services/gestor_octavas.py:98-133 | two unrealised shocks, MI-FA on Monday+2 (30 min) and SI-DO on Monday+6 (45 min) of the start week |
| OctaveGoals.ShocksInStartWeek | apps/backend/services/gestor_octavas.py:106-110 | both shock dates fall in the start week on the weekday their label names |
| OctaveGoals.PrimerPendiente | apps/backend/services/gestor_octavas.py:218-222 | the first unrealised shock of the type, or none iff there is no such shock |
| OctaveGoals.NuevaOctava | apps/backend/services/gestor_octavas.py:330-345 | octave +1, frequency doubled, completion 0, fresh plan and shocks; nothing else changes |
| OctaveGoals.Marcar | apps/backend/services/gestor_octavas.py:228-229 | the shock is realised with the given notes; nothing else changes |
| OctaveGoals.AplicarShockEn | apps/backend/services/gestor_octavas.py:214-254 | fails when no unrealised shock of the type exists; marks the first one; a CELEBRACION starts the next octave from the day after the shock |
| OctaveGoals.AplicarShock | apps/backend/services/gestor_octavas.py:201-254 | unknown id is an error; otherwise the goal is replaced by the updated one and the marked shock is returned |
| OctaveGoals.ReviewThenCelebration | apps/backend/services/gestor_octavas.py:201-254 | on a new goal the review shock can be applied, after which only the celebration is pending |
| OctaveGoals.CelebrationStartsNextOctave | apps/backend/services/gestor_octavas.py:231-247 | applying the celebration on a new goal moves to the next octave with both shocks pending again |
| OctaveGoals.AvanzarSemanaEn | apps/backend/services/gestor_octavas.py:325-345 | refused iff completion < 100; otherwise the next octave from today |
| OctaveGoals.AvanzarSemana | apps/backend/services/gestor_octavas.py:311-350 | unknown id is an error; success iff completion ≥ 100, storing the next octave |
| OctaveGoals.AdvanceDoubles | apps/backend/services/gestor_octavas.py:325-334 | an advance resets completion so a second one is refused; two advances quadruple the frequency |
| OctaveGoals.Completadas | apps/backend/services/gestor_octavas.py:176 | the completed-phase count is at most the plan size, full iff all and zero iff none are completed |
| OctaveGoals.EstadoCon | apps/backend/services/gestor_octavas.py:135-200 | day, note, octave, pending shock, attention iff a shock is pending, next interval and days-to-shock for MI/SI, completion = completed/7 × 100 |
| OctaveGoals.EstadoAsWritten | apps/backend/services/gestor_octavas.py:153-200 | the state as written is exactly the state computed for the previous weekday's label (note, shock, interval and progress of yesterday) |
| OctaveGoals.AsWrittenMisreportsShockDay | apps/backend/services/gestor_octavas.py:153-155 | on the scheduled review Wednesday the written state reports martes, while the corrected one reports miércoles |
| OctaveGoals.EstadoActual | apps/backend/services/gestor_octavas.py:135-200 | the corrected state is computed on the date's real weekday |
| OctaveGoals.FreshEstado | apps/backend/services/gestor_octavas.py:135-200 | on a fresh plan attention is required exactly on martes and sábado, with nothing completed |
| OctaveGoals.CompletitudFull | apps/backend/services/gestor_octavas.py:176-177 | completion lies in [0, 100] and is 100 iff all seven phases are completed |
| OctaveGoals.DimensionPrioritaria | apps/backend/services/gestor_octavas.py:396-414 | today's dimension is the one whose note is today's note |
| OctaveGoals.ObjetivosPorDia | apps/backend/services/gestor_octavas.py:351-371 | only active goals whose phase for the day exists and is not completed, each with that phase |
| OctaveGoals.ObjetivosPorDiaComplete | apps/backend/services/gestor_octavas.py:362-369 | every active goal whose phase for the day exists and is not completed is listed, with that phase |
| OctaveGoals.ShocksPendientesHoy | apps/backend/services/gestor_octavas.py:372-395 | only active goals with today's pending shock, each with that shock |
| OctaveGoals.ShocksPendientesComplete | apps/backend/services/gestor_octavas.py:372-395 | every active goal with a pending shock today is listed |
| OctaveGoals.ResumenActivas | apps/backend/services/gestor_octavas.py:415-468 | all-zero counts with no active goal; otherwise the number of active goals and their mean coherence, which lies in [0, 100] |
| OctaveGoals.CrearObjetivo | apps/backend/services/gestor_octavas.py:37-96 | the fundamental note is the dimension's note, with its frequency, the initial harmonics, plan and shocks, octave 1, level 1, completion 0, active |
| OctaveGoals.NewGoalCannotAdvance | apps/backend/services/gestor_octavas.py:325-330 | a goal as created can never advance a week, since nothing raises its completion |
| OctaveGoals.Activos | apps/backend/services/gestor_octavas.py:421 | only goals in state 'activa' are kept, and never more than there are goals |
| OctaveGoals.ActivosSpec | apps/backend/services/gestor_octavas.py:421 | a goal is summarised exactly when it is registered and in state 'activa' |
| OctaveGoals.Pendientes | apps/backend/services/gestor_octavas.py:440-445 | the unrealised shocks of a goal number at most its shocks |
| OctaveGoals.Coherencias | apps/backend/services/gestor_octavas.py:434-437 | one harmonic coherence per active goal, in order |
| OctaveGoals.CoherenciasBounded | apps/backend/services/gestor_octavas.py:434-438 | every coherence averaged lies in [0, 100] |
| OctaveGoals.Niveles | apps/backend/services/gestor_octavas.py:466 | one frequency level per active goal |
| Octave.Pow2 | apps/backend/models/ley_octava.py:369 | Python's `2 ** k` on an integer exponent is always positive |
| Octave.Pow2Step | apps/backend/models/ley_octava.py:369 | raising the exponent by one doubles the power, for negative exponents too |
| Octave.Satisfechos | apps/backend/models/ley_octava.py:498 | the satisfied count is at most the number of harmonics, equal to it iff every harmonic is satisfied and 0 iff none is |
| Octave.Porcentaje | apps/backend/models/ley_octava.py:498-501 | k out of n in percent: 0 for n = 0, otherwise the result times n is 100·k |
| Octave.SumWithOneDistinguished | apps/backend/models/ley_octava.py:462-464 | a weight list that is b everywhere except a at one position sums to a + (n-1)·b |
| Decree.Nuevo | apps/backend/models/decreto_sacral.py:42-58 | a new decree is pending, not validated, with no notes, dates, report, score or wisdom; it is active, unverified and not fulfilled |
| Decree.IniciarEjecucion | apps/backend/models/decreto_sacral.py:80-83 | from any state the decree becomes en_ejecucion with the start time set; every other field is unchanged; it is active afterwards |
| Decree.CompletarEjecucion | apps/backend/models/decreto_sacral.py:85-90 | the state becomes completado with the end time set; the notes are replaced only when non-empty notes are given; nothing else changes; it is no longer active |
| Decree.CancelarDecreto | apps/backend/models/decreto_sacral.py:92-96 | the state becomes cancelado; a non-empty reason replaces the notes with 'CANCELADO: ' + reason, otherwise the notes stay; nothing else changes; the decree is neither active nor fulfilled |
| Decree.RegistrarVerificacion | apps/backend/models/decreto_sacral.py:98-109 | report, score and verification time are always stored and the wisdom only when given, so the decree has a verification; the state and every other field are unchanged |
| Decree.CancelNoteRoundTrip | apps/backend/models/decreto_sacral.py:94-96 | the cancellation note is the 11-character prefix followed by the reason, so stripping the prefix gives the reason back |
| Decree.FulfilledIffScore | apps/backend/models/decreto_sacral.py:65-109 | after completing and then verifying, the decree is fulfilled exactly when the recorded score is at least 70, whatever its history |
| Decree.FulfilledNotActive | apps/backend/models/decreto_sacral.py:65-78 | a fulfilled decree is never active |
| Decree.EjecutarEstado | apps/backend/models/decreto_sacral.py:80-109 | since no transition is guarded, the state after any sequence of actions is the one set by the last lifecycle action, and verification never changes it |
| Decree.UltimoEstadoCons | apps/backend/models/decreto_sacral.py:80-96 | reading the action history from the front gives the same final state as reading it from the back |
| Decree.RestartReactivates | apps/backend/models/decreto_sacral.py:76-83 | any history that ends by starting execution leaves the decree active, even after completion or cancellation |
| RateLimiter.Recientes | apps/backend/services/rate_limiter.py:53-57 | filtering keeps only times strictly after the window start and never lengthens the list |
| RateLimiter.RecientesMembers | apps/backend/services/rate_limiter.py:53-57 | every kept time comes from the stored list, and every stored time after the window start is kept |
| RateLimiter.RecientesAppend | apps/backend/services/rate_limiter.py:53-70 | filtering distributes over concatenation, so a time appended later is filtered on its own |
| RateLimiter.RecientesTwice | apps/backend/services/rate_limiter.py:53-57 | filtering with an earlier window start and then a later one is the same as filtering with the later one alone |
| RateLimiter.RecientesAll | apps/backend/services/rate_limiter.py:53-57 | nothing is dropped when every time lies inside the window |
| RateLimiter.Min | apps/backend/services/rate_limiter.py:63 | the oldest request is one of the stored times and no stored time is older |
| RateLimiter.CheckTimes | apps/backend/services/rate_limiter.py:50-73 | the window is filtered; at max or more the request is refused with 0 remaining, nothing is appended, and the reset delay is counted from the oldest time; below max, now is appended and max-(count+1) remain; min of an empty window (max <= 0) is the only failure |
| RateLimiter.CheckRateLimit | apps/backend/services/rate_limiter.py:19-73 | on the whole table only the identifier's entry is rewritten, created empty when missing as with a defaultdict |
| RateLimiter.CheckIsolated | apps/backend/services/rate_limiter.py:54-70 | a check leaves every other identifier's entry unchanged |
| RateLimiter.StepInvariant | apps/backend/services/rate_limiter.py:50-73 | a check made no earlier than the previous one keeps the invariant that the stored times are the accepted times inside the last window |
| RateLimiter.WindowMoves | apps/backend/services/rate_limiter.py:53-70 | re-filtering what an earlier check stored gives the accepted times in the current window, and appending now keeps that relation |
| RateLimiter.StepRefused | apps/backend/services/rate_limiter.py:61-67 | a refused (or failing) check keeps the invariant |
| RateLimiter.StoredMoves | apps/backend/services/rate_limiter.py:53-57 | the stored list, filtered again at a later check, holds exactly the accepted times inside the new window |
| RateLimiter.StepAccepted | apps/backend/services/rate_limiter.py:69-73 | an accepted check keeps the invariant |
| RateLimiter.RunInvariant | apps/backend/services/rate_limiter.py:33-73 | every history of checks at non-decreasing times keeps the invariant |
| RateLimiter.RecientesEmpty | apps/backend/services/rate_limiter.py:53-57 | when no time lies after a bound, none lies after any later bound |
| RateLimiter.SlidingWindowBound | apps/backend/services/rate_limiter.py:59-73 | at every check the accepted requests inside the window ending then number at most max (0 for a negative max) |
| RateLimiter.Cleanup | apps/backend/services/rate_limiter.py:22-31 | after cleanup every identifier left has at least one time and every time is less than five minutes old |
| RateLimiter.HeadKeyUnique | apps/backend/services/rate_limiter.py:19 | with distinct identifiers the first one does not occur again |
| RateLimiter.CleanupNoNewKey | apps/backend/services/rate_limiter.py:25-31 | cleanup never introduces an identifier |
| RateLimiter.CleanupDistinct | apps/backend/services/rate_limiter.py:25-31 | cleanup keeps identifiers distinct |
| RateLimiter.CleanupSpec | apps/backend/services/rate_limiter.py:22-31 | an identifier with a recent time keeps exactly its recent times, in order; one with none is removed |
| RateLimiter.LimiteDe | apps/backend/services/rate_limiter.py:87-97 | estado_cero 10/min, planificar 20/min, health 300/min, and any other type (general included) 100/min |
| RateLimiter.LimitesConfiguradosNoFallan | apps/backend/services/rate_limiter.py:59-63 | with the limits of any endpoint type, the check never reaches `min` of an empty window, so it always succeeds |
| HumanDesign.GenerarRecordatorio | apps/backend/models/diseno_humano.py:111-132 | the reminder is the table's entry for the authority, and the strategy fallback only when the table has none |
| HumanDesign.ReminderNeverFallback | apps/backend/models/diseno_humano.py:118-132 | the table covers all eight authorities, so the fallback text is never produced |
| HumanDesign.ValidarTiempoRespuesta | apps/backend/models/diseno_humano.py:134-161 | sacral valid iff under 3 s, splenic iff under 2 s, emotional and lunar never, every other authority always |
| HumanDesign.FasterStaysValid | apps/backend/models/diseno_humano.py:134-161 | answering faster never makes a valid time invalid, and a time valid for a splenic design is valid for a sacral one |
| HumanDesign.SiguiendoEstrategia | apps/backend/models/diseno_humano.py:163-192 | generators (pure or manifesting) follow it iff they responded, manifestors iff they informed, projectors iff invited; reflectors always |
| HumanDesign.StrategyReadsOneFlag | apps/backend/models/diseno_humano.py:163-192 | only the flag belonging to the type is read: changing the other two never changes the answer |
| HumanDesign.DisenoDaniel | apps/backend/models/diseno_humano.py:195-215 | the hard-coded profile is a sacral generator whose strategy is to respond, profile 4/6, two channels and three defined centres |
| HumanDesign.DanielChecks | apps/backend/models/diseno_humano.py:134-215 | for that profile a response is valid iff under 3 s, the strategy is followed iff something was responded to, and the reminder is the sacral text |
| SocialContext.CrearProyecto | apps/backend/models/contexto_social.py:92-139 | the validating model rejects a priority outside 1..5; an accepted project has the given priority (default 3) and starts active |
| SocialContext.CrearTension | apps/backend/models/contexto_social.py:140-180 | the intensity is required and accepted iff it lies in 1..5; the tension does not need attention today by default |
| SocialContext.NombresNN | apps/backend/models/contexto_social.py:249 | one name per non-negotiable taken |
| SocialContext.NombresProy | apps/backend/models/contexto_social.py:253 | one name per project taken |
| SocialContext.PartesInitials | apps/backend/models/contexto_social.py:246-265 | every piece of the synthesis is non-empty and starts with a letter other than the fallback's 'S' |
| SocialContext.GenerarSintesis | apps/backend/models/contexto_social.py:239-267 | the fallback 'Sin compromisos sociales significativos' is returned exactly when no piece applies |
| SocialContext.ActiveHasSynthesis | apps/backend/models/contexto_social.py:224-267 | an active context never gets the fallback; a context with only external commitments is not active yet still has a synthesis |
| SocialContext.ProyectosPrioritarios | apps/backend/models/contexto_social.py:269-286 | `[:top_n]` of the sorted projects: exactly top_n of them when there are that many, never more than there are |
| SocialContext.PrioritariosSpec | apps/backend/models/contexto_social.py:269-286 | every project returned is an active project, and priorities are non-increasing |
| SocialContext.PrioritariosKeepTop | apps/backend/models/contexto_social.py:279-286 | the result is the first top_n of the stable descending sort, and each kept project ranks at least as high as each one cut off |
| Cognition.PosicionPorHora | apps/backend/models/tipologia_cognitiva.py:134-158 | the four hour bands partition every integer hour: mornings select the dominant, afternoons the auxiliary, early evenings the tertiary, and any other hour (late night, or out of 0..23) the inferior |
| Cognition.FuncionActiva | apps/backend/models/tipologia_cognitiva.py:119-172 | the active function is the stack entry the hour band selects, paired with that function's description |
| Cognition.Descripcion | apps/backend/models/tipologia_cognitiva.py:160-173 | every one of the eight functions has its own entry, so the `.get` fallback `Función cognitiva` is never returned |
| Cognition.NivelDesdePatrones | apps/backend/models/tipologia_cognitiva.py:265-297 | only type 5 can leave the average level; it is healthy exactly when healthy patterns outnumber unhealthy ones more than twice, and unhealthy exactly in the mirrored case |
| Cognition.HealthFromCounts | apps/backend/models/tipologia_cognitiva.py:281-294 | no patterns give the average level; a type-5 history with healthy patterns and no unhealthy one is healthy |
| Cognition.RecordatorioEneagrama | apps/backend/models/tipologia_cognitiva.py:299-311 | every reminder, whatever the health level, starts with `Tipo <n>: ` |
| Cognition.EneagramaTexto | apps/backend/models/tipologia_cognitiva.py:369 | a profile without a dominant wing prints its wing as `None` |
| Cognition.GenerarContextoMental | apps/backend/models/tipologia_cognitiva.py:341-374 | an empty (or missing) pattern list keeps the stored level, a non-empty one re-estimates it; the context is active exactly when the hour selects the dominant or the inferior function |
| Cognition.ActiveByHour | apps/backend/models/tipologia_cognitiva.py:357-372 | for a stack of four distinct functions the context is active exactly before noon or from 22:00 on |
| Cognition.ReminderUsesStoredLevel | apps/backend/models/tipologia_cognitiva.py:360-371 | the reminder ignores the recent patterns: it is the same as with an empty list |
| Cognition.PerfilEntp5w4 | apps/backend/models/tipologia_cognitiva.py:379-417 | the built-in profile is ENTP with type 5, wing 4, integration 8, disintegration 7 and average health |
| Cognition.EntpStackAndShadow | apps/backend/models/tipologia_cognitiva.py:387-393 | the built-in stack has four distinct functions and its shadow holds exactly the four functions not in the stack |
| Guardian.Cumplidos | apps/backend/agentes/guardian.py:245 | the kept count never exceeds the number of tracked non-negotiables |
| Guardian.Porcentaje | apps/backend/agentes/guardian.py:255 | with no non-negotiables the daily percentage is 0 rather than a division by zero |
| Guardian.MonitorearSalud | apps/backend/agentes/guardian.py:223-258 | the report carries the day's total, kept count and Estado Cero count, and its percentage is the kept share of the total |
| Guardian.PorcentajeAcotado | apps/backend/agentes/guardian.py:255 | the daily percentage lies in [0, 100] |
| Guardian.SaludSpec | apps/backend/agentes/guardian.py:245-257 | health is good exactly when some Estado Cero was done and more than seven in ten non-negotiables were kept; with no non-negotiables it is never good |
| Guardian.FraccionSupera | apps/backend/agentes/guardian.py:257 | the ratio test `c / d > 0.7` holds exactly when `10 c > 7 d` |
| Guardian.VerificarCumplimiento | apps/backend/agentes/guardian.py:319-345 | the percentage is 0 without non-negotiables; the level is high exactly with an Estado Cero and at least 70%, low exactly with neither an Estado Cero nor 50%, medium otherwise |
| Guardian.PorcentajeAlcanza | apps/backend/agentes/guardian.py:323-336 | reaching a k% threshold is the whole-number test `100 c >= k t` |
| Guardian.VerificarSpec | apps/backend/agentes/guardian.py:319-345 | the three levels in whole numbers; without non-negotiables the level is never high, and medium or low as an Estado Cero was done or not |
| Guardian.SesionesNoCuentan | apps/backend/agentes/guardian.py:320-336 | the session count is read but never changes the level |
| Guardian.VerificarMonotono | apps/backend/agentes/guardian.py:329-345 | more Estados Cero or more kept non-negotiables out of the same total never lower the level |
| VaultPaths.CarpetaDominio | apps/backend/services/obsidian_structure.py:20-26 | every domain maps to one of the five numbered domain folders, and an unknown domain to the biology folder |
| VaultPaths.InferirDominio | apps/backend/services/obsidian_structure.py:696-709 | the inferred domain is economy exactly for dhuhr, mind exactly for asr and soul exactly for maghrib, in any case; everything else is biology |
| VaultPaths.InferirIgnoraMayusculas | apps/backend/services/obsidian_structure.py:709 | the inference depends only on the lower-cased moment |
| VaultPaths.RutaEstadoCero | apps/backend/services/obsidian_structure.py:657-675 | a state note is filed under the folder of the given domain, or of the moment's domain when none is given, then year, month, and `<day>-<moment>.md` |
| VaultPaths.RutaEspejo | apps/backend/services/obsidian_structure.py:677-684 | a daily mirror is filed under the mirrors folder by year and month as `<day>-Espejo-Diario.md` |
| VaultPaths.RutaAudit | apps/backend/services/obsidian_structure.py:686-689 | an audit note is named by its full `YYYY-MM-DD` date inside the system audit folder |
| VaultPaths.RutaPatron | apps/backend/services/obsidian_structure.py:691-694 | a pattern note is filed under its domain's folder, with the biology folder for an unknown domain |
| VaultPaths.PaddedWidths | apps/backend/services/obsidian_structure.py:663-665 | the year, month and day components of a valid date are four, two and two characters wide |
| VaultPaths.FechaRoundTrip | apps/backend/services/obsidian_structure.py:657-675 | the date is read back from the year and month folders and the file name's day, so a path names its date |
| VaultPaths.RutaEstadoCeroInjective | apps/backend/services/obsidian_structure.py:657-675 | two state notes share a path only when they are for the same date and the same moment |
| VaultPaths.RutasPorFechaInjective | apps/backend/services/obsidian_structure.py:677-689 | there is one mirror path and one audit path per date |
| VaultPaths.CarpetaPorMomento | apps/backend/services/obsidian_structure.py:668-672 | with no domain, fajr and isha notes go to the biology folder, dhuhr to economy, asr to mind and maghrib to soul, anything else to biology |
| HijriCalendar.MesesSpec | apps/backend/services/calendario_hijri.py:102-335 | the table holds twelve months numbered 1 to 12 in order; a month is flagged sacred exactly when it is one of 1, 7, 11, 12, and exactly when its quality is sacred |
| HijriCalendar.NombresDistintos | apps/backend/services/calendario_hijri.py:102-335 | no two months share an Arabic name |
| HijriCalendar.ObtenerMes | apps/backend/services/calendario_hijri.py:425-439 | the converter's month number 1..12 selects the table entry with that number |
| HijriCalendar.ObtenerMesRoundTrip | apps/backend/services/calendario_hijri.py:436-439 | looking a month up by its own number gives that month back |
| HijriCalendar.NumerosSagrados | apps/backend/services/calendario_hijri.py:605-619 | every number listed is the number of a month flagged sacred |
| HijriCalendar.NumerosDesde | apps/backend/services/calendario_hijri.py:605-619 | every number listed from a position on belongs to a sacred month at or after it |
| HijriCalendar.SagradosCoinciden | apps/backend/services/calendario_hijri.py:619 | the fixed `[1, 7, 11, 12]` of the yearly view is exactly the list of months the table flags sacred |
| HijriCalendar.Dia | apps/backend/services/calendario_hijri.py:339-423 | the day record for an archetype carries that archetype |
| HijriCalendar.Indice | apps/backend/services/calendario_hijri.py:447 | every archetype has a position 0..6 in the Monday-first week that leads back to it |
| HijriCalendar.ArquetiposBiyectivos | apps/backend/services/calendario_hijri.py:447-451 | positions and archetypes are in one-to-one correspondence |
| HijriCalendar.ObtenerDiaSemana | apps/backend/services/calendario_hijri.py:441-451 | the day returned is the one whose archetype sits at the date's Monday-first weekday |
| HijriCalendar.DiaSemanaPeriodico | apps/backend/services/calendario_hijri.py:441-451 | dates seven days apart get the same day, and the next date gets the next archetype, Sunday wrapping to Monday |
| HijriCalendar.ObtenerVistaSemanal | apps/backend/services/calendario_hijri.py:527-563 | the view starts on the Monday of the date's week, lists seven consecutive dates and shows the month of that Monday |
| HijriCalendar.GenerarGuia | apps/backend/services/calendario_hijri.py:505-525 | for a month of the table, the guide is flagged sacred exactly when the month number is 1, 7, 11 or 12, and exactly when the month's quality is sacred |
| HijriCalendar.VistaSemanalSpec | apps/backend/services/calendario_hijri.py:533-553 | the week runs Monday to Sunday in order and contains the requested date at its own offset |
| PrayerWindows.CalcularTiemposEscrito | apps/backend/services/tiempos_liturgicos.py:61-126 | as written, the isha window ends at the midnight clock time read on the same date as isha |
| PrayerWindows.CalcularTiempos | apps/backend/services/tiempos_liturgicos.py:88-126 | on a day in astronomical order every window, isha included, ends after it starts |
| PrayerWindows.PrimeraVentana | apps/backend/services/tiempos_liturgicos.py:145-157 | nothing is found exactly when no listed window holds now; otherwise the moment found holds now and every moment before it in the list does not |
| PrayerWindows.PrimeraVentanaDia | apps/backend/services/tiempos_liturgicos.py:145-149 | the windows are tried in the order fajr, dhuhr, asr, maghrib, isha, and the first one holding now wins |
| PrayerWindows.PrimeraPasada | apps/backend/services/tiempos_liturgicos.py:160-173 | nothing is found exactly when no listed window is over; otherwise the moment found is over and every moment before it in the list is not |
| PrayerWindows.VerificarMomento | apps/backend/services/tiempos_liturgicos.py:128-183 | it is a moment exactly when some window holds now, with the minutes left to its end; otherwise recovery, only when allowed, gives a window that is over with nothing left; otherwise it names the next moment |
| PrayerWindows.RecuperaLaMasReciente | apps/backend/services/tiempos_liturgicos.py:160-173 | on a valid day before isha's window is over, the recovered window is the one that ended last |
| PrayerWindows.Siguiente | apps/backend/services/tiempos_liturgicos.py:197-220 | nothing is found exactly when every listed prayer has started; otherwise the moment found starts after now, no later than any other that does |
| PrayerWindows.SiguienteDia | apps/backend/services/tiempos_liturgicos.py:197-220 | over the five moments the next prayer is the earliest start after now, and there is none exactly when every prayer of the day has begun |
| PrayerWindows.ProximoEstadoCero | apps/backend/services/tiempos_liturgicos.py:185-228 | the next start is after now and no later than any prayer still to start, tomorrow's fajr when none is left; the countdown's hours and minutes add up to the wait |
| PrayerWindows.MomentoActual | apps/backend/services/tiempos_liturgicos.py:230-263 | with no window open the moment is the one by the prayer starts, the hours before fajr counting as isha |
| PrayerWindows.MomentoActualSpec | apps/backend/services/tiempos_liturgicos.py:246-263 | on a valid day the current moment is the span holding now, except at the exact minute asr, maghrib or isha begins, which the closed window before it still claims |
| PrayerWindows.IshaEscritaContraejemplo | apps/backend/services/tiempos_liturgicos.py:120-125 | with midnight at 01:25, no window is open at 22:00 as written though isha is; and at 10:00 recovery offers isha, not yet prayed, instead of fajr |
| PrayerWindows.IshaCubreLaNoche | apps/backend/services/tiempos_liturgicos.py:120-125 | with midnight read on the next date, every instant after isha begins to the end of the day is in the isha window, with the minutes left to midnight |
| PrayerWindows.IshaEscritaVacia | apps/backend/services/tiempos_liturgicos.py:120-125 | as written, with midnight in the small hours the isha window holds no instant at all |
| PrayerWindows.MomentoActualEscritoSpec | apps/backend/services/tiempos_liturgicos.py:230-263 | the misplaced isha end never changes the current moment: as written it is the same as with the corrected windows, so the span-by-prayer-starts description holds for the written times too |
| PrayerWindows.RecuperaIshaEscrita | apps/backend/services/tiempos_liturgicos.py:120-183 | as written, between midnight and isha with no window open, recovery always offers isha as a missed window, ending at midnight, so a prayer not yet due is reported as over |
| SimpleSession.MomentoPorHoraSpec | apps/backend/api/estado_cero_ultra_simple.py:71-81 | every clock hour gets exactly the moment whose band holds it (5-11 fajr, 12-15 dhuhr, 16-18 asr, 19-20 maghrib, the rest isha): the bands partition the day |
| SimpleSession.MomentoMonotono | apps/backend/api/estado_cero_ultra_simple.py:71-81 | from 5 to 23 the moment never goes back as the hours pass |
| SimpleSession.PreguntasIniciales | apps/backend/api/estado_cero_ultra_simple.py:84-115 | emergent mode gives one question numbered 0 with the generated text, on its first domain or `existencial`; any other mode gives the moment's three fixed questions numbered 0, 1, 2 with their texts and domains; none is answered |
| SimpleSession.Numerar | apps/backend/api/estado_cero_ultra_simple.py:106-115 | the `enumerate` numbering: one session question per fixed question, numbered by position, text and domain kept, unanswered |
| SimpleSession.IniciarNumeradas | apps/backend/api/estado_cero_ultra_simple.py:88-115 | in either mode the question numbers are 0, 1, ... in order |
| SimpleSession.Iniciar | apps/backend/api/estado_cero_ultra_simple.py:51-125 | a new session has the hour's moment, no answers and at least one question, numbered in order |
| SimpleSession.Buscar | apps/backend/api/estado_cero_ultra_simple.py:189 | `next(...)` finds the first question with the number, and nothing exactly when no question has it |
| SimpleSession.BuscarNumeradas | apps/backend/api/estado_cero_ultra_simple.py:189 | in a session's numbered questions, number `id` is found at position `id` exactly when it is in range |
| SimpleSession.Responder | apps/backend/api/estado_cero_ultra_simple.py:170-211 | a missing id or answer is a 400, a missing session a 404, an unknown question exactly the 404 `Pregunta <id> no encontrada`; a success appends exactly one answer with the question's domain, keeps everything else, and reports progress as answers/questions |
| SimpleSession.ResponderNumerada | apps/backend/api/estado_cero_ultra_simple.py:170-211 | on a started session, answering question `i` succeeds exactly when `i` is a question number, and appends that question's domain with the answer |
| SimpleSession.PreguntaDesconocidaNombraId | apps/backend/api/estado_cero_ultra_simple.py:188-191 | asking a three-question session for question 7 gives the 404 with detail `Pregunta 7 no encontrada` |
| SimpleSession.Expansiones | apps/backend/api/estado_cero_ultra_simple.py:264 | the count of affirmative answers never exceeds the number of answers |
| SimpleSession.Balance | apps/backend/api/estado_cero_ultra_simple.py:265-272 | the tendency is expansion exactly when more than half the answers are affirmative (a tie is contraction), and the intensity is the winning side's share, between 0.5 and 1 |
| SimpleSession.Sintetizar | apps/backend/api/estado_cero_ultra_simple.py:262-276 | the synthesis fails exactly when there is no answer (the division by `len(respuestas)`), and otherwise carries the answers' balance |
| SimpleSession.MayoriaAcotada | apps/backend/api/estado_cero_ultra_simple.py:269-272 | a winning share lies in [0.5, 1] and times the count gives back the winning count |
| SimpleSession.SintetizarDominios | apps/backend/api/estado_cero_ultra_simple.py:275 | the synthesis lists exactly the answers' domains, each with a share in [0, 1] |
| ActionDocumenter.CalcularPrioridad | apps/backend/agentes/documentador_mejorado.py:351-363 | the priority is always 1 to 5; it is 1 exactly when the mean of urgency and impact reaches 0.8 and 5 exactly when the mean is below 0.2 |
| ActionDocumenter.PrioridadSpec | apps/backend/agentes/documentador_mejorado.py:351-363 | against an independent band table: the priority is `p` exactly when the mean lies in `p`'s band of width 0.2, so the bands cover every score once |
| ActionDocumenter.PrioridadMonotona | apps/backend/agentes/documentador_mejorado.py:351-363 | more urgency or more impact never gives a lower rank (a larger priority number) |
| ActionDocumenter.PrioridadDeRango | apps/backend/agentes/documentador_mejorado.py:240-241 | `min(i, 5)` over ranks counted from 1 always gives a priority 1 to 5 |
| ActionDocumenter.PriorizarAcciones | apps/backend/agentes/documentador_mejorado.py:225-243 | ranking keeps the number of actions and gives the action at rank `i` the priority `min(i + 1, 5)` |
| ActionDocumenter.PriorizarSpec | apps/backend/agentes/documentador_mejorado.py:228-243 | the ranked list is a permutation of the input ordered by non-increasing score (0.4 urgency + 0.4 impact + 0.2 inverted priority), and each entry is the sorted action with only its priority replaced |
| ActionDocumenter.PriorizarEstable | apps/backend/agentes/documentador_mejorado.py:236-243 | the `i`-th ranked action is input action `p[i]` with its priority rewritten, and actions with equal scores keep their input order, as the stable `sorted` keeps them |
| ActionDocumenter.PrioridadesDistintas | apps/backend/agentes/documentador_mejorado.py:240-241 | two ranks share a priority exactly when the earlier one is fifth or later: ranks one to four are told apart |
| ActionDocumenter.FechaVencimiento | apps/backend/agentes/documentador_mejorado.py:397-406 | the due date is 1 to 14 days ahead; tomorrow exactly when urgency reaches 0.8, two weeks exactly when urgency is below 0.4 |
| ActionDocumenter.VencimientoMonotono | apps/backend/agentes/documentador_mejorado.py:397-406 | a more urgent action is never due later |
| ActionDocumenter.Frecuencia | apps/backend/agentes/documentador_mejorado.py:408-416 | the frequency is one of once, daily, weekly; daily exactly for routines, weekly exactly for experiments, once for every other type |
| ActionDocumenter.MomentoOptimo | apps/backend/agentes/documentador_mejorado.py:425-437 | the moment is one of fajr, isha, dhuhr, asr; fajr with no domain; otherwise the first domain's moment |
| ActionDocumenter.MomentoSoloPrimero | apps/backend/agentes/documentador_mejorado.py:435-436 | domains after the first never change the moment |
| ActionDocumenter.MomentoDeDominioInyectivo | apps/backend/agentes/documentador_mejorado.py:427-432 | the four known domains have four different moments |
| ActionDocumenter.Prerequisitos | apps/backend/agentes/documentador_mejorado.py:365-376 | a completed Estado Cero always comes first, and a second prerequisite is added exactly for immediate, planned and experimental actions |
| ActionDocumenter.SecuenciaPasos | apps/backend/agentes/documentador_mejorado.py:378-386 | four steps, the second carrying out the description |
| ActionDocumenter.SecuenciaPasosRoundTrip | apps/backend/agentes/documentador_mejorado.py:378-386 | the description can be read back from the second step |
| Cabinet.Registrar | apps/backend/ministerios/__init__.py:112-120 | after registering, the name is registered; the registry grows by one exactly when the name was new |
| Cabinet.RegistrarOverwrites | apps/backend/ministerios/__init__.py:112-120 | dictionary assignment: the name now maps to the new ministry, every other name keeps its ministry, and re-registering a known name keeps the set of names |
| Cabinet.ReporteDe | apps/backend/ministerios/__init__.py:141-152 | a ministry's entry is an error exactly when one of its queries raised, with the message prefixed by `Error al consultar ministerio: `, and otherwise holds its answers |
| Cabinet.Reportes | apps/backend/ministerios/__init__.py:138-152 | one entry per registered ministry, in registration order, each that ministry's report |
| Cabinet.DetectarConflictos | apps/backend/ministerios/__init__.py:168-182 | no conflict is ever detected |
| Cabinet.ProponerCoordinacion | apps/backend/ministerios/__init__.py:184-199 | no conflicts gives `sin_conflictos`; any conflict gives a coordination with no suggestion |
| Cabinet.Numericos | apps/backend/ministerios/__init__.py:215 | a value is kept exactly when it is the number of some entry of the metrics dictionary; at most one value per entry |
| Cabinet.NumericosAppend | apps/backend/ministerios/__init__.py:215 | the numbers of two runs of entries are those of the first run followed by those of the second: the values keep the dictionary order |
| Cabinet.MediaReporte | apps/backend/ministerios/__init__.py:213-217 | a report contributes a mean exactly when it is not an error, its metrics are a dictionary and at least one value is a number |
| Cabinet.MetricasValidas | apps/backend/ministerios/__init__.py:211-217 | a value is kept exactly when it is the mean of the numeric metrics of some report that has a metrics dictionary with a number in it; at most one per report |
| Cabinet.MetricasValidasAppend | apps/backend/ministerios/__init__.py:211-217 | the means of two runs of reports are those of the first run followed by those of the second: one mean per qualifying report, in report order |
| Cabinet.SaludGlobal | apps/backend/ministerios/__init__.py:201-222 | the global health is the mean of the per-ministry means, and 0 when no report contributes one (an empty cabinet included) |
| Cabinet.ReunionMinisterial | apps/backend/ministerios/__init__.py:122-166 | the meeting reports every registered ministry under its name and counts them, has no conflicts and `sin_conflictos`, and carries the global health of its reports |
| Cabinet.MeetingLookup | apps/backend/ministerios/__init__.py:138-152 | a name has an entry in the meeting exactly when it is registered, the entry is that ministry's report, and it is an error exactly when that ministry's queries raised |
| Cabinet.NumericosInRange | apps/backend/ministerios/__init__.py:215 | numeric values taken from metrics in 0..100 stay in 0..100 |
| Cabinet.ValidasInRange | apps/backend/ministerios/__init__.py:211-217 | when every reported metric lies in 0..100, so does every per-ministry mean |
| Cabinet.SaludGlobalBounds | apps/backend/ministerios/__init__.py:201-222 | the promised 0-100 score: metrics in 0..100 give a global health in 0..100 |
| Cabinet.AllErrorsGiveZero | apps/backend/ministerios/__init__.py:149-152 | a cabinet whose every ministry raises has a global health of 0 |
| Cabinet.ErrorsHaveNoMetrics | apps/backend/ministerios/__init__.py:213 | error entries contribute no mean |
| BodyMinistry.FaseDe | apps/backend/ministerios/cuerpo/__init__.py:149-228 | each phase holds exactly its band of the day: 05-09 ascending, 09-12 peak, 12-14 neutral, 14-16 valley, 16-18 second peak, 18-20 integration, 20-22 descending, the rest recovery |
| BodyMinistry.BandsPartitionDay | apps/backend/ministerios/cuerpo/__init__.py:153-161 | against the documented band table: a time lies in a phase's band exactly when it has that phase, so the bands partition the day |
| BodyMinistry.EveryPhaseReached | apps/backend/ministerios/cuerpo/__init__.py:153-161 | the first minute of every band has that band's phase: no phase is unreachable |
| BodyMinistry.MomentoCircadiano | apps/backend/ministerios/cuerpo/__init__.py:149-228 | the moment has the time's phase and that phase's energy base |
| BodyMinistry.EnergyIdentifiesPhase | apps/backend/ministerios/cuerpo/__init__.py:166-228 | different phases have different energy bases, the morning peak the highest and the night the lowest |
| BodyMinistry.Coherencia | apps/backend/ministerios/cuerpo/__init__.py:230-264 | a high-energy action scores 90 exactly in the energetic phases, 70 at midday, 40 elsewhere; otherwise a calm action scores 95 in the calm phases, 75 at midday, 50 elsewhere; any other action 70 |
| BodyMinistry.HighEnergyFirst | apps/backend/ministerios/cuerpo/__init__.py:246-261 | the calm reading is never consulted for a high-energy action, and away from midday neither kind scores 70 |
| BodyMinistry.Propuestas | apps/backend/ministerios/cuerpo/__init__.py:266-299 | at most two proposals, at most one when the fit reaches 70, none at midday, second peak or evening, and in the valley two exactly when the fit is below 70 |
| BodyMinistry.Alertas | apps/backend/ministerios/cuerpo/__init__.py:301-316 | the low-fit alert exactly below 50, the sleep alert exactly at night, the valley alert exactly in the valley below 60; at most three |
| BodyMinistry.ResponderADecreto | apps/backend/ministerios/cuerpo/__init__.py:73-120 | the answer's fit is the circadian score of the lower-cased action's kind at the time's phase, it is favorable exactly when the fit reaches 70, and it reports the phase's energy and the alerts for the fit |
| BodyMinistry.FavorableWhen | apps/backend/ministerios/cuerpo/__init__.py:246-264 | an answer is favorable exactly for a high-energy action in an energetic phase or at midday, a calm one in a calm phase or at midday, or an action of neither kind |
| BodyMinistry.AlertsWhen | apps/backend/ministerios/cuerpo/__init__.py:301-316 | an answer carries alerts exactly at night, for a high-energy action outside the energetic phases and midday, or for either kind of action in the valley |
| BodyMinistry.CalidadSueno | apps/backend/ministerios/cuerpo/__init__.py:318-336 | the sleep estimate by band: 85 from 5, 80 from 9, 70 from 14, 60 from 18, 40 at night |
| BodyMinistry.SleepEstimateDecreases | apps/backend/ministerios/cuerpo/__init__.py:318-336 | from five in the morning the estimate only goes down, and never below the night's |
| BodyMinistry.CoherenciaRitmo | apps/backend/ministerios/cuerpo/__init__.py:338-352 | 85 exactly when awake between 05:00 and 23:00, 30 exactly otherwise |
| BodyMinistry.MetricasSalud | apps/backend/ministerios/cuerpo/__init__.py:122-143 | the four metrics in the source's key order: sleep estimate, the phase's energy, rhythm fit and a fixed 50 for movement |
| BodyMinistry.MetricsInRange | apps/backend/ministerios/cuerpo/__init__.py:122-143 | every metric lies in the documented 0..100 |
| Emotion.Crear | apps/backend/models/estado_emocional.py:44-92 | the validating model accepts exactly the intensities 1..5, keeps the emotion and intensity, and defaults the trend to stable |
| Emotion.AttentionImpliesActive | apps/backend/models/estado_emocional.py:94-138 | a state needing attention (overwhelmed or anxious at 4 or more) is always active, while a mild anxiety is active without needing attention, so the converse fails |
| Emotion.CalmOnlyByIntensity | apps/backend/models/estado_emocional.py:94-138 | an emotion outside the polarised four is active exactly at intensity 4 or more and never needs attention |
| Emotion.TipoTexto | apps/backend/models/estado_emocional.py:22-32 | every emotion's value is a non-empty word with no space |
| Emotion.TipoTextoInjective | apps/backend/models/estado_emocional.py:22-32 | different emotions have different values |
| Emotion.TendenciaTextoInjective | apps/backend/models/estado_emocional.py:115-121 | different trends have different descriptions |
| Emotion.Resto | apps/backend/models/estado_emocional.py:124 | what follows the emotion's name starts with a space and has a fixed length plus the trend's |
| Emotion.RestoInjective | apps/backend/models/estado_emocional.py:124 | the intensity and the trend can be read back from what follows the name |
| Emotion.Sintesis | apps/backend/models/estado_emocional.py:110-124 | the synthesis is the emotion's value, ` (intensidad `, the intensity's digit, `/5, `, the trend's text and `)` |
| Emotion.SintesisInjective | apps/backend/models/estado_emocional.py:110-124 | the synthesis loses nothing: equal texts come from equal states |
| Emotion.Recientes | apps/backend/models/estado_emocional.py:218-223 | the history keeps exactly the records stamped no earlier than `dias` days before now, as a subsequence of the stored history (history order), each kept record as often as it was stored |
| Emotion.RecientesAlFinal | apps/backend/models/estado_emocional.py:218-223 | a record appended to the history becomes the last recent record when it is in the window, so the last three recent records are the three latest in history order |
| Emotion.TendenciaDe | apps/backend/models/estado_emocional.py:239-254 | fewer than three records is stable; over the last three, improving exactly when the last exceeds the first by more than 1, worsening exactly when it falls short by more than 1, oscillating exactly when neither holds and the range is at least 2 |
| Emotion.DetectarTendencia | apps/backend/models/estado_emocional.py:227-254 | over the records of the last two days: stable with fewer than three; otherwise improving exactly when the latest intensity exceeds the third-latest by more than 1, worsening exactly when it falls short by more than 1 |
| Emotion.Intensidades | apps/backend/models/estado_emocional.py:244 | the intensities are read off the records one for one |
| Emotion.TrendIgnoresOlder | apps/backend/models/estado_emocional.py:243-244 | once three records are present, older records never change the trend |
| Emotion.TrendReversal | apps/backend/models/estado_emocional.py:247-254 | reading the three intensities backwards swaps improving and worsening and keeps oscillating and stable |
| Emotion.TrendOscillationShape | apps/backend/models/estado_emocional.py:247-254 | an oscillation needs the middle value two away from an end, and a constant history is stable |
| ContextSummary.ScoreFragmento | apps/backend/services/sumario_contexto.py:153-156 | a fragment's expansion share lies in [0, 1], and is 0 when it has no answers (the `or 1` divisor) |
| ContextSummary.Scores | apps/backend/services/sumario_contexto.py:152-156 | one score per fragment, in order |
| ContextSummary.PatronDe | apps/backend/services/sumario_contexto.py:159-175 | fewer than three scores is stable; rising exactly when the second half's mean exceeds the first's by more than 0.2, falling exactly when it is more than 0.2 below, irregular exactly when neither holds and the scores spread over more than 0.4 |
| ContextSummary.DetectarPatronEnergia | apps/backend/services/sumario_contexto.py:144-175 | fewer than three fragments is stable (both early returns), otherwise the pattern of their scores |
| ContextSummary.ConstanteEstable | apps/backend/services/sumario_contexto.py:159-175 | a day whose fragments all score the same is stable |
| ContextSummary.DiferenciaAcotada | apps/backend/services/sumario_contexto.py:163-166 | with scores in [0, 1] the halves differ by at most 1 |
| ContextSummary.InvertirPatron | apps/backend/services/sumario_contexto.py:159-175 | with an even number of fragments, reading the day backwards swaps rising and falling and keeps irregular and stable |
| ContextSummary.TextoFragmentos | apps/backend/services/sumario_contexto.py:246-248 | no fragment contributes no text |
| ContextSummary.EstimarTokens | apps/backend/services/sumario_contexto.py:234-259 | the estimate is the length of the whole text divided by four, rounded down |
| ContextSummary.TokensMonotonos | apps/backend/services/sumario_contexto.py:246-259 | one more fragment never lowers the estimate |
| ContextSummary.TokensDireccion | apps/backend/services/sumario_contexto.py:246-259 | a lone fragment with no answers and an empty summary costs one token per four characters of its direction |
| LiturgicalQuestions.ObtenerPreguntas | apps/backend/services/pregunta_liturgica.py:18-128 | every moment has three questions, numbered `<moment>_1` to `_3`, each about one of the four domains and asking between two different poles |
| LiturgicalQuestions.BienTodas | apps/backend/services/pregunta_liturgica.py:18-118 | a well-formed set has every position well formed |
| LiturgicalQuestions.TablaBienFormada | apps/backend/services/pregunta_liturgica.py:18-118 | every moment's entry of the table is well formed |
| LiturgicalQuestions.BienFajr | apps/backend/services/pregunta_liturgica.py:19-38 | the fajr questions are well formed |
| LiturgicalQuestions.BienDhuhr | apps/backend/services/pregunta_liturgica.py:39-58 | the dhuhr questions are well formed |
| LiturgicalQuestions.BienAsr | apps/backend/services/pregunta_liturgica.py:59-78 | the asr questions are well formed |
| LiturgicalQuestions.BienMaghrib | apps/backend/services/pregunta_liturgica.py:79-98 | the maghrib questions are well formed |
| LiturgicalQuestions.BienIsha | apps/backend/services/pregunta_liturgica.py:99-118 | the isha questions are well formed |
| LiturgicalQuestions.IdInyectivo | apps/backend/services/pregunta_liturgica.py:18-118 | an id names its moment and its position |
| LiturgicalQuestions.IdsDistintos | apps/backend/services/pregunta_liturgica.py:18-128 | no two questions of the whole table share an id |
| LiturgicalQuestions.IdsDistintosEn | apps/backend/services/pregunta_liturgica.py:18-118 | two well-formed sets of different moments or positions never share an id |
| LiturgicalQuestions.Agrupar | apps/backend/services/pregunta_liturgica.py:136-143 | the grouping loop gives each domain one entry |
| LiturgicalQuestions.CalcularDominioActivo | apps/backend/services/pregunta_liturgica.py:131-148 | the result has exactly the grouped domains as keys |
| LiturgicalQuestions.AfirmativasAcotadas | apps/backend/services/pregunta_liturgica.py:137-143 | a domain's affirmative answers are at most its answers, and it has answers exactly when some answer is about it |
| LiturgicalQuestions.AgruparSpec | apps/backend/services/pregunta_liturgica.py:136-143 | after the loop a domain has a list exactly when some answer is about it, with one entry per such answer summing to its affirmative answers |
| LiturgicalQuestions.ValorEn | apps/backend/services/pregunta_liturgica.py:145-148 | each grouped domain maps to the mean of its list |
| LiturgicalQuestions.Proporcion | apps/backend/services/pregunta_liturgica.py:145-148 | a domain's share of affirmative answers lies in [0, 1] |
| LiturgicalQuestions.DominioActivoSpec | apps/backend/services/pregunta_liturgica.py:131-148 | against an independent count: a domain has a value exactly when some answer is about it, and the value is its affirmative answers over its answers |
| LiturgicalQuestions.DominioActivoSinRepetidos | apps/backend/services/pregunta_liturgica.py:145-148 | one entry per domain |
| Pillars.ViolarCoherente | apps/backend/services/verificador_pilares.py:67-70 | recording a violation keeps the score equal to 100 minus the penalties recorded, with one advice per violation |
| Pillars.Cerrar | apps/backend/services/verificador_pilares.py:89-100 | the closing result floors the score at 0 (`max(0, score)`), keeps the violations, and passes exactly at 70 or more |
| Pillars.Comprobar | apps/backend/services/verificador_pilares.py:66-87 | one check subtracts its penalty and records the violation exactly when it fails, and leaves score and violations alone otherwise |
| Pillars.TresChequeos | apps/backend/services/verificador_pilares.py:61-100 | from a clean start, three checks give 100 minus the penalties of the failed ones, listing exactly the failed checks in order |
| Pillars.TresPasos | apps/backend/services/verificador_pilares.py:61-87 | the running state after three checks carries 100 minus the failed penalties and the failed checks in order |
| Pillars.PurezaOperativa | apps/backend/services/verificador_pilares.py:47-100 | operative purity loses 25 without a specific action, 15 for a description over 200 characters, 30 for postponing, lists those violations in order, scores between 30 and 100 and passes exactly at 70 |
| Pillars.SoberaniaCreativa | apps/backend/services/verificador_pilares.py:102-154 | creative sovereignty loses 40 for an external dependency, 20 exactly for the type `consumo`, 30 for vendor lock-in, scores between 10 and 100 |
| Pillars.ResponsabilidadConsciente | apps/backend/services/verificador_pilares.py:156-208 | conscious responsibility loses 40 for blaming others, 25 for a critical expert, 20 for not understanding the implications, scores between 15 and 100 |
| Pillars.PilarHeuristico | apps/backend/services/verificador_pilares.py:272-292 | a heuristic pillar always scores 80, passes and lists no violation, under its own name |
| Pillars.FloorNeverApplies | apps/backend/services/verificador_pilares.py:91-200 | the three specific scores never reach 0, so the floor never applies and passing read from the unfloored score agrees with the reported one |
| Pillars.Resultados | apps/backend/services/verificador_pilares.py:222-245 | eight results: three specific pillars and five heuristic ones |
| Pillars.Cumplidos | apps/backend/services/verificador_pilares.py:251 | the passing count is at most the number of results |
| Pillars.TotalsAppend | apps/backend/services/verificador_pilares.py:248-251 | score sums and passing counts add up over concatenation |
| Pillars.AllHeuristic | apps/backend/services/verificador_pilares.py:272-292 | a run of heuristic results sums 80 each and all pass |
| Pillars.VerificarTodos | apps/backend/services/verificador_pilares.py:210-268 | eight pillars, the global score their mean, the passing count, and the architecture passing exactly at 6 or more |
| Pillars.Resumir | apps/backend/services/verificador_pilares.py:247-258 | a summary has the mean score, the passing count and passes exactly at 6 or more |
| Pillars.ThreePlusHeuristics | apps/backend/services/verificador_pilares.py:222-251 | three results before the five heuristic ones total their scores plus 400 and their passes plus 5 |
| Pillars.ArchitectureNeedsOneSpecific | apps/backend/services/verificador_pilares.py:210-258 | the architecture passes exactly when at least one of the three specific pillars does, and the global score is their sum plus 400 over 8, between 56.875 and 87.5 |
| Pillars.ResumenTres | apps/backend/services/verificador_pilares.py:247-258 | for specific scores in their ranges, the summary passes exactly when one of them passes, with the global score between 56.875 and 87.5 |
| Pillars.CleanDecisionIsPerfect | apps/backend/services/verificador_pilares.py:47-208 | a decision raising no flag scores 100 on each specific pillar |
| Purposes.Buscar | archive/services-future/2025-10-20/propositos.py:214-219 | a lookup finds something exactly when some entry has the key, and what it finds is an entry with that key |
| Purposes.PropositoDiaSemana | archive/services-future/2025-10-20/propositos.py:212-214 | the purpose is the named day's entry, or Lunes's exactly when no day has that name |
| Purposes.PropositoMesHijri | archive/services-future/2025-10-20/propositos.py:217-219 | the purpose is the named month's entry, or Muharram's exactly when no month has that name |
| Purposes.BuscarPrimera | archive/services-future/2025-10-20/propositos.py:214-219 | an entry with no earlier entry of the same key is what its key finds |
| Purposes.EncuentraTodas | archive/services-future/2025-10-20/propositos.py:214-219 | in a table without repeated keys every entry is found by its key |
| Purposes.DiasDistintos | archive/services-future/2025-10-20/propositos.py:66-120 | the weekday table repeats no day |
| Purposes.MesesDistintos | archive/services-future/2025-10-20/propositos.py:122-205 | the month table repeats no month |
| Purposes.DiasFindTheirEntry | archive/services-future/2025-10-20/propositos.py:66-214 | every capitalised weekday finds its own entry, and the lower-case `domingo` falls back to Lunes |
| Purposes.MinusculaDesconocida | archive/services-future/2025-10-20/propositos.py:212-214 | any name starting with a lower-case letter falls back to Lunes |
| Purposes.MesesFindTheirEntry | archive/services-future/2025-10-20/propositos.py:122-219 | every month name finds its own entry |
| Purposes.AnclasMomento | archive/services-future/2025-10-20/propositos.py:234-253 | each moment has a 15-minute prayer at its start, then its Estado Cero 15 minutes later with the moment's purpose: 30 minutes and a ritual at maghrib, 15 otherwise |
| Purposes.GenerarAnclas | archive/services-future/2025-10-20/propositos.py:222-255 | ten anchors, two per moment from fajr to isha, in that order |
| Purposes.AnclasSpec | archive/services-future/2025-10-20/propositos.py:222-273 | prayer then Estado Cero for every moment, 15 minutes apart, and the anchors' durations add up to exactly the 165 minutes the free-space computation charges for them |
| Purposes.SumaDuracionesAnclas | archive/services-future/2025-10-20/propositos.py:222-273 | the generated anchors last 165 minutes in total |
| Purposes.AnclasDe | archive/services-future/2025-10-20/propositos.py:234-253 | the `k`-th moment's anchors, with 30 minutes only for the maghrib ritual |
| Purposes.DuracionesAnclas | archive/services-future/2025-10-20/propositos.py:234-253 | the ten durations are 15 each except the maghrib ritual's 30 |
| Purposes.CalcularEspacioLibre | archive/services-future/2025-10-20/propositos.py:258-291 | the free minutes plus anchors, non-negotiables, routines and 480 minutes of sleep make up the 1440 of the day, and the percentage is the free share of the day |
| Purposes.EspacioLibreBounds | archive/services-future/2025-10-20/propositos.py:258-291 | with non-negative durations the free space is at most 795 minutes, negative exactly when the commitments exceed 795, and the percentage has the minutes' sign |
| Purposes.RutinaResta | archive/services-future/2025-10-20/propositos.py:279-283 | a routine of `d` minutes takes exactly `d` minutes of free space |
| SevenLayers.EnergiaDeSpec | apps/backend/services/orquestador_7_capas.py:76-96 | every hour gets exactly the energy whose band (from 5, 9, 12, 15, 18, 21, the night wrapping to 5) holds it: the bands partition the day |
| SevenLayers.ContextoInyectivo | apps/backend/services/orquestador_7_capas.py:76-96 | each energy has its own temporal context |
| SevenLayers.CapaFisica | apps/backend/services/orquestador_7_capas.py:98-108 | the physical layer is always active |
| SevenLayers.RecopilarSocial | apps/backend/services/orquestador_7_capas.py:111-145 | one default project; training comes first exactly on Monday, Wednesday and Friday, and the two Estado Cero sessions always close the non-negotiables |
| SevenLayers.SocialSiempreActiva | apps/backend/services/orquestador_7_capas.py:124-136 | the default project makes the social layer active every day |
| SevenLayers.OTres | apps/backend/services/orquestador_7_capas.py:154-155 | `x or 3`: a given non-zero value is kept, a missing value or 0 becomes 3 |
| SevenLayers.ResonanciaOrNeutral | apps/backend/services/orquestador_7_capas.py:156 | a missing or empty resonance becomes `neutral`, any other is kept |
| SevenLayers.RecopilarBiologica | apps/backend/services/orquestador_7_capas.py:147-169 | the layer reports the defaulted energy and sleep, and the vitality, attention and activity of the quick biological state built from them |
| SevenLayers.BiologicaPorDefecto | apps/backend/services/orquestador_7_capas.py:147-169 | with nothing given: energy 3, sleep 3, neutral, vitality 5.5, no attention needed, active |
| SevenLayers.CeroEsAusente | apps/backend/services/orquestador_7_capas.py:154 | an energy of 0 gives the same layer as no energy |
| SevenLayers.CapasActivas | apps/backend/services/orquestador_7_capas.py:363-367 | at most as many active layers as layers |
| SevenLayers.CapasActivasSpec | apps/backend/services/orquestador_7_capas.py:363-370 | the active layers are exactly the names of the flagged layers, in order, and their number counts the flagged layers |
| SevenLayers.Reglas | apps/backend/services/orquestador_7_capas.py:434-450 | six checks, one per domain the layers can point at |
| SevenLayers.Aplicadas | apps/backend/services/orquestador_7_capas.py:434-450 | no domain exactly when no check applies, and every domain listed comes from a check that applies |
| SevenLayers.AplicadasDistintas | apps/backend/services/orquestador_7_capas.py:434-450 | checks with distinct names give distinct domains |
| SevenLayers.PorMomento | apps/backend/services/orquestador_7_capas.py:453-462 | every moment, and the fallback, has two default domains |
| SevenLayers.IdentificarDominios | apps/backend/services/orquestador_7_capas.py:424-464 | one to three domains: the first three pointed at, or the moment's two when none is |
| SevenLayers.SinSenalesSpec | apps/backend/services/orquestador_7_capas.py:434-452 | the fallback is taken exactly when no biological, emotional or cosmic layer is active, the mental function is neither Ne nor Ti, and the social layer is inactive or empty |
| SevenLayers.SenaladoSoloSiAplica | apps/backend/services/orquestador_7_capas.py:434-450 | a domain is pointed at only when its own check applies |
| SevenLayers.CuerpoPrimero | apps/backend/services/orquestador_7_capas.py:434-464 | an active biological layer always puts `cuerpo` first |
| SevenLayers.SenaladosDistintos | apps/backend/services/orquestador_7_capas.py:424-464 | the chosen domains never repeat |
| Vitality.NivelEnergia | apps/backend/models/estado_biologico.py:20-27 | every energy level sits at a position 1..5 of its scale |
| Vitality.NivelSueno | apps/backend/models/estado_biologico.py:29-36 | every sleep quality sits at a position 1..5 of its scale |
| Vitality.NivelResonancia | apps/backend/models/estado_biologico.py:38-45 | every body resonance sits at a position 1..5 of its scale |
| Vitality.Score | apps/backend/models/estado_biologico.py:127-169 | the vitality score, energy 0-4 plus sleep 0-3 plus resonance 0-3 points, lies in [0, 10] |
| Vitality.ScoreExtremos | apps/backend/models/estado_biologico.py:136-169 | the score is 0 exactly for the lowest level of all three inputs and 10 exactly for the highest |
| Vitality.ScoreMonotone | apps/backend/models/estado_biologico.py:136-169 | raising any input never lowers the score, and the score stays the same only when no input changed |
| Vitality.ScoreHalfPoints | apps/backend/models/estado_biologico.py:163-169 | the score is a whole number of half points, so `round(score, 1)` changes nothing |
| Vitality.ThresholdsRelate | apps/backend/models/estado_biologico.py:219-245 | needing attention (below 3) excludes optimality (6.5 or more) and makes the layer active (below 6 or above 8); an optimal state is inactive exactly up to 8 |
| Vitality.AttentionNeedsLowEnergy | apps/backend/models/estado_biologico.py:136-235 | attention is only needed with at most medium energy, and always with the lowest energy, poor sleep and a tense or fatigued body |
| Vitality.OptimalNeeds | apps/backend/models/estado_biologico.py:136-226 | optimality is out of reach with the lowest energy or with both poor sleep and a poor body, and low energy with the best sleep and body reaches it |
| Vitality.UrgenciaDe | apps/backend/models/estado_biologico.py:308-314 | high urgency exactly below 3, medium exactly from 3 to below 5, low exactly from 5 |
| Vitality.Si | apps/backend/models/estado_biologico.py:288-306 | a check contributes its suggestion exactly when it fires |
| Vitality.Lista | apps/backend/models/estado_biologico.py:288-306 | a suggestion is listed exactly when its check fires, the sleep-recovery one only inside the low-energy check |
| Vitality.DetectadasSpec | apps/backend/models/estado_biologico.py:288-306 | against an independent table of conditions: a suggestion is detected exactly when its condition holds on the state (a recorded sleep of 0 hours is falsy and raises no deficit) |
| Vitality.GenerarSugerencias | apps/backend/models/estado_biologico.py:274-320 | never an empty list; every non-fallback suggestion appears exactly when its condition holds; the stable fallback appears alone exactly when no check fires; the urgency is high exactly when attention is needed |
| Vitality.OptimalIsLowUrgency | apps/backend/models/estado_biologico.py:219-314 | an optimal state always has low urgency |
| Vitality.EnergiaDe | apps/backend/models/estado_biologico.py:341-366 | 1..5 give the level at that position, anything else medium |
| Vitality.SuenoDe | apps/backend/models/estado_biologico.py:349-367 | 1..5 give the quality at that position, anything else regular |
| Vitality.ResonanciaDe | apps/backend/models/estado_biologico.py:357-368 | the four named resonances parse to themselves, any other text to neutral |
| Vitality.ResonanciaRoundTrip | apps/backend/models/estado_biologico.py:357-368 | parsing a resonance's own name gives it back |
| Vitality.CrearEstadoRapido | apps/backend/models/estado_biologico.py:324-370 | a quick state sets no optional field and takes each input's level, or the middle of its scale when out of range |
| Vitality.QuickDefaultsScore | apps/backend/models/estado_biologico.py:324-370 | out-of-range input gives score 5.5, neither optimal nor in need of attention, but active |
| Vitality.QuickRoundTrip | apps/backend/models/estado_biologico.py:324-370 | building a quick state from a state's levels and reading them back is the identity, optional fields aside |
| MeaningMinistry.PuntosValor | apps/backend/ministerios/significado/__init__.py:516-526 | every value an action touches earns between 75 and 100 |
| MeaningMinistry.Activados | apps/backend/ministerios/significado/__init__.py:513-526 | a value is activated exactly when the action contains one of its keywords, at most four, in the checks' order |
| MeaningMinistry.Marcados | apps/backend/ministerios/significado/__init__.py:516-526 | a value is listed exactly when its test holds, and none exactly when no test holds |
| MeaningMinistry.Puntos | apps/backend/ministerios/significado/__init__.py:532 | one score per activated value |
| MeaningMinistry.EvaluarValores | apps/backend/ministerios/significado/__init__.py:507-538 | 50 for an action touching no value, else the mean of the touched values' scores; coherent exactly from 70 |
| MeaningMinistry.ValuesCoherentIffTouched | apps/backend/ministerios/significado/__init__.py:507-538 | the alignment is coherent exactly when the action touches some value, and lies in [50, 100] |
| MeaningMinistry.EvaluarDharma | apps/backend/ministerios/significado/__init__.py:540-580 | serving the current dharma wins (95); otherwise the deep dharma counts (75) only when nothing compromises, a compromise gives 30, and an action touching none is neutral (50) |
| MeaningMinistry.PuntosDharma | apps/backend/ministerios/significado/__init__.py:562-573 | every dharma score lies in [30, 95] |
| MeaningMinistry.EvaluarSignificado | apps/backend/ministerios/significado/__init__.py:582-618 | generative words win, then maintenance, then entropic, else neutral, each with its score |
| MeaningMinistry.PuntosSignificado | apps/backend/ministerios/significado/__init__.py:582-618 | every meaning score lies in [20, 90] |
| MeaningMinistry.EvaluarLegado | apps/backend/ministerios/significado/__init__.py:620-665 | legacy words win, then functional, then regret, else neutral, each with its score |
| MeaningMinistry.PuntosLegado | apps/backend/ministerios/significado/__init__.py:620-665 | every legacy score lies in [20, 95] |
| MeaningMinistry.CoherenciaExistencial | apps/backend/ministerios/significado/__init__.py:667-690 | the weights 0.30, 0.30, 0.25 and 0.15 sum to one: four equal scores give that score back |
| MeaningMinistry.CoherenceMonotone | apps/backend/ministerios/significado/__init__.py:683-688 | raising any of the four scores never lowers the coherence |
| MeaningMinistry.PreguntasProfundas | apps/backend/ministerios/significado/__init__.py:692-720 | the four base questions always, followed by the three extra ones exactly when the coherence is below 60 |
| MeaningMinistry.BandaReflexion | apps/backend/ministerios/significado/__init__.py:722-744 | the reflection band is high exactly from 80, moderate exactly from 60 to below 80, low exactly below 60 |
| MeaningMinistry.Reflexion | apps/backend/ministerios/significado/__init__.py:722-744 | the deep-alignment text exactly from 80, the warning about saying yes out of obligation exactly below 60, the moderate text exactly in between |
| MeaningMinistry.ReflexionDistingueBandas | apps/backend/ministerios/significado/__init__.py:722-744 | two coherences get the same reflection exactly when they fall in the same band |
| MeaningMinistry.ResponderADecreto | apps/backend/ministerios/significado/__init__.py:314-359 | the four evaluations of the lower-cased action, their weighted coherence, favorable exactly from 70, seven questions exactly below 60, and the reflection of the coherence |
| MeaningMinistry.CoherenceBounds | apps/backend/ministerios/significado/__init__.py:667-690 | any action's coherence lies between 30.5 and 95.5 |
| MeaningMinistry.CoherenciaAcotada | apps/backend/ministerios/significado/__init__.py:667-690 | scores within their ranges give a coherence between 30.5 and 95.5 |
| MeaningMinistry.NeutralActionAsksForReflection | apps/backend/ministerios/significado/__init__.py:314-359 | an action mentioning no keyword scores 53, is not favorable and gets all seven questions |
| MeaningMinistry.FamilyActionIsFavorable | apps/backend/ministerios/significado/__init__.py:314-359 | an action mentioning `familia` is always favorable with the high reflection |
| MeaningMinistry.FamiliaEnListas | apps/backend/ministerios/significado/__init__.py:516-665 | `familia` is a keyword of the family value, the current dharma, generative meaning and legacy |
| MeaningMinistry.CoherenciaAlta | apps/backend/ministerios/significado/__init__.py:667-690 | top dharma, meaning and legacy with values of at least 75 give a coherence of at least 80 |
| MeaningMinistry.MetricasSalud | apps/backend/ministerios/significado/__init__.py:806-838 | four metrics: the mean purpose clarity, the mean lived score, and inner peace equal to the lived coherence |
| MeaningMinistry.MetricValues | apps/backend/ministerios/significado/__init__.py:806-838 | the metrics come to 81, 77.5, 85 and 77.5 |
| PatternAnalysis.Cuota | apps/backend/agentes/analizador_patrones.py:175 | a tendency's share lies in [0, 1] and times the number of states gives its count |
| PatternAnalysis.CuotaMonotona | apps/backend/agentes/analizador_patrones.py:175 | a tendency seen at least as often has at least the same share |
| PatternAnalysis.Conteos | apps/backend/agentes/analizador_patrones.py:153-165 | each state's entry counts the states sharing its moment |
| PatternAnalysis.MomentoPredominante | apps/backend/agentes/analizador_patrones.py:177-183 | with no state fajr; otherwise a moment of the states with the largest number of states, and among equals the one seen first (a later moment replaces it only with strictly more) |
| PatternAnalysis.PrimerMaximo | apps/backend/agentes/analizador_patrones.py:177-183 | the first position with the largest count names a moment no other outnumbers and that no equal precedes |
| PatternAnalysis.AnalizarPatronEnergia | apps/backend/agentes/analizador_patrones.py:147-190 | with no state, balance at zero in fajr; otherwise a most frequent tendency (any one among ties, as `max` over a set), the mean intensity, that tendency's share, and a moment no other outnumbers |
| PatternAnalysis.ConsistenciaSpec | apps/backend/agentes/analizador_patrones.py:169-175 | once there is a state the consistency is above 0, and no other tendency has a larger share |
| PatternAnalysis.TendenciasQueMencionan | apps/backend/agentes/analizador_patrones.py:200-208 | at most one tendency per state, and none exactly when no state mentions a word of the list |
| PatternAnalysis.Brecha | apps/backend/agentes/analizador_patrones.py:215-219 | the gap between the body's expansion share and the spirit's contraction share lies in [0, 1] |
| PatternAnalysis.DetectarConflictos | apps/backend/agentes/analizador_patrones.py:192-227 | at most one conflict, between the biological and the spiritual domain, of type energy, with an intensity above 0.6 and at most 1 |
| PatternAnalysis.ConflictoSpec | apps/backend/agentes/analizador_patrones.py:192-227 | a conflict is reported exactly when some state mentions the body, some state mentions the spirit, and the gap exceeds 0.6 |
| PatternAnalysis.SinConflictoSiConcuerdan | apps/backend/agentes/analizador_patrones.py:214-219 | when every body state expands and every spirit state contracts there is no conflict |
| PatternAnalysis.TodasIguales | apps/backend/agentes/analizador_patrones.py:200-208 | if every mentioning state has tendency `t`, every collected tendency is `t` |
| PatternAnalysis.DominiosEnExpansion | apps/backend/agentes/analizador_patrones.py:238-245 | a state expands in at most three domains, and in none unless its tendency is expansion |
| PatternAnalysis.DetectarSinergias | apps/backend/agentes/analizador_patrones.py:229-255 | at most one synergy per state, each an amplification with potential between 2/3 and 1 |
| PatternAnalysis.SinergiasCuentan | apps/backend/agentes/analizador_patrones.py:229-255 | there is one synergy for exactly each state expanding in two domains or more |
| PatternAnalysis.SinExpansionSinSinergias | apps/backend/agentes/analizador_patrones.py:238-247 | no state in expansion, no synergy |
| PatternAnalysis.AccionDePatron | apps/backend/agentes/analizador_patrones.py:267-291 | the pattern yields one action exactly when its consistency exceeds 0.7 and its tendency is expansion or contraction |
| PatternAnalysis.AccionesDeConflictos | apps/backend/agentes/analizador_patrones.py:293-305 | exactly as many planned actions as energy conflicts; every energy conflict gets the action on its first domain with its intensity as urgency and 0.8 impact, and every action is such an action; an energy conflict without domains is excluded, as `dominios[0]` raises on it |
| PatternAnalysis.AccionesDeConflictosAlFinal | apps/backend/agentes/analizador_patrones.py:293-305 | a conflict appended at the end adds its action last exactly when it is an energy conflict: the actions keep the conflict order |
| PatternAnalysis.DetectadosConDominio | apps/backend/agentes/analizador_patrones.py:220-227 | the conflicts the detector builds always name their domains, so their actions can be generated |
| PatternAnalysis.AccionesDeSinergias | apps/backend/agentes/analizador_patrones.py:307-319 | exactly as many experiments as amplification synergies; every amplification synergy gets the experiment with urgency 0.7 and its potential as impact, and every action is such an experiment |
| PatternAnalysis.AccionesDeSinergiasAlFinal | apps/backend/agentes/analizador_patrones.py:307-319 | a synergy appended at the end adds its experiment last exactly when it is an amplification: the experiments keep the synergy order |
| PatternAnalysis.GenerarAcciones | apps/backend/agentes/analizador_patrones.py:257-320 | the pattern's action (if any) comes first, then one planned action per energy conflict, then one experiment per amplification synergy, and nothing else |
| PatternAnalysis.AccionSoloSiConsistente | apps/backend/agentes/analizador_patrones.py:267-291 | an immediate or routine action appears only when the consistency exceeds 0.7, and then it comes first |
| Prisma.Letras | apps/backend/services/motor_prisma.py:508-518 | every MBTI type is four letters |
| Prisma.TipoDePreguntas | apps/backend/services/motor_prisma.py:63-77 | questions with time exactly for the emotional authority, in-the-moment intuitive ones exactly for the splenic, exploratory ones exactly for the mental |
| Prisma.BasePreguntas | apps/backend/services/motor_prisma.py:100-118 | 15 questions under 7 days, 8 under 30, 5 under 90, 3 from 90 |
| Prisma.AjustePreguntas | apps/backend/services/motor_prisma.py:124-129 | 2 fewer above a ratio of 0.7, 3 more below 0.5, no change in between |
| Prisma.NumeroPreguntas | apps/backend/services/motor_prisma.py:79-133 | at least one question; base plus adjustment, or one when that falls below one |
| Prisma.NumeroPreguntasMonotone | apps/backend/services/motor_prisma.py:79-133 | more days or a higher ratio never add questions, the count stays in 1..18, and the floor of one binds exactly for an aligned user past 90 days |
| Prisma.EstiloPreguntas | apps/backend/services/motor_prisma.py:135-147 | conceptual exploration exactly for ENTP, strategic directness exactly for INTJ and ENTJ, depth of meaning exactly for INFJ and ENFJ |
| Prisma.Dimensiones | apps/backend/services/motor_prisma.py:152-155 | one dimension per manifestation, in order |
| Prisma.PriorizarCategorias | apps/backend/services/motor_prisma.py:149-162 | one category per distinct dimension |
| Prisma.CategoriasSpec | apps/backend/services/motor_prisma.py:149-162 | every dimension with a manifestation appears exactly once, nothing else does, and none goes before a dimension with more manifestations |
| Prisma.CategoriasEstables | apps/backend/services/motor_prisma.py:149-162 | the `i`-th category is the `p[i]`-th dimension in first-seen order, and dimensions with equally many manifestations keep that order, as the stable `sorted` keeps them |
| Prisma.Sesgos | apps/backend/services/motor_prisma.py:164-201 | four Enneagram biases for type 5 (listed first), three for 1 and 7, none otherwise, plus one for a P type and one for a T type |
| Prisma.EntpFiveBiases | apps/backend/services/motor_prisma.py:164-201 | the ENTP 5w4 profile carries six biases |
| Prisma.HorariosOptimos | apps/backend/services/motor_prisma.py:301-309 | one slot: the observed energy peak whenever a non-empty one is recorded, otherwise the declared best learning time |
| Prisma.EstiloDeTrabajo | apps/backend/services/motor_prisma.py:311-324 | deep blocks with exploration exactly for an ENTP or ENFP of type 5, free exploration with structure for the other ENTP and ENFP, long linear blocks exactly for INTJ and ISTJ |
| Prisma.Balance | apps/backend/services/motor_prisma.py:326-329 | the depth-over-breadth score scaled to 0..1: ten times the balance is the 0..10 score |
| Prisma.Protecciones | apps/backend/services/motor_prisma.py:331-347 | one protection when the method needs silence, and two more for an ENTP of type 5 |
| Prisma.BaseEspacio | apps/backend/services/motor_prisma.py:365-376 | the free-space base of every Human Design type lies in [0.35, 0.55] |
| Prisma.Progresos | apps/backend/services/motor_prisma.py:392 | one progress per manifestation |
| Prisma.EspacioSinLimites | apps/backend/services/motor_prisma.py:365-404 | base plus the coherence and progress adjustments lies in [0.25, 0.65] |
| Prisma.EspacioLibreDinamico | apps/backend/services/motor_prisma.py:349-411 | the free space is always in [0.25, 0.60]: the unclamped sum, or 0.60 when the sum exceeds it |
| Prisma.ClampOnlyAtTop | apps/backend/services/motor_prisma.py:365-409 | the lower limit never binds, and the upper one only for a Reflector with a ratio below 0.5 |
| Prisma.CriteriosDe | apps/backend/services/motor_prisma.py:482 | one criterion per manifestation |
| Prisma.CriterioTipo | apps/backend/services/motor_prisma.py:485-490 | exactly Generators and Projectors put a criterion of their own first |
| Prisma.PorProgreso | apps/backend/services/motor_prisma.py:481-482 | sorting by progress keeps every manifestation |
| Prisma.Criterios | apps/backend/services/motor_prisma.py:479-494 | manifestations' criteria plus the type's, cut to five, with the Generator's sacral response or the Projector's invitation first |
| Prisma.CriteriosAscending | apps/backend/services/motor_prisma.py:479-494 | after the type's criterion come the manifestations' criteria in non-decreasing progress, each manifestation once |
| Prisma.CriteriosEstables | apps/backend/services/motor_prisma.py:485-486 | manifestations with the same progress keep their input order, as the stable `sorted` keeps them |
| Prisma.NivelDetalle | apps/backend/services/motor_prisma.py:496-506 | minimalist exactly for Enneagram 5, detailed exactly for 1 |
| Prisma.Flexibilidad | apps/backend/services/motor_prisma.py:508-518 | 0.7 exactly with a P, 0.3 exactly with a J and no P, 0.5 exactly with neither |
| Prisma.FlexibilityNeverMiddle | apps/backend/services/motor_prisma.py:508-518 | every type ends in J or P, so 0.5 is never produced |
| Prisma.PuntosDecision | apps/backend/services/motor_prisma.py:520-538 | three decision points for sacral and emotional authorities, two otherwise, starting at the day's start for every non-sacral one |
| WeeklyPlanner.NombreDia | apps/backend/agentes/entrelazador.py:473-476 | the Spanish name of the date's weekday, Monday first |
| WeeklyPlanner.DeportesDia | apps/backend/agentes/entrelazador.py:232-245 | a routine's sport is listed exactly when the routine names the weekday, case-insensitively, and nothing else is |
| WeeklyPlanner.DeportesDiaAlFinal | apps/backend/agentes/entrelazador.py:232-245 | a routine appended to the profile adds its sport last exactly when it names the weekday: the sports keep the profile order |
| WeeklyPlanner.ComidaDe | apps/backend/agentes/entrelazador.py:249-268 | a meal is batch cooking exactly when batch is on and its batch days name the weekday; the recipe is the first preferred one or `Por definir` |
| WeeklyPlanner.ComidasDia | apps/backend/agentes/entrelazador.py:247-269 | one meal per meal configuration, in order |
| WeeklyPlanner.Disponible | apps/backend/agentes/entrelazador.py:516-518 | what a category has left, `max(0, allocated - spent)`: never negative and never less than the net |
| WeeklyPlanner.PresupuestoDisponible | apps/backend/agentes/entrelazador.py:513-519 | the available budget is never negative |
| WeeklyPlanner.PresupuestoSpec | apps/backend/agentes/entrelazador.py:513-519 | the available budget is at least the net of all categories and at least any one category's remainder, and is zero exactly when every category is spent |
| WeeklyPlanner.AlertasFinancieras | apps/backend/agentes/entrelazador.py:521-528 | the alerts raise exactly when some category has nothing allocated (the division by zero), otherwise at most one per category |
| WeeklyPlanner.AlertasSpec | apps/backend/agentes/entrelazador.py:521-528 | with every category funded, the alerts name exactly the categories more than 90% spent |
| WeeklyPlanner.TemasPrioritarios | apps/backend/agentes/entrelazador.py:275-283 | exactly three topics, or all of them when there are fewer |
| WeeklyPlanner.TopTres | apps/backend/agentes/entrelazador.py:275-283 | the chosen topics come from the profile by non-increasing priority, every topic of strictly higher priority than a chosen one is chosen, and with three or fewer all are |
| WeeklyPlanner.SugerirTema | apps/backend/agentes/entrelazador.py:284-291 | a topic's daily time is its weekly time divided by seven, rounded down, with at most its first two resources |
| WeeklyPlanner.TemasDia | apps/backend/agentes/entrelazador.py:271-293 | one suggestion per chosen topic, at most three |
| WeeklyPlanner.OrdenUrgencia | apps/backend/agentes/entrelazador.py:302-309 | one entry per active project |
| WeeklyPlanner.OrdenUrgenciaSpec | apps/backend/agentes/entrelazador.py:302-309 | the order is a permutation of the active projects that never puts a project after a strictly more urgent one (earlier deadline, no deadline last, then higher priority) |
| WeeklyPlanner.OrdenUrgenciaEstable | apps/backend/agentes/entrelazador.py:302-309 | projects with the same deadline and priority keep their profile order, as the single stable sort by the pair keeps them; each listed project is the active project at the composed position |
| WeeklyPlanner.UrgenciaOrdenada | apps/backend/agentes/entrelazador.py:306-309 | two stable sorts, priority then deadline, order by the `(deadline or date.max, -prioridad)` key |
| WeeklyPlanner.ProyectosUrgentes | apps/backend/agentes/entrelazador.py:312 | at most the first two of the urgency order, all of it when it is shorter |
| WeeklyPlanner.DosMasUrgentes | apps/backend/agentes/entrelazador.py:300-312 | the chosen projects are active ones, any active project more urgent than a chosen one is chosen, and with fewer than two chosen all active projects are |
| WeeklyPlanner.PrefijoUrgente | apps/backend/agentes/entrelazador.py:312 | a prefix of an urgency order keeps every project more urgent than one of its own |
| WeeklyPlanner.MinutosDiarios | apps/backend/agentes/entrelazador.py:313-314 | `int(horas / 7 * 60)`: a seventh of the weekly hours in minutes, truncated toward zero for either sign |
| WeeklyPlanner.SugerirProyecto | apps/backend/agentes/entrelazador.py:313-326 | a project's first two milestones or the default one, and its daily minutes |
| WeeklyPlanner.ProyectosDia | apps/backend/agentes/entrelazador.py:297-328 | one suggestion per chosen project, at most two |
| WeeklyPlanner.FichaAsunto | apps/backend/agentes/entrelazador.py:336-347 | a listed matter says decide today exactly on its decision day, otherwise in how many days, and is urgent exactly within two days |
| WeeklyPlanner.AsuntosDia | apps/backend/agentes/entrelazador.py:330-349 | exactly the matters whose decision falls 0 to 7 days ahead are listed |
| WeeklyPlanner.AsuntosDiaAlFinal | apps/backend/agentes/entrelazador.py:330-349 | a matter appended to the profile adds its entry last exactly when it is due within the week: the matters keep the profile order |
| WeeklyPlanner.AsuntoHoy | apps/backend/agentes/entrelazador.py:336-347 | a matter due today is `DECIDIR HOY` and urgent; one past or more than a week away is not listed |
| WeeklyPlanner.ConflictosDia | apps/backend/agentes/entrelazador.py:351-378 | the energy conflict exactly with two intense sports and a demanding project, the batch conflict exactly with batch cooking and a demanding project, and the time conflict, last, exactly above 480 minutes, with the total split into hours and minutes |
| WeeklyPlanner.SinergiasDia | apps/backend/agentes/entrelazador.py:380-410 | morning exercise with a creative project, batch cooking with study, and a balanced day each exactly when their conditions hold |
| WeeklyPlanner.PuntosProyecto | apps/backend/agentes/entrelazador.py:421-428 | a project costs 4 exactly above 180 minutes, 2 exactly up to 90, 3 in between |
| WeeklyPlanner.PuntosTema | apps/backend/agentes/entrelazador.py:431-436 | a topic costs 2 exactly above 60 minutes, 1 otherwise |
| WeeklyPlanner.EnergiaRequerida | apps/backend/agentes/entrelazador.py:412-438 | the sum of the points, capped at 10 |
| WeeklyPlanner.EnergiaAlMenos | apps/backend/agentes/entrelazador.py:412-438 | with intensities of at least 1, the energy is at least the number of activities and twice the number of projects, up to the cap |
| WeeklyPlanner.EntrelazarDia | apps/backend/agentes/entrelazador.py:182-230 | a planned day fails exactly when the financial alerts do; otherwise it has the date, shopping exactly on the shopping day, a non-negative budget, at most three topics and two projects, the capped energy of its activities and their conflicts |
| WeeklyPlanner.EspaciosEmergencia | apps/backend/agentes/entrelazador.py:624-638 | exactly the days needing less than 5 energy become slots, each with more than 5 energy to spare |
| WeeklyPlanner.EspaciosEmergenciaAlFinal | apps/backend/agentes/entrelazador.py:624-638 | a day appended to the plan adds its slot last exactly when it needs less than 5 energy: the slots keep the day order |
| WeeklyPlanner.EspacioDeDiaVacio | apps/backend/agentes/entrelazador.py:624-638 | a day with no sport, project or topic is a slot with the full 10 |
| DomainEntanglement.Menciones | archive/agentes-v2/2025-10-20/entrelazador_dominios.py:218-236 | the states that name one of the domain's indicators, as a subsequence of the states (their order), each as often as it occurs; none exactly when no state mentions it |
| DomainEntanglement.MencionesAlFinal | archive/agentes-v2/2025-10-20/entrelazador_dominios.py:218-236 | a state appended at the end becomes the last mention exactly when it mentions the domain |
| DomainEntanglement.AnalizarDominio | archive/agentes-v2/2025-10-20/entrelazador_dominios.py:209-256 | an unmentioned domain is in balance with energy 0.5 and urgency 0.3; a mentioned one takes a most frequent tendency among the mentioning states, their mean intensity as energy and the mean of their tendency-weighted intensities as urgency, keeping its configured resources and needs |
| DomainEntanglement.DominioAcotado | archive/agentes-v2/2025-10-20/entrelazador_dominios.py:228-248 | with intensities in [0, 1] a domain's energy stays in [0, 1] and its urgency in [0, 0.8] |
| DomainEntanglement.AnalizarEstadoDominios | archive/agentes-v2/2025-10-20/entrelazador_dominios.py:87-99 | one analysed domain per principal domain, in declaration order |
| DomainEntanglement.ParesMiembros | archive/agentes-v2/2025-10-20/entrelazador_dominios.py:110-111 | the double loop visits every pair `i < j` of domains and nothing else |
| DomainEntanglement.ParesOrden | archive/agentes-v2/2025-10-20/entrelazador_dominios.py:110-111 | the pairs come in strictly increasing order, so each unordered pair is examined once |
| DomainEntanglement.AnalizarParEscrito | archive/agentes-v2/2025-10-20/entrelazador_dominios.py:258-310 | as written: an entanglement is reported exactly when the pair's type is not neutral and its intensity exceeds 0.3 |
| DomainEntanglement.FormaEscrita | archive/agentes-v2/2025-10-20/entrelazador_dominios.py:283-321 | as written, a reported pair is named in the order it was asked and a sequence always runs from the first domain asked to the second |
| DomainEntanglement.TipoDe | archive/agentes-v2/2025-10-20/entrelazador_dominios.py:266-332 | synergy exactly when both expand, conflict exactly when one expands and the other contracts, otherwise sequence exactly when either depends on the other, otherwise support exactly when the support table links them |
| DomainEntanglement.AnalizarPar | archive/agentes-v2/2025-10-20/entrelazador_dominios.py:258-310 | the corrected pair analysis reports exactly the non-neutral pairs above 0.3, and a reported sequence is named in the direction of its dependency |
| DomainEntanglement.SimetriaSinergiaConflicto | archive/agentes-v2/2025-10-20/entrelazador_dominios.py:266-280 | synergy and conflict, and their intensities, do not depend on which domain comes first |
| DomainEntanglement.TipoSimetrico | archive/agentes-v2/2025-10-20/entrelazador_dominios.py:266-332 | with the sequence rule read both ways the type of a pair does not depend on its order, since the support table is symmetric |
| DomainEntanglement.Detectar | archive/agentes-v2/2025-10-20/entrelazador_dominios.py:101-125 | no more entanglements than pairs |
| DomainEntanglement.DetectarCompleto | archive/agentes-v2/2025-10-20/entrelazador_dominios.py:101-125 | every significant pair `i < j` is found |
| DomainEntanglement.DetectarCorrecto | archive/agentes-v2/2025-10-20/entrelazador_dominios.py:101-125 | everything found comes from a significant pair `i < j` |
| DomainEntanglement.DetectarEntrelazamientos | archive/agentes-v2/2025-10-20/entrelazador_dominios.py:101-125 | as written, at most one entanglement per pair |
| DomainEntanglement.DetectarSpec | archive/agentes-v2/2025-10-20/entrelazador_dominios.py:101-125 | as written, exactly the pairs significant in list order are found |
| DomainEntanglement.DetectarCorregido | archive/agentes-v2/2025-10-20/entrelazador_dominios.py:101-125 | the corrected search finds at most one entanglement per pair |
| DomainEntanglement.DetectarCorregidoSpec | archive/agentes-v2/2025-10-20/entrelazador_dominios.py:101-125 | with the corrected pair analysis, exactly the significant pairs are found |
| DomainEntanglement.SecuenciasEscritasAdelante | archive/agentes-v2/2025-10-20/entrelazador_dominios.py:101-125 | as written, everything found names its pair in list order, and a sequence runs from the earlier domain of the list to the later |
| DomainEntanglement.SecuenciaInversaPerdida | archive/agentes-v2/2025-10-20/entrelazador_dominios.py:101-125 | as written, a dependency whose first domain comes later in the list is never reported in its own direction |
| DomainEntanglement.DependenciasAdelante | archive/agentes-v2/2025-10-20/entrelazador_dominios.py:101-125 | as written, a dependency whose first domain comes earlier is reported as a sequence when neither synergy nor conflict applies and the urgency exceeds 0.3 |
| DomainEntanglement.SecuenciaEscritaPerdida | archive/agentes-v2/2025-10-20/entrelazador_dominios.py:283-321 | with the domains in their declared order, knowledge-before-money is reported as support, while the corrected analysis reports the sequence |
| DomainEntanglement.DependenciasAlcanzables | archive/agentes-v2/2025-10-20/entrelazador_dominios.py:283-321 | with the corrected analysis every declared dependency between two listed domains is reported as a sequence in its own direction under the same conditions |
| DomainEntanglement.AccionSinergia | archive/agentes-v2/2025-10-20/entrelazador_dominios.py:334-368 | no action below intensity 0.6; otherwise the pooled resources of both domains (each resource of either, once), urgency the intensity and impact 1.2 times it |
| DomainEntanglement.AccionConflicto | archive/agentes-v2/2025-10-20/entrelazador_dominios.py:370-393 | no action below intensity 0.4; otherwise urgency the intensity and impact 0.8 times it |
| DomainEntanglement.AccionSecuencia | archive/agentes-v2/2025-10-20/entrelazador_dominios.py:395-412 | always an action that follows the pair's order, with urgency 0.7 times the intensity and impact the intensity |
| DomainEntanglement.AccionesSinergia | archive/agentes-v2/2025-10-20/entrelazador_dominios.py:136-141 | every synergy action has urgency at least 0.6 |
| DomainEntanglement.AccionesConflicto | archive/agentes-v2/2025-10-20/entrelazador_dominios.py:143-148 | every conflict action has urgency at least 0.4 |
| DomainEntanglement.AccionesSecuencia | archive/agentes-v2/2025-10-20/entrelazador_dominios.py:150-155 | one action for every sequence |
| DomainEntanglement.GenerarAccionesCoordinadas | archive/agentes-v2/2025-10-20/entrelazador_dominios.py:127-158 | synergy actions carry urgency at least 0.6 and conflict ones at least 0.4 |
| DomainEntanglement.SecuenciasCompletas | archive/agentes-v2/2025-10-20/entrelazador_dominios.py:127-158 | the coordinated actions hold exactly one action per sequence found |
| NoteParser.EnlaceAlInicio | apps/backend/services/obsidian_parser.py:225 | a link match at the start of the text opens with `[[`, captures a non-empty target free of `]` and `\|`, and ends within the text after it |
| NoteParser.Enlaces | apps/backend/services/obsidian_parser.py:225 | every link found is a valid target |
| NoteParser.EnlaceLeido | apps/backend/services/obsidian_parser.py:225 | a written link `[[target]]` or `[[target\|alias]]` is read back as its target and scanning resumes right after it |
| NoteParser.SinCorcheteSinEnlaces | apps/backend/services/obsidian_parser.py:225 | text without `[` contributes no link |
| NoteParser.EnlacesRoundTrip | apps/backend/services/obsidian_parser.py:225 | a document of bracket-free text and written links yields exactly the written targets, in order |
| NoteParser.ExtraerEnlaces | apps/backend/services/obsidian_parser.py:222-226 | the links without repeats: the same targets as the scanner's, each once |
| NoteParser.Tags | apps/backend/services/obsidian_parser.py:230 | every tag found is a non-empty run of letters, digits, `_` and `-` |
| NoteParser.TagLeido | apps/backend/services/obsidian_parser.py:230 | a written tag followed by a non-tag character or the end of the text is read whole |
| NoteParser.SinAlmohadillaSinTags | apps/backend/services/obsidian_parser.py:230 | text without `#` contributes no tag |
| NoteParser.TagsRoundTrip | apps/backend/services/obsidian_parser.py:230 | a document of hash-free text and written tags yields exactly the written tags, in order |
| NoteParser.ExtraerTags | apps/backend/services/obsidian_parser.py:228-231 | the tags without repeats: the same tags as the scanner's, each once |
| NoteParser.TituloEn | apps/backend/services/obsidian_parser.py:215-217 | a heading's stripped title never starts with whitespace |
| NoteParser.Marcas | apps/backend/services/obsidian_parser.py:215 | marks exactly the positions where the multiline heading pattern matches |
| NoteParser.Titulo | apps/backend/services/obsidian_parser.py:212-220 | the file name when no heading matches; otherwise the stripped title of the first heading |
| NoteParser.TituloDeEncabezado | apps/backend/services/obsidian_parser.py:212-220 | a note opening with `# ` and a one-line title is titled by it, stripped |
| NoteParser.TituloSinEncabezado | apps/backend/services/obsidian_parser.py:212-220 | text without `#` is titled by its file name |
| NoteParser.TituloEnBlanco | apps/backend/services/obsidian_parser.py:212-220 | a heading made only of blanks still matches and gives the empty title, not the file name |
| NoteParser.ParsearNota | apps/backend/services/obsidian_parser.py:165-193 | a parsed note keeps its path and content, takes the title rule, holds exactly the links and tags of its text, and its dimension is the inferred one |
| NoteParser.MapaTitulos | apps/backend/services/obsidian_parser.py:237 | one entry per title |
| NoteParser.MapaTitulosSpec | apps/backend/services/obsidian_parser.py:237 | a title resolves to the path of the last note carrying it |
| NoteParser.MapaTitulosSinNota | apps/backend/services/obsidian_parser.py:237 | a link that is no note's title does not resolve |
| NoteParser.EnlacesReales | apps/backend/services/obsidian_parser.py:239-246 | a note's resolved links are exactly the paths its links resolve to, in order, never more than its links |
| NoteParser.ObtenerGrafo | apps/backend/services/obsidian_parser.py:233-250 | one entry per path, a later note with the same path replacing an earlier |
| NoteParser.GrafoDeRutasDistintas | apps/backend/services/obsidian_parser.py:233-250 | with one note per path the graph has one entry per note, in note order |
| NoteParser.Backlinks | apps/backend/services/obsidian_parser.py:252-260 | exactly the sources whose resolved links include the path, in graph order |
| NoteParser.SinBacklinks | apps/backend/services/obsidian_parser.py:233-260 | with one note per path, a path has no backlinks exactly when no note's resolved links point to it |
| NoteParser.Hubs | apps/backend/services/obsidian_parser.py:262-277 | exactly the notes with at least the minimum of outgoing links plus backlinks, rearranged from the filtered list and most connected first |
| NoteParser.HubsEstables | apps/backend/services/obsidian_parser.py:274-275 | equally connected hubs keep their input order, as the stable sort keeps them |
| NoteParser.Huerfanas | apps/backend/services/obsidian_parser.py:279-290 | exactly the notes with no links either way, as a subsequence of the input (input order), each orphan as often as it occurs |
| NoteParser.HuerfanasSpec | apps/backend/services/obsidian_parser.py:233-290 | with one note per path, an orphan is a note with no links of its own that no resolved link points to |
| NoteParser.EnlazadaNoHuerfana | apps/backend/services/obsidian_parser.py:233-290 | a link to the last note of a title makes both ends non-orphans and the source a backlink of the target |
| NoteParser.Color | apps/backend/services/obsidian_parser.py:108-119 | a named dimension gets its colour and anything else the grey fallback |
| NoteParser.ColoresDistintos | apps/backend/services/obsidian_parser.py:108-119 | every dimension has its own colour and none is grey |
| NoteParser.PuntosTextoCero | apps/backend/services/obsidian_parser.py:346-348 | keywords absent from the text score nothing |
| NoteParser.PuntosTags | apps/backend/services/obsidian_parser.py:350-353 | five points per tag containing some keyword: a multiple of five, zero exactly when no tag contains one |
| NoteParser.Eleccion | apps/backend/services/obsidian_parser.py:357-362 | on a score table, a best score, the first in table order when positive, and `conocimiento` when all are zero |
| NoteParser.AsignarDimension | apps/backend/services/obsidian_parser.py:321-362 | the dimension with the highest score on the lower-cased text and tags, the first among equals, and `conocimiento` when nothing scores |
| NoteParser.PuntosCero | apps/backend/services/obsidian_parser.py:343-355 | a dimension none of whose keywords is mentioned scores nothing |
| NoteParser.SinPalabrasConocimiento | apps/backend/services/obsidian_parser.py:321-362 | text and tags that mention no keyword fall back to `conocimiento` |
| NoteParser.PorTags | apps/backend/services/obsidian_parser.py:54-72 | no answer exactly when no lower-cased tag contains a keyword; otherwise the dimension of a keyword some tag contains |
| NoteParser.DesdeCarpeta | apps/backend/services/obsidian_parser.py:81-96 | `conocimiento` when the path names none of the folders |
| NoteParser.InferirDimension | apps/backend/services/obsidian_parser.py:37-79 | the metadata's dimension when present, otherwise always a dimension name, and `conocimiento` when neither the tags nor the `Finanzas` or `10-Dominios` path apply |
| NoteParser.PorTagsSinAmbiguedad | apps/backend/services/obsidian_parser.py:44-72 | when no tag mixes keywords of two dimensions, the set's iteration order does not change what the tags give |
| NoteParser.InferirSinAmbiguedad | apps/backend/services/obsidian_parser.py:37-79 | under the same condition the inferred dimension does not depend on the iteration order |
| StarUniverse.Distancia | apps/backend/services/universo_processor.py:120-125 | the radius lies in [100, 500]: 500 less 20 per connection down to 100 |
| StarUniverse.DistanciaMonotona | apps/backend/services/universo_processor.py:120-125 | more connections never put a star further from the centre |
| StarUniverse.Altura | apps/backend/services/universo_processor.py:145-166 | an undated note sits at 0, one at most a week old at 200, one older than half a year at -200, and every height is one of the five steps |
| StarUniverse.AlturaMonotona | apps/backend/services/universo_processor.py:145-166 | an older note never sits higher than a newer one |
| StarUniverse.Luminosidad | apps/backend/services/universo_processor.py:168-184 | 0.3 for an empty vault; otherwise between 0.2 and 1.0, 0.2 with no connection and 1.0 from a tenth of the notes' count upwards |
| StarUniverse.LuminosidadMonotona | apps/backend/services/universo_processor.py:168-184 | more connections never make a star dimmer |
| StarUniverse.GenerarEstrellas | apps/backend/services/universo_processor.py:69-106 | one star per note, in order, with the note's path and links, its outgoing links plus backlinks as connections, and radius and brightness in range |
| StarUniverse.MasConectadaMasCerca | apps/backend/services/universo_processor.py:69-106 | of two stars of a vault the better connected is at least as close and at least as bright |
| StarUniverse.Dfs | apps/backend/services/universo_processor.py:202-210 | from an unvisited star, a preorder of newly reached stars that starts with it, has no repeats, avoids the stars visited before and is closed under links; from a visited star nothing |
| StarUniverse.DfsAlcance | apps/backend/services/universo_processor.py:202-210 | every chain of links from the first star through unvisited stars stays in its cluster |
| StarUniverse.CaminoEnCumulo | apps/backend/services/universo_processor.py:202-210 | a chain of links through unvisited stars from a star of a closed cluster stays in it |
| StarUniverse.Alcanza | apps/backend/services/universo_processor.py:206-208 | an unvisited neighbour of a star of a closed cluster is in the cluster |
| StarUniverse.CumulosSpec | apps/backend/services/universo_processor.py:212-221 | every kept cluster is a closed DFS tree of at least two stars headed by a listed star, and no star is in two clusters |
| StarUniverse.EstrellasDe | apps/backend/services/universo_processor.py:227 | exactly the stars whose id is in the cluster, as a subsequence of the star list (star order), each as often as it occurs |
| StarUniverse.EstrellasDePrimera | apps/backend/services/universo_processor.py:227-233 | the cluster's stars start with the first star of the list when it belongs to the cluster, which is the star whose colour the constellation takes |
| StarUniverse.EnlacesEnCumulo | apps/backend/services/universo_processor.py:237-240 | at most one count per link |
| StarUniverse.DensidadEscrita | apps/backend/services/universo_processor.py:236-242 | as written, the density is never negative |
| StarUniverse.DensidadEscritaCero | apps/backend/services/universo_processor.py:236-242 | as written, when no link title is also a path of the cluster, the density is zero |
| StarUniverse.DensidadEscritaContraejemplo | apps/backend/services/universo_processor.py:236-242 | two notes linked to each other by title have written density 0, where the intended density of the pair is 1 |
| StarUniverse.InternosDe | apps/backend/services/universo_processor.py:237-240 | a star's links inside the cluster: its resolved neighbours in the cluster other than itself |
| StarUniverse.Densidad | apps/backend/services/universo_processor.py:236-242 | the intended density over resolved links is never negative |
| StarUniverse.InternosAcotados | apps/backend/services/universo_processor.py:241 | a star has at most n - 1 links inside a cluster of n distinct stars |
| StarUniverse.DensidadAcotada | apps/backend/services/universo_processor.py:236-242 | with links that do not repeat, the intended density is a proportion in [0, 1] |
| StarUniverse.ParCompleto | apps/backend/services/universo_processor.py:236-242 | two distinct stars linked to each other form a cluster of intended density 1 |
| StarUniverse.DimensionPrincipal | apps/backend/services/universo_processor.py:229-231 | a most frequent dimension among the cluster's stars |
| StarUniverse.ColorEscrito | apps/backend/services/universo_processor.py:233-234 | as written, the colour of the cluster's first star in star order, grey with no star |
| StarUniverse.ColorConstelacion | apps/backend/services/universo_processor.py:233-234 | the colour of the main dimension, as the comment promises, grey with no star |
| StarUniverse.ColorContraejemplo | apps/backend/services/universo_processor.py:229-234 | a cluster whose first star is the only finance note among biology notes is red as written and orange as intended |
| StarUniverse.IdentificarConstelaciones | apps/backend/services/universo_processor.py:186-262 | as written: the constellations of the kept clusters, rearranged, most important first |
| StarUniverse.ConstelacionesEstables | apps/backend/services/universo_processor.py:259-260 | as written: constellations of equal importance keep their discovery order, as the stable in-place sort keeps them |
| StarUniverse.ConstelacionesSpec | apps/backend/services/universo_processor.py:186-262 | as written, one constellation per kept cluster, clusters disjoint, each of at least two stars headed by a listed star, coloured by its first star and weighted by size times the density over link titles |
| StarUniverse.ConstelacionesSinPeso | apps/backend/services/universo_processor.py:236-256 | as written, when no link is letter for letter a path, which is how links written by title look, every constellation has density and importance zero however tightly its stars link |
| StarUniverse.ConstelacionesSinPesoEnOrden | apps/backend/services/universo_processor.py:236-260 | as written, when no link is letter for letter a path, the sort changes nothing: the constellations come out in the order their clusters were discovered |
| StarUniverse.IdentificarConstelacionesCorregida | apps/backend/services/universo_processor.py:186-262 | the corrected constellations, rearranged, most important first |
| StarUniverse.ConstelacionesCorregidaEstables | apps/backend/services/universo_processor.py:259-260 | the corrected constellations of equal importance keep their discovery order |
| StarUniverse.ConstelacionesCorregidasSpec | apps/backend/services/universo_processor.py:212-262 | one corrected constellation per kept cluster, clusters disjoint, each of at least two stars headed by a listed star |
| StarUniverse.ConstelacionesCorregidasPeso | apps/backend/services/universo_processor.py:226-256 | each corrected constellation takes the colour of its main dimension and weighs its size times the density over resolved links |
| Orchestrator.LeerEntero | apps/backend/agentes/orquestador.py:675 | `int` of a stripped text succeeds exactly on a non-empty run of decimal digits |
| Orchestrator.ParsearDuracion | apps/backend/agentes/orquestador.py:667-677 | a text with neither `h` nor `min` is the one-hour default, and only a text with a unit can raise the `ValueError`; MinutosRoundTrip, HorasRoundTrip and HorasConDecimal read its written forms back |
| Orchestrator.MinutosRoundTrip | apps/backend/agentes/orquestador.py:662-675 | a duration the reducer writes as `f"{n}min"` is read back as the same minutes |
| Orchestrator.LeidoComoMinutos | apps/backend/agentes/orquestador.py:667-675 | a normalised text with `min` and no `h` is read as the integer left once the unit is deleted |
| Orchestrator.HorasRoundTrip | apps/backend/agentes/orquestador.py:667-673 | `"<n>h"` is read as 60 n minutes |
| Orchestrator.HorasDecimales | apps/backend/agentes/orquestador.py:667-673 | one decimal of an hour, as in `1.5h`, is six minutes |
| Orchestrator.LeidoComoHoras | apps/backend/agentes/orquestador.py:667-673 | a normalised text containing `h` is read as hours from what is left once both units are deleted |
| Orchestrator.HorasEnteras | apps/backend/agentes/orquestador.py:672-673 | whole hours are sixty minutes each |
| Orchestrator.HorasConDecimal | apps/backend/agentes/orquestador.py:672-673 | a number `n.d` of hours is 60 n + 6 d minutes |
| Orchestrator.SinUnidadEsUnaHora | apps/backend/agentes/orquestador.py:676-677 | a bare number with no unit is taken as one hour, whatever it says |
| Orchestrator.Particion | apps/backend/agentes/orquestador.py:642-643 | two complementary comprehensions concatenated: a permutation of the blocks with exactly the passing ones in front |
| Orchestrator.PartesOrdenadas | apps/backend/agentes/orquestador.py:375-381 | the passing blocks then the rest hold every block once, the passing ones exactly in front |
| Orchestrator.FiltrosPermutan | apps/backend/agentes/orquestador.py:642-643 | the two comprehensions together hold every block once |
| Orchestrator.ParticionIdempotente | apps/backend/agentes/orquestador.py:375-381 | partitioning an already partitioned plan changes nothing |
| Orchestrator.RefinarPlan | apps/backend/agentes/orquestador.py:366-382 | the refined plan is a permutation of the blocks with every anchor before every flexible block |
| Orchestrator.AjustarBloquesTarde | apps/backend/agentes/orquestador.py:384-397 | the adjusted plan is a permutation of the blocks with every block before `"14:00"` in string order ahead of every later one |
| Orchestrator.Hora | apps/backend/agentes/orquestador.py:434 | `strftime("%H:%M")` writes five characters with the colon in the middle |
| Orchestrator.HoraOrdenada | apps/backend/agentes/orquestador.py:391-392 | on times written `HH:MM` the string order is the order of the day |
| Orchestrator.MananaAntesDeLas14 | apps/backend/agentes/orquestador.py:391-392 | a block goes to the morning part exactly when it starts before minute 840 |
| Orchestrator.Todos | apps/backend/agentes/orquestador.py:646-649 | all the durations when every one parses, and the `ValueError` exactly when one does not |
| Orchestrator.DivTruncSpec | apps/backend/agentes/orquestador.py:660 | `int()` of a quotient truncates toward zero: the sign of the dividend, within one divisor of it |
| Orchestrator.NuevasDuraciones | apps/backend/agentes/orquestador.py:658-661 | one new duration per flexible block |
| Orchestrator.SumaTruncada | apps/backend/agentes/orquestador.py:654-661 | the truncated shares together never exceed the exact share of the budget |
| Orchestrator.Reescritos | apps/backend/agentes/orquestador.py:658-663 | each flexible block with its duration rewritten as `f"{n}min"`, nothing else changed |
| Orchestrator.Recorte | apps/backend/agentes/orquestador.py:654-665 | the reduced plan has as many blocks as the two parts together |
| Orchestrator.ReducirEscrito | apps/backend/agentes/orquestador.py:631-665 | as written, the `ValueError` is raised exactly when some block's duration is unreadable; ReducirEscritoSpec states the other outcomes |
| Orchestrator.ReducirEscritoSpec | apps/backend/agentes/orquestador.py:631-665 | as written: an unreadable duration is the `ValueError`; a plan with no flexible time whose anchors exceed the budget divides by zero, and nothing else fails; a plan within the budget, negative or not, comes back as it was; a reduced plan keeps its length and its anchors exactly, and when the anchors fit the flexible minutes fit what is left |
| Orchestrator.EscritoCasos | apps/backend/agentes/orquestador.py:642-665 | the same outcomes once both comprehensions have parsed |
| Orchestrator.RecortarCasos | apps/backend/agentes/orquestador.py:651-665 | the three outcomes of the reduction, over the split plan |
| Orchestrator.RecortarFuera | apps/backend/agentes/orquestador.py:654-665 | past the budget with some flexible time, the flexible blocks are scaled, the anchors kept, and with a non-negative budget the flexible minutes fit in it |
| Orchestrator.AncladosIntactos | apps/backend/agentes/orquestador.py:642-665 | scaling the flexible blocks by any factor leaves the anchors as they were |
| Orchestrator.ReducirEscritoSinFlexibles | apps/backend/agentes/orquestador.py:646-655 | anchors alone over the budget with no flexible block divide by zero as written, while the clamped reducer returns the plan |
| Orchestrator.QuinceHorasExceden | apps/backend/agentes/orquestador.py:647-673 | a single anchored `15h` block is 900 minutes, over the 864-minute budget |
| Orchestrator.ReducirEscritoNegativo | apps/backend/agentes/orquestador.py:647-663 | anchors over the budget give a single flexible block the negative overrun as its duration, as written |
| Orchestrator.EscritoUnFlexible | apps/backend/agentes/orquestador.py:642-665 | anchors and one flexible block that does not fit: the block is scaled to what is left |
| Orchestrator.Presupuesto | apps/backend/agentes/orquestador.py:570 | the flexible budget clamped as the generator clamps it: the day's 864 minutes less the anchored time, never below zero |
| Orchestrator.Reducir | apps/backend/agentes/orquestador.py:570-665 | the clamped reducer fails exactly when some duration is unreadable, and then with the `ValueError` |
| Orchestrator.ReducirSpec | apps/backend/agentes/orquestador.py:631-665 | with every duration readable the clamped reducer succeeds, keeps the length and the anchors exactly, fits the flexible minutes in the budget and returns a plan already within it unchanged |
| Orchestrator.ReducirDentro | apps/backend/agentes/orquestador.py:651-652 | a plan within the clamped budget comes back as it was |
| Orchestrator.ReducirFuera | apps/backend/agentes/orquestador.py:654-665 | a plan past the clamped budget keeps its anchors and has its flexible blocks scaled into it |
| Orchestrator.ReducirSinTiempo | apps/backend/agentes/orquestador.py:570-663 | with the budget clamped at zero the flexible block gets no time |
| Orchestrator.EscritoCoincide | apps/backend/agentes/orquestador.py:570-647 | when the anchors fit in the day's budget the clamp never binds and both reducers agree on every plan |
| Orchestrator.HorasNoNegociables | apps/backend/agentes/orquestador.py:530-546 | movement at 07:00, the nutritious meal at 13:00, deep reading at 21:30, anything else at noon |
| Orchestrator.NoNegociableAntesDeLas14 | apps/backend/agentes/orquestador.py:530-546 | only the evening reading lands in the afternoon part |

## Left out

- gestor_octavas.py `analizar_armonicos` (255-310) and `visualizar_espiral_octavas` (469 on): they only assemble recommendation and display texts; the coherence they report is `Octave.CoherenciaArmonica`.
- diseno_humano.py `cargar_diseno_desde_config` (218-260): reads a JSON file; file access is outside the model.
- contexto_social.py `cargar_contexto_social_desde_config` (289 on): reads a configuration file.
- tipologia_cognitiva.py `cargar_perfil_cognitivo_desde_config` (420 on): reads a configuration file.
- Cognition: the descriptive texts of the profiles (strengths, challenges, motivation, fear, passion, virtue, synthesis) are not modelled beyond the reminder prefix.
- guardian.py `generar_reporte_diario`, `_recopilar_datos_dia`, `_generar_contenido_reporte`, `detectar_patrones` (36-299): database queries and a language-model call; only the day's counts they produce enter the model.
- obsidian_structure.py `initialize_vault_structure`, `_create_system_files`, the `_generate_*_content` texts and `_create_moc_files` (28-655): create folders and write fixed Markdown files; only the path layout is modelled.
- VaultPaths.Anio: pads every year to four digits; the platform `strftime("%Y")` may leave years below 1000 unpadded, and the date is assumed to lie in 1..9999.
- VaultPaths.RutaEstadoCeroInjective: a path is the sequence of its components, without the normalisation `pathlib` applies when it joins them. A moment containing `/` adds components in `pathlib`, and `x//y` and `x/y` give the same `Path`. The injectivity therefore carries over to real paths only for moments without `/`; the liturgical moments have none.
- SimpleSession.Responder: the answer is a boolean, which stands for the JSON value's truthiness. The source stores and echoes the raw value (`respuesta_registrada`), and the model does not keep it. The question id is an integer, so a string id (which the source answers with a 404, as it matches no question) is not representable.
- RateLimiter.CheckRateLimit: on the failing `min([])` path the source has already stored the empty window under the identifier (and created the key) before raising. The model returns the error with the table unchanged. The path needs a limit of zero or less, and RateLimiter.LimitesConfiguradosNoFallan shows that no configured limit reaches it.
- calendario_hijri.py Gregorian-to-Hijri conversion (434, 473, 575, 600): an external library; the Hijri month number enters as an input in 1..12.
- calendario_hijri.py `obtener_contexto_temporal_completo`, `obtener_vista_mensual`, `obtener_vista_anual` (453-620): dictionaries that copy the month and day records' texts; only the month lookup, the guide's dimensions and sacred flag, and the yearly sacred-month list are modelled.
- tiempos_liturgicos.py astronomical times, time zones and the clock (22-58, 141, 194, 243): an external library and the clock; the day's clock times and now enter as inputs in whole minutes, seconds are dropped.
- tiempos_liturgicos.py `ventana_estado_cero` (85): the 30-minute recommended window is never read by the decisions modelled.
- tiempos_liturgicos.py `obtener_tiempos_formato_legible` (265 on): display formatting only.
- Orchestrator.ParsearDuracion: reads the hours as an exact decimal. Python's `float("4.1") * 60` is 245.99999999999997, so `int()` gives 245 where the model gives 246. The model also accepts only plain digits with at most one point. Python's `float` and `int` also take signs, exponents and underscores (`-1h`, `+5min`, `1e2h`, `1_0min`); the model reads these as unreadable (`ValorInvalido`).
- Orchestrator.NuevasDuraciones: computes `int(d * (maximo / actual))` exactly, as `(d * maximo) / actual` truncated toward zero. The float factor can round below the exact one. With 504 minutes left, 720 flexible minutes and a 90-minute block, Python gives 62 and the model 63. The same holds for Orchestrator.ReducirEscrito and Orchestrator.Reducir, which use it.
- ContextSummary.DetectarPatronEnergia: compares exact reals with 0.2 and 0.4. For the scores 0.6, 0.8, 0.8, Python's difference 0.20000000000000007 exceeds 0.2 and gives `ascendente`, where the model gives `estable`.
- PatternAnalysis.DetectarConflictos: compares the exact gap with 0.6. Python's `abs(0.8 - 0.2)` is 0.6000000000000001, so it reports a conflict that the model does not.
- ActionDocumenter.CalcularPrioridad: buckets the exact mean of urgency and impact. Python's `(0.1 + 0.7) / 2` is 0.39999999999999997, which falls in priority 4; the model gives 3.
- ActionDocumenter.PriorizarAcciones: returns new action records with their priorities set. The source assigns `accion.prioridad` on the objects the caller holds; that aliasing is not modelled.
- Orchestrator.Reescritos: returns new blocks with their durations rewritten. The source assigns `bloque.duracion` on the blocks of the caller's list; that aliasing is not modelled.
- Orchestrator.Reducir: clamps the flexible budget at zero, as the block generator does at orquestador.py:570. The reducer itself (orquestador.py:646) does not clamp. Orchestrator.ReducirEscrito is the reducer as written, and Orchestrator.EscritoCoincide proves that the two agree whenever the anchors fit in the 864-minute budget.
- Text.Lower: folds ASCII letters only. Python's `str.lower()` also folds accented capitals (`ESPÍRITU`, `MIÉRCOLES`, `FÍSICO`). Every keyword test over capitalised accented text can differ. This affects PatternAnalysis.Menciona, WeeklyPlanner.NombradoEn (and so WeeklyPlanner.DeportesDia, WeeklyPlanner.ComidaDe, WeeklyPlanner.ConflictosDia), BodyMinistry.AltaEnergia and BodyMinistry.Calma (and so BodyMinistry.ResponderADecreto), MeaningMinistry.ResponderADecreto, Cognition.Menciona (and so Cognition.GenerarContextoMental), NoteParser.AsignarDimension and NoteParser.PorTags.
- Text.Strip: strips ASCII whitespace only. Python's `str.strip()` also removes Unicode spaces.
- NoteParser.ExtraerEnlaces: keeps the first occurrence of each link, in text order. `list(set(...))` returns them in an order Python does not fix. The contract therefore states only which links appear and that none repeats. The same holds for NoteParser.ExtraerTags, and for the pooled resources of DomainEntanglement.AccionSinergia.
- NoteParser.InferirDimension: takes the iteration order of the tag keyword set as a parameter `orden`, any sequence that lists exactly the keywords, because Python's set order is not fixed. NoteParser.InferirSinAmbiguedad proves that the order does not matter unless a tag mixes keywords of two dimensions.
- StarUniverse.DimensionPrincipal, DomainEntanglement.AnalizarDominio and PatternAnalysis.AnalizarPatronEnergia: `max(set(xs), key=xs.count)` breaks ties in set order. The model picks the first in list order, and the contracts state only that the choice is a most frequent value.
- StarUniverse.Luminosidad: the brightness before `round(…, 2)`. The rounding, like the `round(densidad, 2)` of constellations, is display precision.
- StarUniverse.IdentificarConstelaciones: a constellation keeps its stars, colour, density and importance. Its id, display name and centre of mass (`_calcular_centro_masa`) are left out. So are the angle and cartesian position of stars, and `_crear_grafo_conocimiento` and `generar_estadisticas`.
- ContextSummary.EstimarTokens: each key answer and summary value enters as the text `str()` prints for it. Python's rendering of records, dicts and numbers is not modelled.
- estado_biologico.py `generar_sintesis` (171-217): a descriptive sentence; the score it quotes is Vitality.Score.
- estado_emocional.py `guardar_estado` and the JSON history file (148-194): file I/O. `detectar_patron_diario` (256-297) is left out: it needs `Counter.most_common` tie order and a timestamp per record.
- orquestador_7_capas.py layers 4 to 7 (171-328), the dictionary assembly of `recopilar_todo` beyond the active-layer list (329-362), `generar_sintesis_narrativa` (374-422) and `obtener_contexto_7_capas` (469): profile files, the cosmic calculator and narrative text.
- motor_prisma.py `configurar_*`, the `_generar_prompt_*` texts, `_determinar_duracion_flujo`, the documenter and guardian settings (575-735) and `exportar`/`guardar` (737 on): dictionary assembly, prompts and files.
- entrelazador.py `generar_estructura_dia` (52-120), `generar_dashboard_semanal` (122-180), `_generar_recomendacion_dia` (440-471) and the weekly aggregates (478-623): they assemble dashboards and texts from the modelled days.
- WeeklyPlanner.AlertasFinancieras: lists the names of the over-spent categories. The percentage in the source's alert text is formatting.
- analizador_patrones.py loading, parsing and reports (62-145, 322 on): file I/O and Markdown.
- documentador_mejorado.py `generar_acciones_sistemicas`, the conversions and harmony checks (70-224, 439 on), reports (245-350), metrics (388-395) and reminders (418-423): they assemble texts and records around the modelled rules.
- entrelazador_dominios.py state loading and reports (160-207, 415 on): file I/O and Markdown.
- estado_cero_ultra_simple.py session start, free text, Markdown archive and local storage (39-168, 215-244, 361 on): clock, files and the question generator.
- cuerpo/__init__.py `estado_actual` (53-71): reads the clock; the phase it reports is BodyMinistry.FaseDe.
- significado/__init__.py `estado_actual` (282-312), `_generar_preguntas_reflexion` (746-776) and `_generar_recomendacion_significado` (778-804): fixed dictionaries and texts.
- obsidian_parser.py `listar_notas` (146-163), `_extraer_frontmatter` (199-210), `_extraer_fecha_filepath` (98-106), `to_dict` (121-136) and `obtener_estadisticas` (292-319): directory walking, YAML parsing, file dates and dictionary assembly. The frontmatter's `dimension` entry enters NoteParser.ParsearNota as an optional input.
- ministerios `nombre_divino` and `pregunta_existencial` (ministerios/__init__.py:42-52 and each ministry): fixed display names and questions.

## Findings

| source | as written | input that shows it | evidently intended | confidence | as-written member | corrected member |
|---|---|---|---|---|---|---|
| apps/backend/services/gestor_octavas.py:153-154 | the weekday from `weekday()` (Monday 0) indexes a day list that starts on Sunday | any Monday: it is reported as `domingo`, with note DO and Sunday's shock check | index a Monday-first list, as the same file does at 381 and 405 | high; not executed | OctaveGoals.AsWrittenIsOneDayBehind | OctaveGoals.DiaDeFecha |
| apps/backend/services/universo_processor.py:236-242 | internal links are counted by testing whether a link *title* is among the cluster's *file paths* | two notes that link to each other by title form one cluster, and its density is 0 | count the graph edges inside the cluster, giving density 1 for that pair | high; not executed | StarUniverse.DensidadEscritaContraejemplo | StarUniverse.IdentificarConstelacionesCorregida |
| apps/backend/services/universo_processor.py:233 | the constellation colour is the colour of the cluster's first star | a cluster of one finance note, visited first, and two biology notes is coloured red, though its main dimension is biology | use the colour of the main dimension computed on the line before | medium; not executed | StarUniverse.ColorContraejemplo | StarUniverse.ColorConstelacion |
| apps/backend/agentes/orquestador.py:646-655 | the flexible budget `int(24*60*0.6) - tiempo_anclado` (864 minutes less the anchored time) is not clamped, and the reduction divides by the flexible total without a zero check | a single anchored 15-hour block (900 minutes, over 864) with no flexible block divides by zero; anchors that exceed 864 minutes shrink the flexible blocks to negative durations | clamp the budget at zero, as the block generator does at line 570, and leave a day without flexible blocks alone | medium; not executed | Orchestrator.ReducirEscritoSinFlexibles | Orchestrator.ReducirSpec |
| apps/backend/services/tiempos_liturgicos.py:121-124 | the isha window ends at `midnight` parsed on the same date, so it ends before it starts | with times fajr 406, sunrise 499, dhuhr 842, asr 1033, maghrib 1183, isha 1269 and midnight 85 (minutes), the time 22:00 (1320) lies in no window | let the isha window run past midnight into the next day | high; not executed | PrayerWindows.IshaEscritaContraejemplo | PrayerWindows.IshaCubreLaNoche |
| archive/agentes-v2/2025-10-20/entrelazador_dominios.py:287 | each pair of domains is analysed once, in list order, and the sequence test looks only for the second domain among the first one's dependencies (312-321) | financiero before conocimiento in the list, both in equilibrium with urgency 0.5: the dependency conocimiento → financiero is never asked for, and the pair is classed `apoyo` | also test the reverse direction and report the sequence in its own direction | medium; not executed | DomainEntanglement.SecuenciaEscritaPerdida | DomainEntanglement.DependenciasAlcanzables |

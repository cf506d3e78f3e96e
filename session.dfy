/**
 * The session flow of the wellness app (app.py). Streamlit keeps one
 * dictionary per browser session; every button or form submission runs the
 * script again and mutates that dictionary. The model keeps the dictionary
 * as a map inside a `Session` object and turns each UI event into a method:
 *
 *   initial_assessment -> exercise_selection -> exercise_setup -> chat
 *
 * Rendering is not modelled; each event method is callable exactly in the
 * step whose page shows the button or form that raises it.
 */
module SessionFlow {
  import opened Wrappers
  import opened Text
  import opened Persona
  import opened Wellness

  /** The keys of the session dictionary; `WidgetKey` stands for any other entry (keyed widgets). */
  datatype Key =
    | ChatSystemKey | MessagesKey | StepKey | MoodRatingKey | BodySensationsKey
    | AttentionFocusKey | SelectedExerciseKey | ExerciseContextKey | PersonaNameKey
    | WidgetKey(name: string)

  /** The values the session dictionary holds. */
  datatype Value =
    | NoneValue
    | IntValue(number: int)
    | TextValue(text: string)
    | TextListValue(items: seq<string>)
    | MessagesValue(turns: seq<Turn>)
    | DictValue(entries: map<string, string>)
    | StepValue(step: Step)
    | ExerciseValue(exercise: Exercise)
    | ChatValue(backend: PersonaChat)

  /** The four values the app stores under "step". */
  datatype Step = InitialAssessment | ExerciseSelection | ExerciseSetup | ChatStep

  /** The string the app stores for each step. */
  function StepName(s: Step): string {
    match s
    case InitialAssessment => "initial_assessment"
    case ExerciseSelection => "exercise_selection"
    case ExerciseSetup => "exercise_setup"
    case ChatStep => "chat"
  }

  /** The step strings tell the steps apart, so the enumeration loses nothing. */
  lemma StepNameInjective(a: Step, b: Step)
    requires StepName(a) == StepName(b)
    ensures a == b
  {
  }

  datatype Exercise = EmptyChair | Breathing | BodyScan

  /** The key the app stores for each exercise. */
  function ExerciseKey(e: Exercise): string {
    match e
    case EmptyChair => "empty_chair"
    case Breathing => "breathing"
    case BodyScan => "body_scan"
  }

  /** The exercise keys tell the exercises apart. */
  lemma ExerciseKeyInjective(a: Exercise, b: Exercise)
    requires ExerciseKey(a) == ExerciseKey(b)
    ensures a == b
  {
  }

  /** The display names the three setup helpers give their personas. */
  const BreathingGuide: string := "Breathing Guide"
  const BodyScanGuide: string := "Body Scan Guide"

  /** The defaults `init_session_state` inserts. */
  const Defaults: map<Key, Value> := map[
    ChatSystemKey := NoneValue,
    MessagesKey := MessagesValue([]),
    StepKey := StepValue(InitialAssessment),
    MoodRatingKey := IntValue(3),
    BodySensationsKey := TextListValue([]),
    AttentionFocusKey := NoneValue,
    SelectedExerciseKey := NoneValue,
    ExerciseContextKey := DictValue(map[]),
    PersonaNameKey := TextValue("")
  ]

  /**
   * The dictionary after `init_session_state`: every default key is present,
   * a missing one with its default, and every entry already there is kept.
   */
  function WithDefaults(store: map<Key, Value>): (r: map<Key, Value>)
    ensures r.Keys == store.Keys + Defaults.Keys
    ensures forall k :: k in store ==> r[k] == store[k]
    ensures forall k :: k in Defaults && k !in store ==> r[k] == Defaults[k]
  {
    map k | k in store.Keys + Defaults.Keys :: if k in store then store[k] else Defaults[k]
  }

  /** A second `init_session_state` changes nothing. */
  lemma WithDefaultsIdempotent(store: map<Key, Value>)
    ensures WithDefaults(WithDefaults(store)) == WithDefaults(store)
  {
  }

  /** On a dictionary that already holds every default key, `init_session_state` is a no-op. */
  lemma WithDefaultsKeepsFullStore(store: map<Key, Value>)
    requires Defaults.Keys <= store.Keys
    ensures WithDefaults(store) == store
  {
  }

  /** Starting from an empty dictionary, `init_session_state` gives exactly the defaults. */
  lemma WithDefaultsOfEmpty()
    ensures WithDefaults(map[]) == Defaults
  {
  }

  /** Every expected key is present with a value of the shape the app puts there. */
  ghost predicate WellTyped(store: map<Key, Value>) {
    && ChatSystemKey in store && (store[ChatSystemKey].NoneValue? || store[ChatSystemKey].ChatValue?)
    && MessagesKey in store && store[MessagesKey].MessagesValue?
    && StepKey in store && store[StepKey].StepValue?
    && MoodRatingKey in store && store[MoodRatingKey].IntValue?
    && BodySensationsKey in store && store[BodySensationsKey].TextListValue?
    && AttentionFocusKey in store && (store[AttentionFocusKey].NoneValue? || store[AttentionFocusKey].TextValue?)
    && SelectedExerciseKey in store
    && (store[SelectedExerciseKey].NoneValue? || store[SelectedExerciseKey].ExerciseValue?)
    && ExerciseContextKey in store && store[ExerciseContextKey].DictValue?
    && PersonaNameKey in store && store[PersonaNameKey].TextValue?
  }

  /** The outcome of the check-in form: advance, or the first warning that applies. */
  datatype AssessmentOutcome = Advanced | MissingSensations | MissingAttention

  /** The outcome of a setup form: a field left empty, a setup that failed, or the chat started. */
  datatype SetupOutcome = MissingFields | SetupFailed | Started

  class Session {
    var store: map<Key, Value>

    /** The `PersonaChat` in the dictionary, if any. */
    function Backend(): PersonaChat?
      reads this
    {
      if ChatSystemKey in store && store[ChatSystemKey].ChatValue? then store[ChatSystemKey].backend else null
    }

    function BackendFrame(): set<object>
      reads this
    {
      var b := Backend();
      if b == null then {} else {b}
    }

    function CurrentStep(): Step
      reads this
      requires WellTyped(store)
    {
      store[StepKey].step
    }

    function Messages(): seq<Turn>
      reads this
      requires WellTyped(store)
    {
      store[MessagesKey].turns
    }

    function PersonaName(): string
      reads this
      requires WellTyped(store)
    {
      store[PersonaNameKey].text
    }

    /** The check-in answers as the setup helpers read them. */
    function CurrentAssessment(): Assessment
      reads this
      requires WellTyped(store)
    {
      var attention := store[AttentionFocusKey];
      Assessment(store[MoodRatingKey].number, store[BodySensationsKey].items,
                 if attention.TextValue? then Some(attention.text) else None)
    }

    /** The check-in was accepted: at least one sensation and a non-empty attention. */
    ghost predicate AssessmentComplete()
      reads this
      requires WellTyped(store)
    {
      store[BodySensationsKey].items != [] && store[AttentionFocusKey].TextValue?
      && store[AttentionFocusKey].text != ""
    }

    /**
     * In the chat step the back end holds a persona with the same name as
     * the session, and the visible messages are the tail of the back end's
     * transcript, preceded by the system turn and at most the seed prompt.
     */
    ghost predicate ChatReady()
      reads this, BackendFrame()
      requires WellTyped(store)
    {
      var b := Backend();
      && b != null
      && b.systemPrompt != ""
      && b.personaName == PersonaName()
      && |Messages()| + 1 <= |b.history| <= |Messages()| + 2
      && b.history[|b.history| - |Messages()|..] == Messages()
    }

    ghost predicate Valid()
      reads this, BackendFrame()
    {
      && WellTyped(store)
      && (Backend() != null ==> Backend().Valid())
      && (CurrentStep() != InitialAssessment ==> AssessmentComplete())
      && (CurrentStep() == ExerciseSetup || CurrentStep() == ChatStep ==> store[SelectedExerciseKey].ExerciseValue?)
      && (CurrentStep() == ChatStep ==> ChatReady())
    }

    /** A new browser session: the empty dictionary filled by `init_session_state`. */
    constructor ()
      ensures Valid()
      ensures store == Defaults
    {
      store := map[];
      new;
      InitSessionState();
      WithDefaultsOfEmpty();
    }

    /** Inserts each default whose key is missing; existing entries are never overwritten. */
    method InitSessionState()
      modifies this
      ensures store == WithDefaults(old(store))
    {
      var pending := Defaults.Keys;
      while pending != {}
        invariant pending <= Defaults.Keys
        invariant store.Keys == old(store).Keys + (Defaults.Keys - pending)
        invariant forall k :: k in store ==> store[k] == if k in old(store) then old(store)[k] else Defaults[k]
        decreases pending
      {
        var key :| key in pending;
        if key !in store {
          store := store[key := Defaults[key]];
        }
        pending := pending - {key};
      }
    }

    /** "Start Over": deletes every key, then re-inserts all defaults. */
    method ResetAll()
      modifies this
      ensures Valid()
      ensures store == Defaults
    {
      var keys := store.Keys;
      while keys != {}
        invariant store.Keys == keys
        decreases keys
      {
        var key :| key in keys;
        store := store - {key};
        keys := keys - {key};
      }
      assert store == map[];
      InitSessionState();
      WithDefaultsOfEmpty();
    }

    /**
     * The check-in form's "Continue": without a sensation or without an
     * attention choice it warns and changes nothing; otherwise it stores the
     * three answers and moves to exercise selection.
     */
    method SubmitAssessment(mood: int, sensations: seq<string>, attention: Option<string>)
      returns (outcome: AssessmentOutcome)
      requires Valid() && CurrentStep() == InitialAssessment
      modifies this
      ensures Valid()
      ensures sensations == [] ==> outcome == MissingSensations
      ensures sensations != [] && (attention == None || attention == Some("")) ==> outcome == MissingAttention
      ensures outcome == Advanced <==> sensations != [] && attention.Some? && attention.value != ""
      ensures outcome != Advanced ==> store == old(store)
      ensures outcome == Advanced ==>
        store == old(store)[MoodRatingKey := IntValue(mood)][BodySensationsKey := TextListValue(sensations)]
                           [AttentionFocusKey := TextValue(attention.value)][StepKey := StepValue(ExerciseSelection)]
    {
      if sensations == [] {
        outcome := MissingSensations;
      } else if attention.None? || attention.value == "" {
        outcome := MissingAttention;
      } else {
        store := store[MoodRatingKey := IntValue(mood)];
        store := store[BodySensationsKey := TextListValue(sensations)];
        store := store[AttentionFocusKey := TextValue(attention.value)];
        store := store[StepKey := StepValue(ExerciseSelection)];
        outcome := Advanced;
      }
    }

    /** One of the three "Choose ..." buttons: records the exercise and opens its setup. */
    method ChooseExercise(e: Exercise)
      requires Valid() && CurrentStep() == ExerciseSelection
      modifies this
      ensures Valid()
      ensures store == old(store)[SelectedExerciseKey := ExerciseValue(e)][StepKey := StepValue(ExerciseSetup)]
    {
      store := store[SelectedExerciseKey := ExerciseValue(e)];
      store := store[StepKey := StepValue(ExerciseSetup)];
    }

    /** "Back to Check-in" on the selection page; the stored answers stay. */
    method BackToCheckIn()
      requires Valid() && CurrentStep() == ExerciseSelection
      modifies this
      ensures Valid()
      ensures store == old(store)[StepKey := StepValue(InitialAssessment)]
    {
      store := store[StepKey := StepValue(InitialAssessment)];
    }

    /** "Back" on any of the three setup pages. */
    method BackToSelection()
      requires Valid() && CurrentStep() == ExerciseSetup
      modifies this
      ensures Valid()
      ensures store == old(store)[StepKey := StepValue(ExerciseSelection)]
    {
      store := store[StepKey := StepValue(ExerciseSelection)];
    }

    /**
     * What each setup helper does once its prompts are built: a `PersonaChat`
     * is created if there is none (which fails without an API client), the
     * persona is set and named in the session, and the seed prompt is sent.
     * Only a reply makes it the single visible message and enters the chat;
     * a failure keeps the step, the back end holding the system turn and the
     * seed prompt.
     */
    twostate predicate SetUpEffect(name: string, description: string, opening: string, clientAvailable: bool,
                                   complete: seq<Turn> -> Completion, ok: bool)
      reads this, BackendFrame()
    {
      if old(Backend()) == null && !clientAvailable then
        !ok && store == old(store)
      else
        var b := Backend();
        && b != null
        && (old(Backend()) != null ==> b == old(Backend()))
        && (old(Backend()) == null ==> fresh(b))
        && b.personaName == name
        && b.systemPrompt == SystemPrompt(name, description)
        && var sent := [Turn(System, b.systemPrompt), Turn(User, opening)];
        && var named := old(store)[ChatSystemKey := ChatValue(b)][PersonaNameKey := TextValue(name)];
        match complete(sent)
        case Reply(text) =>
          && ok
          && b.history == sent + [Turn(Assistant, text)]
          && store == named[MessagesKey := MessagesValue([Turn(Assistant, text)])][StepKey := StepValue(ChatStep)]
        case Failed(_) =>
          && !ok
          && b.history == sent
          && store == named
    }

    /**
     * `if st.session_state.chat_system is None: st.session_state.chat_system = PersonaChat()`:
     * an existing back end is kept; otherwise a new one is stored, which
     * fails (returning null and changing nothing) without an API client.
     */
    method EnsureBackend(clientAvailable: bool) returns (b: PersonaChat?)
      requires Valid() && CurrentStep() == ExerciseSetup
      modifies this
      ensures Valid() && CurrentStep() == ExerciseSetup
      ensures b == Backend()
      ensures old(Backend()) != null ==> b == old(Backend()) && store == old(store)
      ensures old(Backend()) == null && !clientAvailable ==> b == null && store == old(store)
      ensures old(Backend()) == null && clientAvailable ==>
        && b != null && fresh(b) && b.history == [] && b.systemPrompt == "" && b.personaName == ""
        && store == old(store)[ChatSystemKey := ChatValue(b)]
    {
      b := Backend();
      if b == null && clientAvailable {
        b := new PersonaChat();
        store := store[ChatSystemKey := ChatValue(b)];
      }
    }

    /**
     * With a back end in place: the persona is set and named in the session
     * and the seed prompt is sent; a reply becomes the only visible message
     * and enters the chat, a failure keeps the step.
     */
    method SeedPersona(name: string, description: string, opening: string,
                       complete: seq<Turn> -> Completion) returns (ok: bool)
      requires Valid() && CurrentStep() == ExerciseSetup && Backend() != null
      modifies this, Backend()
      ensures Valid() && Backend() == old(Backend())
      ensures CurrentStep() == (if ok then ChatStep else ExerciseSetup)
      ensures Backend().personaName == name && Backend().systemPrompt == SystemPrompt(name, description)
      ensures
        var sent := [Turn(System, SystemPrompt(name, description)), Turn(User, opening)];
        var named := old(store)[PersonaNameKey := TextValue(name)];
        match complete(sent)
        case Reply(text) =>
          && ok
          && Backend().history == sent + [Turn(Assistant, text)]
          && store == named[MessagesKey := MessagesValue([Turn(Assistant, text)])][StepKey := StepValue(ChatStep)]
        case Failed(_) =>
          && !ok
          && Backend().history == sent
          && store == named
    {
      var b := Backend();
      b.SetPersonaEnvironment(name, description);
      store := store[PersonaNameKey := TextValue(name)];
      ghost var sent := [Turn(System, b.systemPrompt), Turn(User, opening)];
      assert b.history + [Turn(User, opening)] == sent;
      var response := b.Chat(opening, complete);
      match response
      case Returned(text) =>
        store := store[MessagesKey := MessagesValue([Turn(Assistant, text)])];
        store := store[StepKey := StepValue(ChatStep)];
        assert b.history[|b.history| - 1..] == Messages();
        ok := true;
      case Raised(reason) =>
        ok := false;
    }

    /** The part the three setup helpers share. */
    method SetUpPersona(name: string, description: string, opening: string, clientAvailable: bool,
                        complete: seq<Turn> -> Completion) returns (ok: bool)
      requires Valid() && CurrentStep() == ExerciseSetup
      modifies this, BackendFrame()
      ensures Valid()
      ensures SetUpEffect(name, description, opening, clientAvailable, complete, ok)
      ensures CurrentStep() == (if ok then ChatStep else ExerciseSetup)
    {
      ghost var before := store;
      var b := EnsureBackend(clientAvailable);
      if b == null {
        return false;
      }
      assert store == before[ChatSystemKey := ChatValue(b)];
      ok := SeedPersona(name, description, opening, complete);
    }

    /** `setup_empty_chair`: the persona is named after `who`. */
    method SetupEmptyChair(who: string, characteristics: string, topic: string, situation: string,
                           clientAvailable: bool, complete: seq<Turn> -> Completion) returns (ok: bool)
      requires Valid() && CurrentStep() == ExerciseSetup
      modifies this, BackendFrame()
      ensures Valid()
      ensures SetUpEffect(who, EmptyChairDescription(who, characteristics, topic, situation, old(CurrentAssessment())),
                          EmptyChairOpening(who, topic, situation), clientAvailable, complete, ok)
      ensures CurrentStep() == (if ok then ChatStep else ExerciseSetup)
    {
      var a := CurrentAssessment();
      ok := SetUpPersona(who, EmptyChairDescription(who, characteristics, topic, situation, a),
                         EmptyChairOpening(who, topic, situation), clientAvailable, complete);
    }

    /** `setup_breathing_exercise`: the persona is the "Breathing Guide". */
    method SetupBreathingExercise(clientAvailable: bool, complete: seq<Turn> -> Completion) returns (ok: bool)
      requires Valid() && CurrentStep() == ExerciseSetup
      modifies this, BackendFrame()
      ensures Valid()
      ensures SetUpEffect(BreathingGuide, BreathingDescription(old(CurrentAssessment())),
                          BreathingOpening(old(CurrentAssessment())), clientAvailable, complete, ok)
      ensures CurrentStep() == (if ok then ChatStep else ExerciseSetup)
    {
      var a := CurrentAssessment();
      ok := SetUpPersona(BreathingGuide, BreathingDescription(a), BreathingOpening(a), clientAvailable, complete);
    }

    /** `setup_body_scan`: the persona is the "Body Scan Guide". */
    method SetupBodyScan(area: string, feeling: string, clientAvailable: bool,
                         complete: seq<Turn> -> Completion) returns (ok: bool)
      requires Valid() && CurrentStep() == ExerciseSetup
      modifies this, BackendFrame()
      ensures Valid()
      ensures SetUpEffect(BodyScanGuide, BodyScanDescription(area, feeling, old(CurrentAssessment())),
                          BodyScanOpening(area, feeling, old(CurrentAssessment())), clientAvailable, complete, ok)
      ensures CurrentStep() == (if ok then ChatStep else ExerciseSetup)
    {
      var a := CurrentAssessment();
      ok := SetUpPersona(BodyScanGuide, BodyScanDescription(area, feeling, a), BodyScanOpening(area, feeling, a),
                         clientAvailable, complete);
    }

    /**
     * "Start Conversation" on the Empty Chair form: all four fields must be
     * non-empty, otherwise nothing changes; then the setup runs.
     */
    method StartEmptyChair(who: string, characteristics: string, topic: string, situation: string,
                           clientAvailable: bool, complete: seq<Turn> -> Completion) returns (outcome: SetupOutcome)
      requires Valid() && CurrentStep() == ExerciseSetup
      requires store[SelectedExerciseKey] == ExerciseValue(EmptyChair)
      modifies this, BackendFrame()
      ensures Valid()
      ensures outcome == MissingFields <==> who == "" || characteristics == "" || topic == "" || situation == ""
      ensures outcome == MissingFields ==> store == old(store) && unchanged(BackendFrame())
      ensures outcome != MissingFields ==>
        SetUpEffect(who, EmptyChairDescription(who, characteristics, topic, situation, old(CurrentAssessment())),
                    EmptyChairOpening(who, topic, situation), clientAvailable, complete, outcome == Started)
      ensures CurrentStep() == (if outcome == Started then ChatStep else ExerciseSetup)
    {
      if who == "" || characteristics == "" || topic == "" || situation == "" {
        return MissingFields;
      }
      var ok := SetupEmptyChair(who, characteristics, topic, situation, clientAvailable, complete);
      outcome := if ok then Started else SetupFailed;
      assert ok == (outcome == Started);
    }

    /** "Begin Body Scan": both answers must be non-empty, otherwise nothing changes. */
    method StartBodyScan(area: string, feeling: string, clientAvailable: bool,
                         complete: seq<Turn> -> Completion) returns (outcome: SetupOutcome)
      requires Valid() && CurrentStep() == ExerciseSetup
      requires store[SelectedExerciseKey] == ExerciseValue(BodyScan)
      modifies this, BackendFrame()
      ensures Valid()
      ensures outcome == MissingFields <==> area == "" || feeling == ""
      ensures outcome == MissingFields ==> store == old(store) && unchanged(BackendFrame())
      ensures outcome != MissingFields ==>
        SetUpEffect(BodyScanGuide, BodyScanDescription(area, feeling, old(CurrentAssessment())),
                    BodyScanOpening(area, feeling, old(CurrentAssessment())), clientAvailable, complete,
                    outcome == Started)
      ensures CurrentStep() == (if outcome == Started then ChatStep else ExerciseSetup)
    {
      if area == "" || feeling == "" {
        return MissingFields;
      }
      var ok := SetupBodyScan(area, feeling, clientAvailable, complete);
      outcome := if ok then Started else SetupFailed;
      assert ok == (outcome == Started);
    }

    /** "Begin Breathing Exercise" on the breathing page: the breathing setup runs, with no fields to check. */
    method StartBreathing(clientAvailable: bool, complete: seq<Turn> -> Completion) returns (outcome: SetupOutcome)
      requires Valid() && CurrentStep() == ExerciseSetup
      requires store[SelectedExerciseKey] == ExerciseValue(Breathing)
      modifies this, BackendFrame()
      ensures Valid()
      ensures outcome != MissingFields
      ensures SetUpEffect(BreathingGuide, BreathingDescription(old(CurrentAssessment())),
                          BreathingOpening(old(CurrentAssessment())), clientAvailable, complete, outcome == Started)
      ensures CurrentStep() == (if outcome == Started then ChatStep else ExerciseSetup)
    {
      var ok := SetupBreathingExercise(clientAvailable, complete);
      outcome := if ok then Started else SetupFailed;
      assert ok == (outcome == Started);
    }

    /**
     * A chat message: an empty input does nothing. Otherwise the user entry
     * is appended to the visible messages before the back end is called, and
     * the reply is appended only if the call returns.
     */
    method SendMessage(prompt: string, complete: seq<Turn> -> Completion)
      requires Valid() && CurrentStep() == ChatStep
      modifies this, BackendFrame()
      ensures Valid() && CurrentStep() == ChatStep
      ensures Backend() == old(Backend())
      ensures prompt == "" ==> store == old(store) && Backend().history == old(Backend().history)
      ensures prompt != "" ==>
        var sent := old(Backend().history) + [Turn(User, prompt)];
        var shown := old(Messages()) + [Turn(User, prompt)];
        match complete(sent)
        case Reply(text) =>
          && Backend().history == sent + [Turn(Assistant, text)]
          && store == old(store)[MessagesKey := MessagesValue(shown + [Turn(Assistant, text)])]
        case Failed(_) =>
          && Backend().history == sent
          && store == old(store)[MessagesKey := MessagesValue(shown)]
    {
      if prompt == "" {
        return;
      }
      var shown := Messages() + [Turn(User, prompt)];
      store := store[MessagesKey := MessagesValue(shown)];
      var b := Backend();
      var response := b.Chat(prompt, complete);
      match response
      case Returned(text) =>
        store := store[MessagesKey := MessagesValue(shown + [Turn(Assistant, text)])];
      case Raised(_) =>
    }

    /** "Clear Chat": the back end goes back to its system turn and the messages are emptied. */
    method ClearChat()
      requires Valid() && CurrentStep() == ChatStep
      modifies this, BackendFrame()
      ensures Valid() && CurrentStep() == ChatStep
      ensures Backend() == old(Backend())
      ensures Backend().systemPrompt == old(Backend().systemPrompt)
      ensures Backend().personaName == old(Backend().personaName)
      ensures Backend().history == [Turn(System, Backend().systemPrompt)]
      ensures store == old(store)[MessagesKey := MessagesValue([])]
    {
      var b := Backend();
      if b != null {
        b.ResetConversation();
      }
      store := store[MessagesKey := MessagesValue([])];
    }

    /** "Change Exercise": back to selection, messages emptied, the back end dropped. */
    method ChangeExercise()
      requires Valid() && CurrentStep() == ChatStep
      modifies this
      ensures Valid()
      ensures store == old(store)[StepKey := StepValue(ExerciseSelection)][MessagesKey := MessagesValue([])]
                                 [ChatSystemKey := NoneValue]
    {
      store := store[StepKey := StepValue(ExerciseSelection)];
      store := store[MessagesKey := MessagesValue([])];
      store := store[ChatSystemKey := NoneValue];
    }
  }

  /**
   * Streamlit runs the module-level `init_session_state()` again before every
   * event; on a valid session that re-run changes nothing.
   */
  lemma InitIsNoOpWhenValid(s: Session)
    requires s.Valid()
    ensures WithDefaults(s.store) == s.store
  {
    assert Defaults.Keys <= s.store.Keys;
    WithDefaultsKeepsFullStore(s.store);
  }

  /** A new session that passes the check-in and chooses an exercise. */
  method CheckInAndChoose(mood: int, sensations: seq<string>, attention: string, e: Exercise)
    returns (s: Session)
    requires sensations != [] && attention != ""
    ensures fresh(s) && s.Valid() && s.CurrentStep() == ExerciseSetup && s.Backend() == null
    ensures s.store == Defaults[MoodRatingKey := IntValue(mood)][BodySensationsKey := TextListValue(sensations)]
                               [AttentionFocusKey := TextValue(attention)][SelectedExerciseKey := ExerciseValue(e)]
                               [StepKey := StepValue(ExerciseSetup)]
  {
    s := new Session();
    var outcome := s.SubmitAssessment(mood, sensations, Some(attention));
    s.ChooseExercise(e);
  }

  /**
   * A whole breathing session: check in, choose breathing, begin. With a
   * completion that always replies, the chat starts with the greeting as the
   * only visible message, while the back end holds the system turn, the
   * seed prompt and the greeting.
   */
  method BreathingWalkthrough(mood: int, sensations: seq<string>, attention: string, greeting: string)
    returns (s: Session)
    requires sensations != [] && attention != ""
    ensures s.Valid() && s.CurrentStep() == ChatStep
    ensures s.Messages() == [Turn(Assistant, greeting)]
    ensures s.Backend() != null && |s.Backend().history| == 3
    ensures s.Backend().history[0]
            == Turn(System, SystemPrompt(BreathingGuide, BreathingDescription(Assessment(mood, sensations, Some(attention)))))
    ensures s.Backend().history[1] == Turn(User, BreathingOpening(Assessment(mood, sensations, Some(attention))))
    ensures s.Backend().history[2] == Turn(Assistant, greeting)
    ensures s.PersonaName() == BreathingGuide
  {
    s := CheckInAndChoose(mood, sensations, attention, Breathing);
    var complete := (_: seq<Turn>) => Reply(greeting);
    var outcome := s.StartBreathing(true, complete);
  }
}

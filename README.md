# Pocket AI wellness session, modelled in Dafny

Pocket AI is a small mental-wellness app with two parts.

- **The persona chat back end** (`script.py`). `PersonaChat` keeps a
  transcript of `{"role", "content"}` turns, a system prompt and a persona
  name. `set_persona_environment` seeds the transcript with one system
  turn. `chat` appends the user turn, sends the whole transcript to a
  completion service and appends the reply. `reset_conversation` cuts the
  transcript back to the system turn, and `change_persona` forgets
  everything. `setup_persona_interactive` strips four answers, fills in
  defaults and builds the persona description.
- **The Streamlit session flow** (`app.py`). One dictionary per browser
  session drives the steps
  `initial_assessment -> exercise_selection -> exercise_setup -> chat`:
  - a check-in form (mood, body sensations, attention);
  - three exercises (Empty Chair, Breathing, Body Scan), each set up by a
    helper that builds a persona description and an opening prompt, seeds
    the persona and shows its reply;
  - a chat page with "Clear Chat", "Change Exercise" and "Start Over".

The project is split into five modules:

| module | models |
|---|---|
| `Wrappers` | `Option`, which stands for Python's `None` |
| `Text` | The Python string built-ins the app uses: `str.isspace`, `str.strip`, `sep.join`, `str(int)` and the substring test `t in s` (as `Embeds`). An f-string is modelled as the `"".join` of its literal pieces and the values interpolated into it. |
| `Persona` | `PersonaChat` as a class with the fields `history`, `systemPrompt` and `personaName`. It also models `create_persona_session` and, with the four `input()` answers as parameters, `setup_persona_interactive`. |
| `Wellness` | The pure parts of `app.py`: the mood phrase, how the check-in answers are rendered, and the persona descriptions and opening prompts of the three exercises. |
| `SessionFlow` | The session dictionary, as a `map<Key, Value>` inside a `Session` object. Each button or form submission is a method, callable in the step whose page shows it. |

The completion service is a parameter `complete: seq<Turn> -> Completion`.
It is applied to the transcript as it stands when the call is made, and it
either replies with a text or fails; a failure is the source's exception.
Whether `PersonaChat()` can be built (it needs an API client) is a boolean
parameter `clientAvailable` of the setup helpers.

`Session.Valid()` is the invariant that every event method preserves:

- every key holds a value of the expected shape;
- the back end, when present, keeps the `PersonaChat` transcript
  invariant;
- past the check-in, at least one sensation and a non-empty attention are
  stored;
- in the setup and chat steps an exercise is selected;
- in the chat step the back end holds a persona with the session's
  persona name, and the visible messages are the tail of the back-end
  transcript, preceded by the system turn and at most the seed prompt.

## Model

| member | source | states |
|---|---|---|
| Text.Strip | script.py:137 | `s.strip()` cuts only the whitespace around the text. The result is the piece of `s` that starts right after the leading whitespace, and everything after it is whitespace. It neither starts nor ends with whitespace, and it is empty exactly when `s` is all whitespace. |
| Text.StripCut | script.py:137 | the piece between the leading and the trailing whitespace has the properties `Strip` promises |
| Text.StripCutBlank | script.py:137-139 | the piece between the leading and the trailing whitespace is empty exactly when the answer is all whitespace, which is when the default applies |
| Text.LeadingSpace | script.py:137 | the count of leading whitespace characters: all of them are whitespace and the next character is not |
| Text.TrailingSpace | script.py:137 | the count of trailing whitespace characters: all of them are whitespace and the character before them is not |
| Text.JoinEmbedsEach | app.py:92 | every part of a `sep.join(parts)` occurs in the joined string |
| Text.JoinFour | script.py:170-171 | `"\n".join` of four parts puts the separator exactly between neighbours |
| Text.JoinFourLabelled | script.py:163-175 | four `label + value` parts joined by a separator, then a tail, form one flat concatenation |
| Text.NatToString | app.py:98 | `str(n)` of a natural number is a non-empty string of decimal digits, with no leading zero except for 0 itself. Read back by the independent fold `DigitsValue`, it is `n`. |
| Text.IntToString | app.py:98 | `str(i)` of the mood rating: for a negative number, a minus sign followed by the digits of its magnitude; otherwise a non-empty string of digits with no leading zero except for 0 itself, whose value is `i` |
| Persona.SystemPromptEmbeds | script.py:44-57 | the system prompt is non-empty and contains both the persona name and the description |
| Persona.PersonaChat.constructor | script.py:17-31 | a new chat has an empty transcript, prompt and name, and satisfies the transcript invariant |
| Persona.PersonaChat.SetPersonaEnvironment | script.py:33-62 | sets the name and the prompt built from name and description; the transcript becomes exactly one system turn carrying that prompt |
| Persona.PersonaChat.Chat | script.py:67-103 | without a prompt, returns the fixed error text and leaves the transcript alone. Otherwise the user turn is committed and the completion sees the transcript ending in it. A reply is appended and returned; a failure propagates with the user turn last. Earlier turns, prompt and name never change, and the invariant is kept. |
| Persona.PersonaChat.ResetConversation | script.py:105-114 | the transcript becomes the system turn alone, or `[]` without a prompt; it is a prefix of the old transcript, and prompt and name are kept |
| Persona.PersonaChat.ChangePersona | script.py:116-121 | transcript, prompt and name are all cleared, and the invariant holds |
| Persona.ChatAfterChangePersona | script.py:77-78 | after `change_persona`, the next `chat` returns the fixed error text and the transcript stays empty |
| Persona.CreatePersonaSession | script.py:244-268 | returns a new chat already seeded with the persona: its name, its prompt, and a transcript of one system turn |
| Persona.OrDefault | script.py:137-139 | a blank answer takes the default; any other answer becomes its non-empty stripped form, which occurs inside the answer |
| Persona.DefaultCharacteristicsNamePersona | script.py:146-147 | the default characteristics sentence names the persona |
| Persona.PersonaDescriptionLayout | script.py:163-175 | the description is the four `Label: value` lines joined by single newlines, followed by the instructions |
| Persona.SetupPersona | script.py:124-177 | the returned name is never empty: "friend" for a blank answer, otherwise the stripped answer |
| Persona.SetupPersonaDescription | script.py:137-175 | the returned description is the four lines with the stripped answers or their defaults ("friend", the default sentence, "a general conversation", "a casual conversation"), then the instructions |
| Wellness.MoodDescription | app.py:72-81 | ratings 1 to 5 map to their five fixed phrases in order; the result is "neutral" exactly for any other rating |
| Wellness.MoodDescriptionInjective | app.py:74-80 | distinct ratings in 1..5 have distinct phrases |
| Wellness.SensationsText | app.py:92 | no sensations render as "none specified" |
| Wellness.SensationsTextNamesEach | app.py:92 | every reported sensation occurs in the rendered list |
| Wellness.AttentionText | app.py:93 | `attention or "general"`: a present, non-empty attention is kept, and a missing or empty one reads "general"; the result is never empty |
| Wellness.EmbedsStatePieces | app.py:97-100 | a prompt built around the check-in block carries the mood phrase, the sensations text and the attention text |
| Wellness.EmptyChairDescriptionCarriesFields | app.py:95-114 | the Empty Chair description carries `who`, characteristics, topic, situation and the check-in answers |
| Wellness.EmptyChairOpeningCarriesFields | app.py:120-123 | the Empty Chair opening prompt carries `who`, topic and situation |
| Wellness.BreathingPromptsCarryAssessment | app.py:145-191 | both breathing prompts carry the mood phrase, sensations and attention |
| Wellness.BodyScanPromptsCarryFields | app.py:214-248 | the body scan description carries both answers and the check-in answers; its opening carries both answers, the mood phrase and the sensations |
| SessionFlow.StepNameInjective | app.py:50 | the four step strings the app stores are distinct, so a step enumeration loses nothing |
| SessionFlow.ExerciseKeyInjective | app.py:374-390 | the three exercise keys the app stores are distinct |
| SessionFlow.WithDefaults | app.py:46-60 | the dictionary after initialisation has every default key, keeps every existing entry, and adds the default for each missing key |
| SessionFlow.WithDefaultsIdempotent | app.py:58-60 | a second initialisation changes nothing |
| SessionFlow.WithDefaultsKeepsFullStore | app.py:58-60 | a dictionary that already holds every default key is left as it is |
| SessionFlow.WithDefaultsOfEmpty | app.py:46-60 | initialising an empty dictionary gives exactly the defaults |
| SessionFlow.InitIsNoOpWhenValid | app.py:62 | the module-level `init_session_state()` that Streamlit runs again before every event leaves a valid session unchanged |
| SessionFlow.Session.constructor | app.py:62 | a new browser session holds exactly the defaults and is valid |
| SessionFlow.Session.InitSessionState | app.py:46-60 | the loop inserts only missing keys, so the dictionary becomes `WithDefaults` of the old one |
| SessionFlow.Session.ResetAll | app.py:65-69 | the loop deletes every key, then the defaults are re-inserted: the dictionary is exactly the defaults, whatever it held |
| SessionFlow.Session.SubmitAssessment | app.py:335-345 | advances if and only if there is a sensation and a non-empty attention. With no sensation the outcome is the sensations warning, and with no attention the attention warning; either way nothing changes. On success mood, sensations and attention are stored and the step becomes `exercise_selection`. |
| SessionFlow.Session.ChooseExercise | app.py:373-392 | records the chosen exercise and moves to `exercise_setup`; nothing else changes |
| SessionFlow.Session.BackToCheckIn | app.py:395-397 | moves to `initial_assessment`, keeping the stored answers |
| SessionFlow.Session.BackToSelection | app.py:450-452 | "Back" on a setup page moves to `exercise_selection` and changes nothing else (the same at app.py lines 480-482 and 519-521) |
| SessionFlow.Session.EnsureBackend | app.py:87-88 | an existing back end is kept; otherwise a new empty one is stored, or nothing changes when no client can be built |
| SessionFlow.Session.SeedPersona | app.py:116-128 | sets the persona, names it in the session and sends the seed prompt. On a reply the back end holds system, seed and reply, the messages are the reply alone and the step is `chat`. On a failure the back end ends with the seed and the step stays. |
| SessionFlow.Session.SetUpPersona | app.py:84-131 | the shared setup effect (`SetUpEffect`). Without a back end and without a client it fails with nothing changed. Otherwise the old back end, or a new one, is seeded. The result is true exactly when the seed prompt got a reply, and only then is the step `chat`. |
| SessionFlow.Session.SetupEmptyChair | app.py:84-131 | the shared setup effect with `who` as the persona and the Empty Chair prompts built from the stored check-in |
| SessionFlow.Session.SetupBreathingExercise | app.py:134-200 | the shared setup effect with the "Breathing Guide" persona and the breathing prompts built from the stored check-in |
| SessionFlow.Session.SetupBodyScan | app.py:203-256 | the shared setup effect with the "Body Scan Guide" persona and the body scan prompts |
| SessionFlow.Session.StartEmptyChair | app.py:454-460 | rejected, with neither the dictionary nor an existing back end changed, exactly when one of the four fields is empty; otherwise the Empty Chair setup runs, and the step is `chat` exactly when it succeeded |
| SessionFlow.Session.StartBodyScan | app.py:523-529 | rejected, with neither the dictionary nor an existing back end changed, exactly when one of the two answers is empty; otherwise the body scan setup runs, and the step is `chat` exactly when it succeeded |
| SessionFlow.Session.StartBreathing | app.py:484-487 | "Begin Breathing Exercise", shown only when breathing is selected, has no fields to check: the breathing setup effect, with the step `chat` exactly when it succeeded |
| SessionFlow.Session.SendMessage | app.py:547-563 | an empty input changes nothing. Otherwise the user entry is appended to the messages before the call, and the back end sends its transcript plus the user turn. A reply is appended to both; a failure leaves both ending in the user entry. |
| SessionFlow.Session.ClearChat | app.py:569-573 | the back end keeps its persona and goes back to its system turn, the messages become empty and the step stays `chat` |
| SessionFlow.Session.ChangeExercise | app.py:575-579 | moves to `exercise_selection` with empty messages and no back end; nothing else changes |
| SessionFlow.CheckInAndChoose | app.py:335-392 | a new session that passes the check-in and picks an exercise holds the defaults, the answers, the exercise and the `exercise_setup` step |
| SessionFlow.BreathingWalkthrough | app.py:134-200 | check-in, choose breathing, begin, with a completion that replies: the chat starts with the greeting as the only visible message, and the back end holds three turns: the system turn carrying the Breathing Guide prompt, the breathing opening built from the submitted check-in as the user turn, and the greeting |

## Left out

- The OpenAI client and `chat.completions.create` are left out, including the model name, `temperature` and `max_tokens`. The call is the parameter `complete`, and whether a client can be built is the parameter `clientAvailable`.
- The prose of every prompt template is left out. Each prompt is a `"".join` of short labels of this model's own and the interpolated values, and the lemmas state only which values a prompt carries. `PersonaInstructions` is abbreviated for the same reason. The exact strings the app branches on or shows are kept: the error text, "friend", the default sentence, "a general conversation", "a casual conversation", the mood phrases, "neutral", "none specified", "general", "Breathing Guide" and "Body Scan Guide".
- The breathing-exercise JSON format is left out. It is only instruction text inside the breathing prompt; no code parses it, validates it or tracks repeated exercises.
- The app has no extractor for the breathing JSON, no tracker of exercises already offered, no Reflection exercise and no "completion prompt sent" flag, so none of these is modelled.
- `chat` without a persona returns a fixed error string and does not raise (`Persona.PersonaChat.Chat`).
- After the breathing setup the back-end transcript holds three turns: the system turn, the seed prompt and the greeting. The visible messages hold only the greeting (`SessionFlow.BreathingWalkthrough`).
- Streamlit rendering is left out: titles, forms, widgets, sidebar, spinners, `st.warning`/`st.error` texts, `st.rerun` and the footer. A warning is an outcome value (`AssessmentOutcome`, `SetupOutcome`), and `st.rerun` is the end of an event method. Each re-run of the script calls `init_session_state()` again, and on a valid session that call changes nothing (`SessionFlow.InitIsNoOpWhenValid`), so the model does not repeat it between events.
- `exercise_context` is only initialised, never written, so the model only keeps it as a default entry.
- Other keyed widget entries are only a `WidgetKey` case of the dictionary's keys. They matter for `reset_all`, which deletes every key.
- The step and exercise strings are enumerations; `StepName` and `ExerciseKey` give the strings the app stores.
- The slider's range 1..5 and the fixed option lists for sensations and attention are not imposed. `SubmitAssessment` accepts any values, because the handlers do not check them.
- SessionFlow.Session.SetupEmptyChair and the other setup helpers do not model exceptions raised while the prompts are built, because building them cannot fail. Only building the client and the completion call can fail.
- Persona.CreatePersonaSession and the `PersonaChat` constructor never fail. In the source, `PersonaChat()` raises when no API key is available, and `create_persona_session` passes that on. Only the session's setup helpers model this failure, through `clientAvailable`.
- Persona.PersonaChat.Chat does not model a completion whose content is `None`: a reply is always a string.
- The console program is left out: `main()`, `input()`/`print`, `KeyboardInterrupt` handling, `load_dotenv` and the environment lookup of the API key.
- `ecosystem.config.js` is deployment configuration with no logic, and is not part of this model.
- `IsSpace` is Python's whitespace set for `str.isspace`. Unicode normalisation is not modelled.

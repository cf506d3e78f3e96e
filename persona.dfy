/**
 * The persona chat back end (script.py): a transcript manager that seeds
 * the conversation with one system turn describing a persona, sends every
 * user message with the whole transcript to a completion service, and can
 * reset the transcript or forget the persona.
 *
 * The completion service is a parameter `complete`: it is given the
 * transcript exactly as it stands when the call is made and either replies
 * with a text or fails (the source's exception).
 */
module Persona {
  import opened Text

  datatype Role = System | User | Assistant

  /** One `{"role": ..., "content": ...}` entry of a transcript. */
  datatype Turn = Turn(role: Role, content: string)

  /** What one call of the completion service does. */
  datatype Completion = Reply(text: string) | Failed(reason: string)

  /** How `chat` ends: it returns a text, or the completion's failure propagates. */
  datatype ChatResult = Returned(text: string) | Raised(reason: string)

  /** The text `chat` returns when no persona has been set up. */
  const NotSetUpMessage: string :=
    "Error: Please set up a persona environment first using set_persona_environment()"

  function SystemPromptPieces(name: string, description: string): seq<string> {
    ["You are the user's ", name, ".\nPersona Description:\n", description, "\nStay in character as the ", name, "."]
  }

  /**
   * The system prompt built from a persona's name and description. The
   * instruction prose is abbreviated; what matters is where the two fields
   * are interpolated.
   */
  function SystemPrompt(name: string, description: string): string {
    Join("", SystemPromptPieces(name, description))
  }

  /** The system prompt is never empty and carries both the name and the description. */
  lemma SystemPromptEmbeds(name: string, description: string)
    ensures SystemPrompt(name, description) != ""
    ensures Embeds(SystemPrompt(name, description), name)
    ensures Embeds(SystemPrompt(name, description), description)
  {
    var pieces := SystemPromptPieces(name, description);
    JoinEmbedsEach("", pieces, 0);
    JoinEmbedsEach("", pieces, 1);
    JoinEmbedsEach("", pieces, 3);
  }

  class PersonaChat {
    var history: seq<Turn>
    var systemPrompt: string
    var personaName: string

    /**
     * The transcript invariant: there is a system prompt exactly when there
     * is a transcript, the transcript then starts with the one system turn
     * carrying that prompt, and no later turn is a system turn.
     */
    ghost predicate Valid()
      reads this
    {
      && (systemPrompt == "" <==> history == [])
      && (history != [] ==> history[0] == Turn(System, systemPrompt))
      && (forall i :: 0 < i < |history| ==> history[i].role != System)
      && (systemPrompt == "" ==> personaName == "")
    }

    /** A chat with no persona; the API client itself is not modelled. */
    constructor ()
      ensures Valid()
      ensures history == [] && systemPrompt == "" && personaName == ""
    {
      history := [];
      systemPrompt := "";
      personaName := "";
    }

    /** Seeds a fresh transcript with the system turn describing the persona. */
    method SetPersonaEnvironment(name: string, description: string)
      modifies this
      ensures Valid()
      ensures personaName == name
      ensures systemPrompt == SystemPrompt(name, description)
      ensures history == [Turn(System, systemPrompt)]
    {
      personaName := name;
      systemPrompt := SystemPrompt(name, description);
      SystemPromptEmbeds(name, description);
      history := [Turn(System, systemPrompt)];
    }

    /**
     * Sends one user message. Without a persona it returns the fixed error
     * text and changes nothing. Otherwise the user turn is committed first,
     * the completion sees the transcript ending in it, and only a reply adds
     * the assistant turn; a failure leaves the user turn last.
     */
    method Chat(message: string, complete: seq<Turn> -> Completion) returns (r: ChatResult)
      requires Valid()
      modifies this
      ensures Valid()
      ensures systemPrompt == old(systemPrompt) && personaName == old(personaName)
      ensures old(history) <= history
      ensures old(systemPrompt) == "" ==> r == Returned(NotSetUpMessage) && history == old(history)
      ensures old(systemPrompt) != "" ==>
        var sent := old(history) + [Turn(User, message)];
        match complete(sent)
        case Reply(text) => r == Returned(text) && history == sent + [Turn(Assistant, text)]
        case Failed(reason) => r == Raised(reason) && history == sent
    {
      if systemPrompt == "" {
        return Returned(NotSetUpMessage);
      }
      history := history + [Turn(User, message)];
      var response := complete(history);
      match response
      case Reply(text) =>
        history := history + [Turn(Assistant, text)];
        r := Returned(text);
      case Failed(reason) =>
        r := Raised(reason);
    }

    /** Truncates the transcript back to the system turn, if there is one. */
    method ResetConversation()
      requires Valid()
      modifies this
      ensures Valid()
      ensures systemPrompt == old(systemPrompt) && personaName == old(personaName)
      ensures history == if systemPrompt != "" then [Turn(System, systemPrompt)] else []
      ensures history == old(history)[..if systemPrompt != "" then 1 else 0]
    {
      if systemPrompt != "" {
        history := [Turn(System, systemPrompt)];
      } else {
        history := [];
      }
    }

    /** Forgets the persona: transcript, system prompt and name are cleared. */
    method ChangePersona()
      modifies this
      ensures Valid()
      ensures history == [] && systemPrompt == "" && personaName == ""
    {
      history := [];
      systemPrompt := "";
      personaName := "";
    }
  }

  /** After the persona is forgotten, the next message gets the error text and no transcript. */
  method ChatAfterChangePersona(c: PersonaChat, message: string, complete: seq<Turn> -> Completion)
    returns (r: ChatResult)
    requires c.Valid()
    modifies c
    ensures c.Valid()
    ensures r == Returned(NotSetUpMessage)
    ensures c.history == [] && c.systemPrompt == "" && c.personaName == ""
  {
    c.ChangePersona();
    r := c.Chat(message, complete);
  }

  /** A new chat already seeded with the given persona. */
  method CreatePersonaSession(name: string, description: string) returns (c: PersonaChat)
    ensures fresh(c) && c.Valid()
    ensures c.personaName == name
    ensures c.systemPrompt == SystemPrompt(name, description)
    ensures c.history == [Turn(System, c.systemPrompt)]
  {
    c := new PersonaChat();
    c.SetPersonaEnvironment(name, description);
  }

  /** An answer after `.strip()`, or the default when the answer is blank. */
  function OrDefault(answer: string, default: string): (r: string)
    ensures AllSpace(answer) ==> r == default
    ensures !AllSpace(answer) ==> r == Strip(answer) && r != "" && Embeds(answer, r)
  {
    var stripped := Strip(answer);
    if stripped == "" then default else stripped
  }

  /** The characteristics used when the user gives none. */
  function DefaultCharacteristics(name: string): string {
    Join("", ["A caring and supportive ", name, " who communicates warmly and genuinely."])
  }

  /** The default characteristics name the persona. */
  lemma DefaultCharacteristicsNamePersona(name: string)
    ensures Embeds(DefaultCharacteristics(name), name)
  {
    JoinEmbedsEach("", ["A caring and supportive ", name, " who communicates warmly and genuinely."], 1);
  }

  /** The instructions that follow the four lines (their wording is abbreviated). */
  const PersonaInstructions: string := "\n\nInstructions: Stay in character as the person described above."

  /** The persona description: four "Label: value" lines, then the instructions. */
  function PersonaDescription(name: string, characteristics: string, topic: string, situation: string): string {
    Join("\n", ["Relationship: " + name, "Characteristics: " + characteristics,
                "Topic: " + topic, "Situation: " + situation])
    + PersonaInstructions
  }

  /**
   * The description starts with the four "Label: value" lines separated by
   * single newlines, and each value sits right after its label.
   */
  lemma PersonaDescriptionLayout(name: string, characteristics: string, topic: string, situation: string)
    ensures PersonaDescription(name, characteristics, topic, situation) ==
      "Relationship: " + name + "\n" + "Characteristics: " + characteristics
      + "\n" + "Topic: " + topic + "\n" + "Situation: " + situation + PersonaInstructions
  {
    JoinFourLabelled("\n", "Relationship: ", name, "Characteristics: ", characteristics,
                     "Topic: ", topic, "Situation: ", situation, PersonaInstructions);
  }

  /**
   * The interactive persona setup with its four answers as parameters:
   * each answer is stripped and a blank one takes its default ("friend",
   * a sentence naming the persona, "a general conversation", "a casual
   * conversation").
   */
  function SetupPersona(nameAnswer: string, characteristicsAnswer: string, topicAnswer: string,
                        situationAnswer: string): (r: (string, string))
    ensures r.0 != ""
    ensures AllSpace(nameAnswer) ==> r.0 == "friend"
    ensures !AllSpace(nameAnswer) ==> r.0 == Strip(nameAnswer)
  {
    var name := OrDefault(nameAnswer, "friend");
    var characteristics := OrDefault(characteristicsAnswer, DefaultCharacteristics(name));
    var topic := OrDefault(topicAnswer, "a general conversation");
    var situation := OrDefault(situationAnswer, "a casual conversation");
    (name, PersonaDescription(name, characteristics, topic, situation))
  }

  /**
   * The description returned by the setup begins with the four "Label: value"
   * lines joined by newlines, the values being the stripped answers or their
   * defaults (see OrDefault).
   */
  lemma SetupPersonaDescription(nameAnswer: string, characteristicsAnswer: string,
                                topicAnswer: string, situationAnswer: string)
    ensures
      var r := SetupPersona(nameAnswer, characteristicsAnswer, topicAnswer, situationAnswer);
      r.1 == "Relationship: " + r.0
             + "\n" + "Characteristics: " + OrDefault(characteristicsAnswer, DefaultCharacteristics(r.0))
             + "\n" + "Topic: " + OrDefault(topicAnswer, "a general conversation")
             + "\n" + "Situation: " + OrDefault(situationAnswer, "a casual conversation")
             + PersonaInstructions
  {
    var name := OrDefault(nameAnswer, "friend");
    PersonaDescriptionLayout(name, OrDefault(characteristicsAnswer, DefaultCharacteristics(name)),
                             OrDefault(topicAnswer, "a general conversation"),
                             OrDefault(situationAnswer, "a casual conversation"));
  }
}

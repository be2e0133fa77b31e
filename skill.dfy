/**
  * The Sassy Magic Eight skill: its lifecycle event handlers, its intent
  * handlers, the help text chosen by the session's `stage` attribute, and the
  * fortune handler that records the drawn answer in the session and tells it
  * with a card.
  *
  * The response builder (`ask`, `tell`, `tellWithCard`) belongs to the host
  * framework; here each handler yields the one builder call it makes, as an
  * `Action` value.
  */
module Skill {
  import opened Wrappers
  import opened Ssml
  import opened Responses

  /** A session attribute value, as the JSON session store carries it. */
  datatype Value = Number(n: real) | Text(s: string) | Boolean(b: bool) | Null | Compound

  const StageKey: string := "stage"
  const SpeechPunchlineKey: string := "speechPunchline"
  const CardPunchlineKey: string := "cardPunchline"

  /** Reading `session.attributes.stage`: a missing key reads as undefined. */
  function Stage(attributes: map<string, Value>): (o: Option<Value>)
    ensures o.Some? <==> StageKey in attributes
    ensures o.Some? ==> o.value == attributes[StageKey]
  {
    if StageKey in attributes then Some(attributes[StageKey]) else None
  }

  // ---------------------------------------------------------------------------
  // Responses handed to the host's response builder

  /** How the host renders a speech object. */
  datatype SpeechKind = PlainSpeech | SsmlSpeech

  /** What a handler passes as speech: a bare string, or a speech object with its type. */
  datatype OutputSpeech = Bare(text: string) | Typed(speech: string, kind: SpeechKind)

  /** The one call a handler makes into the response builder. */
  datatype Action =
    | Ask(speech: string, reprompt: string)
    | Tell(output: OutputSpeech)
    | TellWithCard(output: OutputSpeech, cardTitle: string, cardContent: string)

  const WelcomeText: string := "Welcome to the Sassy Magic Eight skill, you can ask magic eight ball any question"
  const RepromptText: string := "What would you like to ask magic eight ball?"
  const GoodbyeText: string := "Goodbye"
  const CardTitle: string := "Sassy Magic Eight Ball"

  // The two halves are joined without a space, as in the skill.
  const OverviewHelp: string :=
    "The magic eight ball is a fortune telling or advice giving toy developed in the 1950s. "
    + "People traditionally ask it a question, and it returns a response."
    + "To ask magic eight ball a question, just ask by saying start magic eight ball, or you can say exit."
  const ExampleHelp: string := "You can ask, magic eight ball, will I win the Lotto."
  const ShortHelp: string := "You can say, start magic eight ball, or you can say exit."

  /**
    * The help text for a stage value. The switch compares with strict
    * equality, so only the numbers 0, 1 and 2 select a case; any other value,
    * and an absent stage, falls to the default, which repeats stage 0's text.
    */
  function HelpText(stage: Option<Value>): (text: string)
    ensures stage == Some(Number(1.0)) ==> text == ExampleHelp
    ensures stage == Some(Number(2.0)) ==> text == ShortHelp
    ensures stage != Some(Number(1.0)) && stage != Some(Number(2.0)) ==> text == OverviewHelp
  {
    if stage == Some(Number(0.0)) then OverviewHelp
    else if stage == Some(Number(1.0)) then ExampleHelp
    else if stage == Some(Number(2.0)) then ShortHelp
    else OverviewHelp
  }

  /** Any stage other than 1 and 2, present or not, gets the same help as stage 0. */
  lemma UnknownStageHelpsLikeStageZero(stage: Option<Value>)
    requires stage != Some(Number(1.0)) && stage != Some(Number(2.0))
    ensures HelpText(stage) == HelpText(Some(Number(0.0)))
  {
  }

  /**
    * What the fortune handler stores in the session: the spoken and the card
    * text of the drawn answer, under `speechPunchline` and `cardPunchline`.
    */
  function RecordPunchlines(attributes: map<string, Value>, entry: Entry): (after: map<string, Value>)
    ensures after.Keys == attributes.Keys + {SpeechPunchlineKey, CardPunchlineKey}
    ensures after[SpeechPunchlineKey] == Text(entry.response)
    ensures after[CardPunchlineKey] == Text(entry.cardResponse)
    ensures forall k :: k in attributes && k != SpeechPunchlineKey && k != CardPunchlineKey ==>
      after[k] == attributes[k]
  {
    attributes[SpeechPunchlineKey := Text(entry.response)][CardPunchlineKey := Text(entry.cardResponse)]
  }

  /** Recording an answer never touches the stage, so it never changes the help text. */
  lemma RecordKeepsStage(attributes: map<string, Value>, entry: Entry)
    ensures Stage(RecordPunchlines(attributes, entry)) == Stage(attributes)
    ensures HelpText(Stage(RecordPunchlines(attributes, entry))) == HelpText(Stage(attributes))
  {
    assert StageKey != SpeechPunchlineKey && StageKey != CardPunchlineKey;
  }

  /**
    * The fortune handler's reply for a drawn answer: the spoken text inside an
    * SSML root element, the fixed title, and the card text with no pause.
    */
  function FortuneAction(entry: Entry): (a: Action)
    ensures a.TellWithCard? && a.cardTitle == CardTitle
    ensures a.output.Typed? && a.output.kind == SsmlSpeech
    ensures StartsWith(a.output.speech, SpeakOpen) && EndsWith(a.output.speech, SpeakClose)
    ensures SpeakBody(a.output.speech) == Some(entry.response)
    ensures a.cardContent == entry.cardResponse && !HasBreak(a.cardContent)
  {
    SpeakRoundTrip(entry.response);
    CardHasNoBreak(entry);
    TellWithCard(Typed(Speak(entry.response), SsmlSpeech), CardTitle, entry.cardResponse)
  }

  /** What the fortune handler tells is what it has just stored in the session. */
  lemma FortuneTellsWhatItStores(attributes: map<string, Value>, entry: Entry)
    ensures var a, after := FortuneAction(entry), RecordPunchlines(attributes, entry);
      Text(a.cardContent) == after[CardPunchlineKey] &&
      SpeakBody(a.output.speech) == Some(after[SpeechPunchlineKey].s)
  {
    SpeakRoundTrip(entry.response);
  }

  // ---------------------------------------------------------------------------
  // Dispatch

  const FortuneIntent: string := "SassyMagicEightIntent"
  const HelpIntent: string := "AMAZON.HelpIntent"
  const StopIntent: string := "AMAZON.StopIntent"
  const CancelIntent: string := "AMAZON.CancelIntent"

  /** The handlers registered in the skill's intent table. */
  datatype Handler = Fortune | Help | Stop | Cancel

  /** Looking an intent name up in the intent table. */
  function IntentHandler(name: string): (h: Option<Handler>)
    ensures h == Some(Fortune) <==> name == FortuneIntent
    ensures h == Some(Help) <==> name == HelpIntent
    ensures h == Some(Stop) <==> name == StopIntent
    ensures h == Some(Cancel) <==> name == CancelIntent
    ensures h == None <==> name !in {FortuneIntent, HelpIntent, StopIntent, CancelIntent}
  {
    if name == FortuneIntent then Some(Fortune)
    else if name == HelpIntent then Some(Help)
    else if name == StopIntent then Some(Stop)
    else if name == CancelIntent then Some(Cancel)
    else None
  }

  /** An inbound request, reduced to what selects its handler. */
  datatype Event = SessionStarted | Launch | SessionEnded | IntentRequest(name: string)

  /**
    * What handling an event yields: nothing (the lifecycle events that only
    * log), exactly one builder call, or, for an intent name with no registered
    * handler, nothing from this skill (what the host then does is not modelled).
    */
  datatype Outcome = NoResponse | Respond(action: Action) | Unregistered(name: string)

  /**
    * The outcome of one event, given the answer table, the session attributes
    * before the event and the drawn answer position.
    */
  function Reply(responses: seq<Entry>, e: Event, attributes: map<string, Value>, responseId: nat): (o: Outcome)
    requires responseId < |responses|
    ensures o.NoResponse? <==> e.SessionStarted? || e.SessionEnded?
    ensures e == Launch ==> o == Respond(Ask(WelcomeText, RepromptText))
    ensures e == IntentRequest(HelpIntent) ==>
      o == Respond(Tell(Typed(HelpText(Stage(attributes)), PlainSpeech)))
    ensures e == IntentRequest(StopIntent) || e == IntentRequest(CancelIntent) ==>
      o == Respond(Tell(Bare(GoodbyeText)))
    ensures e == IntentRequest(FortuneIntent) ==> o == Respond(FortuneAction(responses[responseId]))
    ensures (o.Respond? && o.action.TellWithCard?) <==> e == IntentRequest(FortuneIntent)
    ensures o.Unregistered? <==> e.IntentRequest? && IntentHandler(e.name) == None
  {
    match e
    case SessionStarted => NoResponse
    case SessionEnded => NoResponse
    case Launch => Respond(Ask(WelcomeText, RepromptText))
    case IntentRequest(name) =>
      match IntentHandler(name)
      case None => Unregistered(name)
      case Some(Fortune) => Respond(FortuneAction(responses[responseId]))
      case Some(Help) => Respond(Tell(Typed(HelpText(Stage(attributes)), PlainSpeech)))
      case Some(Stop) => Respond(Tell(Bare(GoodbyeText)))
      case Some(Cancel) => Respond(Tell(Bare(GoodbyeText)))
  }

  /** The session attributes after one event: only the fortune intent writes to them. */
  function AttributesAfter(responses: seq<Entry>, e: Event, attributes: map<string, Value>, responseId: nat): (r: map<string, Value>)
    requires responseId < |responses|
    ensures e != IntentRequest(FortuneIntent) ==> r == attributes
    ensures Stage(r) == Stage(attributes)
    ensures r.Keys <= attributes.Keys + {SpeechPunchlineKey, CardPunchlineKey}
    ensures forall k :: k in attributes && k != SpeechPunchlineKey && k != CardPunchlineKey ==> k in r && r[k] == attributes[k]
  {
    if e == IntentRequest(FortuneIntent) then RecordPunchlines(attributes, responses[responseId])
    else attributes
  }

  /** The drawn answer matters only to the fortune intent. */
  lemma OnlyFortuneDraws(responses: seq<Entry>, e: Event, attributes: map<string, Value>, i: nat, j: nat)
    requires i < |responses| && j < |responses|
    requires e != IntentRequest(FortuneIntent)
    ensures Reply(responses, e, attributes, i) == Reply(responses, e, attributes, j)
    ensures AttributesAfter(responses, e, attributes, i) == AttributesAfter(responses, e, attributes, j)
  {
  }

  /** Of the session, a reply reads the stage and nothing else. */
  lemma ReplyReadsOnlyStage(responses: seq<Entry>, e: Event, a1: map<string, Value>, a2: map<string, Value>, responseId: nat)
    requires responseId < |responses|
    requires Stage(a1) == Stage(a2)
    ensures Reply(responses, e, a1, responseId) == Reply(responses, e, a2, responseId)
  {
  }

  /** The session attributes after a run of events, one drawn position per event. */
  function AttributesAfterAll(responses: seq<Entry>, events: seq<Event>, attributes: map<string, Value>, draws: seq<nat>): map<string, Value>
    requires |draws| == |events|
    requires forall k :: 0 <= k < |draws| ==> draws[k] < |responses|
    decreases |events|
  {
    if events == [] then attributes
    else AttributesAfterAll(responses, events[1..], AttributesAfter(responses, events[0], attributes, draws[0]), draws[1..])
  }

  /** No handler advances the stage: however a session goes on, its help text stays the same. */
  lemma {:induction false} StageNeverAdvances(responses: seq<Entry>, events: seq<Event>, attributes: map<string, Value>, draws: seq<nat>)
    requires |draws| == |events|
    requires forall k :: 0 <= k < |draws| ==> draws[k] < |responses|
    ensures Stage(AttributesAfterAll(responses, events, attributes, draws)) == Stage(attributes)
    decreases |events|
  {
    if events != [] {
      var next := AttributesAfter(responses, events[0], attributes, draws[0]);
      StageNeverAdvances(responses, events[1..], next, draws[1..]);
    }
  }

  // ---------------------------------------------------------------------------
  // The session and the handlers that update it

  /** One conversational session; handlers update its attributes in place. */
  class Session {
    var attributes: map<string, Value>

    constructor (attributes: map<string, Value>)
      ensures this.attributes == attributes
    {
      this.attributes := attributes;
    }
  }

  /**
    * The skill object. It holds the answer table, which it is always built
    * with, and its handlers act on the session they are given.
    */
  class SassyMagicEight {
    const responses: seq<Entry>

    constructor ()
      ensures responses == Table()
    {
      responses := Table();
    }

    /**
      * The fortune handler, given the drawn position: stores the answer's
      * spoken and card text in the session, then tells the spoken text with a
      * card.
      */
    method HandleLaunchSkillIntent(session: Session, responseId: nat) returns (action: Action)
      requires responseId < |responses|
      modifies session
      ensures session.attributes == RecordPunchlines(old(session.attributes), responses[responseId])
      ensures action == FortuneAction(responses[responseId])
    {
      var speechText := responses[responseId].response;
      session.attributes := session.attributes[SpeechPunchlineKey := Text(speechText)];
      var cardOutput := responses[responseId].cardResponse;
      session.attributes := session.attributes[CardPunchlineKey := Text(cardOutput)];
      action := TellWithCard(Typed(SpeakOpen + speechText + SpeakClose, SsmlSpeech), CardTitle, cardOutput);
    }

    /** Routes one event to its handler and runs it against the session. */
    method Dispatch(session: Session, e: Event, responseId: nat) returns (o: Outcome)
      requires responseId < |responses|
      modifies session
      ensures o == Reply(responses, e, old(session.attributes), responseId)
      ensures session.attributes == AttributesAfter(responses, e, old(session.attributes), responseId)
    {
      match e
      case SessionStarted =>
        o := NoResponse;
      case SessionEnded =>
        o := NoResponse;
      case Launch =>
        o := Respond(Ask(WelcomeText, RepromptText));
      case IntentRequest(name) =>
        var handler := IntentHandler(name);
        match handler
        case None =>
          o := Unregistered(name);
        case Some(Fortune) =>
          var action := HandleLaunchSkillIntent(session, responseId);
          o := Respond(action);
        case Some(Help) =>
          var speechText := HelpText(Stage(session.attributes));
          o := Respond(Tell(Typed(speechText, PlainSpeech)));
        case Some(Stop) =>
          o := Respond(Tell(Bare(GoodbyeText)));
        case Some(Cancel) =>
          o := Respond(Tell(Bare(GoodbyeText)));
    }
  }
}

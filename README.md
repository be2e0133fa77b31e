# Sassy Magic Eight Ball skill — a Dafny model

The Sassy Magic Eight Ball is an Alexa skill: the user asks a question and the
skill answers with one of twenty fixed "sassy" Magic 8-Ball replies. The spoken
reply is SSML and may pause with a `<break time="…" />` element (W3C Speech
Synthesis Markup Language 1.0, section 3.2.3). The reply is wrapped in the
`<speak>` root element (same standard, section 3.1.1), and its plain-text form
is shown on a card. The skill also answers the lifecycle events (session
started, launch, session ended) and three built-in intents (help, stop,
cancel).

The model has four modules:

- `Wrappers` (`wrappers.dfy`): `Option`, which stands for a JavaScript property
  read that may yield `undefined`.
- `Ssml` (`ssml.dfy`): substring search, the `<break>` pause element, and the
  `<speak>` wrapper with its inverse.
- `Responses` (`responses.dfy`): the table of twenty answers. Every entry is
  built by `Answer` (no pause) or `PausedAnswer` (one pause). Each spoken text
  and each card text is non-empty, and each card text has no `<` at all. The
  types `SpokenText` and `PlainText` of the `Entry` fields carry these facts, so
  every entry is checked against them.
- `Skill` (`skill.dfy`): session attribute values, the help-text switch, the
  intent lookup, a specification function `Reply` for the whole event dispatch,
  and two classes. `Session` holds the attribute map that handlers update in
  place. `SassyMagicEight` holds the table; its methods `Dispatch` and
  `HandleLaunchSkillIntent` are proved against the specification functions.

The random draw of an answer is a parameter `responseId` with the precondition
`responseId < |responses|`. Session attribute values are modelled as JSON
values (`Number`, `Text`, `Boolean`, `Null`, `Compound`). The help switch
compares with JavaScript's strict equality, so only the numbers 0, 1 and 2 hit
a `case`; `"1"`, `true` or an absent stage fall to the default text.

Long string literals in `responses.dfy` and `skill.dfy` are written as
concatenations of shorter pieces. The strings are the same as in the source.

Three details of the code are kept as written:

- The help intent passes a typed plain-text speech object to `tell`, not a bare
  string. The model keeps that as `Typed(text, PlainSpeech)`.
- The code defines no fallback reply for an unknown intent. The model yields
  `Unregistered(name)` and invents no answer.
- The two halves of the long help text are joined without a space after
  "response.", as written.

## Model

| member | source | states |
|---|---|---|
| Responses.Table | alexa-sassy-magic-8-skill-js/src/index.js:23-44 | the table has exactly 20 entries; each entry's type makes its spoken text non-empty and its card text non-empty and free of markup |
| Responses.Answer | alexa-sassy-magic-8-skill-js/src/index.js:24-43 | an entry without a pause keeps its spoken and card text and its spoken text holds no `<break` element |
| Responses.PausedAnswer | alexa-sassy-magic-8-skill-js/src/index.js:27-42 | an entry built around a pause keeps its card text and its spoken text does hold a `<break` element |
| Responses.CardHasNoBreak | alexa-sassy-magic-8-skill-js/src/index.js:24-43 | no card text of any entry contains a `<break` element: pauses occur only in spoken text |
| Ssml.PauseIsBreak | alexa-sassy-magic-8-skill-js/src/index.js:27-42 | text with a `<break time="…" />` element spliced in anywhere contains the break tag |
| Ssml.PlainTextHasNoBreak | alexa-sassy-magic-8-skill-js/src/index.js:24-43 | text with no `<` cannot contain a break tag |
| Ssml.Contains | alexa-sassy-magic-8-skill-js/src/index.js:24-43 | substring search used to speak about break tags; a pattern that is found is no longer than the text |
| Ssml.ContainsIffOccurs | alexa-sassy-magic-8-skill-js/src/index.js:24-43 | the search finds a pattern exactly when it occurs at some position, in both directions |
| Ssml.ContainsAt | alexa-sassy-magic-8-skill-js/src/index.js:24-43 | an occurrence at a position is found by the search |
| Ssml.ContainsHasOccurrence | alexa-sassy-magic-8-skill-js/src/index.js:24-43 | what the search finds occurs at some position |
| Ssml.AbsentFirstChar | alexa-sassy-magic-8-skill-js/src/index.js:24-43 | a pattern whose first character is missing from the text is not found |
| Ssml.Speak | alexa-sassy-magic-8-skill-js/src/index.js:127 | the wrapped speech starts with `<speak>`, ends with `</speak>` and is 15 characters longer than the text |
| Ssml.SpeakBody | alexa-sassy-magic-8-skill-js/src/index.js:127 | the text inside a `<speak>` document is 15 characters shorter than the document, and is present only when the document is wrapped |
| Ssml.SpeakRoundTrip | alexa-sassy-magic-8-skill-js/src/index.js:127 | unwrapping wrapped text gives the text back |
| Ssml.SpeakBodyInverse | alexa-sassy-magic-8-skill-js/src/index.js:127 | wrapping the text unwrapped from a `<speak>` document gives the document back |
| Skill.Stage | alexa-sassy-magic-8-skill-js/src/index.js:87 | reading the stage yields a value exactly when the session has a `stage` key, and then yields that key's value |
| Skill.HelpText | alexa-sassy-magic-8-skill-js/src/index.js:87-101 | stage 1 gives the lottery example, stage 2 the short start-or-exit text, and stage 0, any other value or no stage gives the long overview |
| Skill.UnknownStageHelpsLikeStageZero | alexa-sassy-magic-8-skill-js/src/index.js:98-100 | any stage other than 1 or 2, absent included, gets the same help as stage 0 |
| Skill.RecordPunchlines | alexa-sassy-magic-8-skill-js/src/index.js:122-123 | after the update the keys are the old keys plus `speechPunchline` and `cardPunchline`, those two hold the entry's spoken and card text, and every other key keeps its value |
| Skill.RecordKeepsStage | alexa-sassy-magic-8-skill-js/src/index.js:122-123 | recording an answer leaves the stage, and so the help text, unchanged |
| Skill.FortuneAction | alexa-sassy-magic-8-skill-js/src/index.js:124-131 | the fortune reply is a tell with card titled "Sassy Magic Eight Ball"; its SSML-typed speech starts with `<speak>`, ends with `</speak>` and unwraps to the entry's spoken text; its card body is the entry's card text, which has no break |
| Skill.FortuneTellsWhatItStores | alexa-sassy-magic-8-skill-js/src/index.js:122-131 | the card body shown is the `cardPunchline` just stored, and the speech unwraps to the `speechPunchline` just stored |
| Skill.IntentHandler | alexa-sassy-magic-8-skill-js/src/index.js:79-118 | each of the four registered intent names selects its own handler, and every other name selects none |
| Skill.Reply | alexa-sassy-magic-8-skill-js/src/index.js:62-118 | session start and end give no response and only they do; launch asks with the welcome text and the reprompt; help tells the stage's help text as plain speech; stop and cancel tell "Goodbye"; the fortune intent, and only it, tells with a card; an unknown intent name, and only such a name, is unregistered |
| Skill.OnlyFortuneDraws | alexa-sassy-magic-8-skill-js/src/index.js:79-121 | the drawn index changes the reply or the attributes only for the fortune intent |
| Skill.ReplyReadsOnlyStage | alexa-sassy-magic-8-skill-js/src/index.js:87 | two sessions with the same stage get the same reply to every event |
| Skill.AttributesAfter | alexa-sassy-magic-8-skill-js/src/index.js:79-123 | every event but the fortune intent leaves the attributes as they were; after any event the stage is unchanged, the only new keys are `speechPunchline` and `cardPunchline`, and every other key keeps its value |
| Skill.StageNeverAdvances | alexa-sassy-magic-8-skill-js/src/index.js:62-132 | no sequence of events and draws ever changes the stage attribute |
| Skill.Session.constructor | alexa-sassy-magic-8-skill-js/src/index.js:120-123 | a session holds the attribute map it is opened with, which the handlers then update in place |
| Skill.SassyMagicEight.constructor | alexa-sassy-magic-8-skill-js/src/index.js:54-56 | the skill object holds the table of answers |
| Skill.SassyMagicEight.HandleLaunchSkillIntent | alexa-sassy-magic-8-skill-js/src/index.js:120-132 | for a drawn index in range, the session's attributes become exactly `RecordPunchlines` of the old ones and the reply is `FortuneAction` of the drawn entry |
| Skill.SassyMagicEight.Dispatch | alexa-sassy-magic-8-skill-js/src/index.js:62-118 | the outcome is `Reply` of the event on the old attributes, and the new attributes are `AttributesAfter` of the old ones: changed only by the fortune intent, only in the two punchline keys, with the stage kept |

## Left out

- `Math.random()` and `Math.floor` (index.js line 121) are floating-point randomness. The drawn index is a parameter bounded by the table size; uniformity of the draw is not modelled.
- The `AlexaSkill` base class, the prototype wiring and `execute` (lines 49-60 and 135-139) are not part of this model. The Alexa request envelope and the response builders `ask`, `tell` and `tellWithCard` are modelled as the `Action` datatype only.
- What the base class does with an intent name that has no handler is not shown. The model returns `Unregistered(name)` and claims nothing more.
- `APP_ID` (line 18) is configuration passed to the base class.
- The `console.log` calls in the lifecycle handlers (lines 63-64, 68, 75-76) are I/O only. The request and session ids they print are left out with them.
- SSML rendering and the response envelope format belong to the Alexa host.
- A session whose `attributes` object is missing would make the JavaScript throw. The model always has an attribute map.
- JavaScript numbers are modelled as reals. `NaN` and infinities are not representable. `-0` coincides with `0`, as it does under `===`.
- Responses.Table: which of the twenty entries pause is not stated per index. That fact is carried by the builder each entry uses (`Answer` or `PausedAnswer`), whose contract is checked for that entry.
- Responses.Table: the entries are not proved pairwise distinct.
- The card text is not claimed to be the spoken text with its breaks removed. Lines 38 and 40 differ in more than the pause.
- Skill.SassyMagicEight.constructor: the skill object always holds `Table()`. The specification functions take the table as a parameter so that they hold for any table.

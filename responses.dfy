/** The fixed table of Magic Eight Ball answers the skill draws from. */
module Responses {
  import opened Ssml

  /** Non-empty text that carries no markup at all. */
  type PlainText = s: string | s != [] && '<' !in s witness "."

  /** Non-empty text that may hold SSML markup. */
  type SpokenText = s: string | s != [] witness "."

  /** One answer: the SSML text spoken aloud and the plain text shown on the card. */
  datatype Entry = Entry(response: SpokenText, cardResponse: PlainText)

  /** An answer spoken without a pause. */
  function Answer(response: PlainText, cardResponse: PlainText): (e: Entry)
    ensures e.response == response && e.cardResponse == cardResponse
    ensures !HasBreak(e.response)
  {
    PlainTextHasNoBreak(response);
    Entry(response, cardResponse)
  }

  /** An answer whose spoken text pauses for `time` between `before` and `after`. */
  function PausedAnswer(before: string, time: string, after: string, cardResponse: PlainText): (e: Entry)
    ensures e.cardResponse == cardResponse
    ensures HasBreak(e.response)
  {
    PauseIsBreak(before, time, after);
    Entry(before + Pause(time) + after, cardResponse)
  }

  // The answers in source order. Long literals are written as concatenations
  // of shorter pieces; the resulting strings are the same.
  const ItSeemsCertain := Answer("It seems certain", "It seems certain")
  const DecidedlySo := Answer("It is decidedly so", "It is decidedly so")
  const WithoutADoubt := Answer("Without a doubt dude", "Without a doubt dude")
  const YesDefinitely := PausedAnswer("Yes, ", "0.05s", " definitely", "Yes, definitely")
  const RelyOnIt := Answer("You may rely on it", "You may rely on it")
  const AsISeeIt := PausedAnswer("As I see it, ", "0.05s", " yes", "As I see it, yes")
  const MostLikely := PausedAnswer("Most likely, ", "0.05s", " man", "Most likely, man")
  const OutlookGood := Answer("Outlook is good", "Outlook is good")
  const YesSilly := PausedAnswer("Yes, ", "0.1s", " silly", "Yes, silly")
  const SignsPointToYes := PausedAnswer("Signs point to yes, ", "0.05s", " I guess", "Signs point to yes, I guess")
  const ReplyHazy := Answer("Reply hazy try again " + "when I actually care",
                            "Reply hazy try again " + "when I actually care")
  const AskAgainLater := PausedAnswer("Ask again later, ", "0.05s", " dude", "Ask again later, dude")
  const BetterNotTell := PausedAnswer("Ouch, ", "0.05s", " better not tell you now", "Ouch, better not tell you now")
  const CannotPredict := PausedAnswer("Cannot predict now, ", "0.1s", " I'm sleepy", "Cannot predict now, I'm sleepy")
  const ThinkAboutIt := var opening := "Actually think " + "about what you " + "are asking me ";
                        Answer(opening + "and try asking again", opening + "and try again")
  const DontCountOnIt := PausedAnswer("Don't count on it, ", "0.05s", " weirdo", "Don't count on it, weirdo")
  const JustNo := PausedAnswer("No ", "0.2s", " just no", "No...just no")
  const SourcesSayNo := Answer("My sources say no", "My sources say no")
  const NotSoGood := PausedAnswer("Ouch, ", "0.1s", " outlook is not so good bro", "Ouch, outlook is not so good bro")
  const VeryDoubtful := Answer("Very doubtful man", "Very doubtful man")

  /** The number of answers in the table. */
  const TableSize: nat := 20

  /** The table of answers, in source order; it is never changed. */
  function Table(): (t: seq<Entry>)
    ensures |t| == TableSize
  {
    [ ItSeemsCertain, DecidedlySo, WithoutADoubt, YesDefinitely, RelyOnIt,
      AsISeeIt, MostLikely, OutlookGood, YesSilly, SignsPointToYes,
      ReplyHazy, AskAgainLater, BetterNotTell, CannotPredict, ThinkAboutIt,
      DontCountOnIt, JustNo, SourcesSayNo, NotSoGood, VeryDoubtful ]
  }

  /** No card carries an SSML pause, whatever the answer. */
  lemma CardHasNoBreak(e: Entry)
    ensures !HasBreak(e.cardResponse)
  {
    PlainTextHasNoBreak(e.cardResponse);
  }
}

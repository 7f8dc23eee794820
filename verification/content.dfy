/** The two content catalogs of the game as immutable records: scenario cards
    (each with two options carrying gauge effects) and quiz questions, plus the
    decision-log entry that a choice produces. */
module Content {

  datatype Option<+T> = None | Some(value: T)

  /** The effect map of a card option: gauge name to a signed delta. Keys that
      are not gauge names are carried but never read. */
  type Effects = map<string, int>

  /** One of the two options of a card (the "optionA" / "optionB" objects). */
  datatype CardOption = CardOption(text: string, explanation: string, effects: Effects)

  /** A scenario card; its "question" key may be absent. */
  datatype Card = Card(question: Option<string>, optionA: CardOption, optionB: CardOption)

  /** A quiz question; "question" and "explanation" may be absent, "answer" may not. */
  datatype QuizQuestion = QuizQuestion(question: Option<string>, answer: string, explanation: Option<string>)

  /** One decision of the current run ("situation", "choix", "explanation"). */
  datatype LogEntry = LogEntry(situation: string, choice: string, explanation: string)

  const MissingQuestion: string := "Question non définie"
  const MissingExplanation: string := "Aucune explication"

  /** The value of an optional text key, or `default` when the key is absent. */
  function OrDefault(o: Option<string>, default: string): string
  {
    match o
    case Some(v) => v
    case None => default
  }

  /** The situation text logged for a card: its question, or the default text. */
  function CardQuestion(card: Card): string
  {
    OrDefault(card.question, MissingQuestion)
  }

  /** The option a choice letter selects; only "A" and "B" select one. */
  function Chosen(card: Card, choice: string): (opt: Option<CardOption>)
    ensures choice == "A" ==> opt == Some(card.optionA)
    ensures choice == "B" ==> opt == Some(card.optionB)
    ensures opt.None? <==> choice != "A" && choice != "B"
  {
    if choice == "A" then Some(card.optionA)
    else if choice == "B" then Some(card.optionB)
    else None
  }

  /** The log entry recording that `opt` was chosen on `card`. */
  function EntryFor(card: Card, opt: CardOption): LogEntry
  {
    LogEntry(CardQuestion(card), opt.text, opt.explanation)
  }
}

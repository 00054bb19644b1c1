/** The skill's localized message table (`languageStrings`) and the lookup the
    voice runtime builds from it (`this.t`). */
module Locale {

  /** The message keys the skill looks up. */
  datatype Key =
    | SkillName
    | Sorry
    | CanteenClosedToday
    | HelpMessage
    | HelpReprompt
    | StopMessage
    | For
    | AsWellAs
    | EnjoyYourMeal
    | TodayInTheCanteen

  /** A key-to-text lookup: what the handler context's `t` gives the formatter. */
  type Lookup = Key -> string

  /** The key as the tables spell it. */
  function KeyName(k: Key): string
  {
    match k
    case SkillName => "SKILL_NAME"
    case Sorry => "SORRY"
    case CanteenClosedToday => "CANTEEN_CLOSED_TODAY"
    case HelpMessage => "HELP_MESSAGE"
    case HelpReprompt => "HELP_REPROMPT"
    case StopMessage => "STOP_MESSAGE"
    case For => "FOR"
    case AsWellAs => "AS_WELL_AS"
    case EnjoyYourMeal => "ENJOY_YOUR_MEAL"
    case TodayInTheCanteen => "TODAY_IN_THE_CANTEEN"
  }

  /** The keys the lunch formatter and the error path read. */
  const FormatterKeys: set<Key> :=
    {Sorry, CanteenClosedToday, For, AsWellAs, EnjoyYourMeal, TodayInTheCanteen}

  const EnglishStrings: map<Key, string> := map[
    SkillName := "Studentenfutter",
    Sorry := "I am sorry.",
    CanteenClosedToday := "The canteen is closed today.",
    HelpMessage := "You can say, „Frage Studentenfutter, was es heute in der Mensa gibt“, or you can say „Stop“... How can I help you?",
    HelpReprompt := "How can I help you?",
    StopMessage := "Talk to you later!",
    For := "for",
    AsWellAs := "as well as",
    EnjoyYourMeal := "Enjoy your meal!",
    TodayInTheCanteen := "Todays lunches for the canteen are"
  ]

  const GermanStrings: map<Key, string> := map[
    SkillName := "Studentenfutter",
    Sorry := "Es tut mir Leid.",
    CanteenClosedToday := "Die Mensa hat heute geschlossen.",
    HelpMessage := "Du kannst sagen, „Frage Studentenfutter, was es heute in der Mensa gibt“, oder du kannst „Beenden“ sagen... Wie kann ich dir helfen?",
    HelpReprompt := "Wie kann ich dir helfen?",
    StopMessage := "Auf Wiedersehen!",
    For := "für",
    AsWellAs := "sowie",
    EnjoyYourMeal := "Guten Appetit!",
    TodayInTheCanteen := "Heute gibt es in der Mensa"
  ]

  /** The resource table, keyed by locale tag. */
  const LanguageStrings: map<string, map<Key, string>> := map[
    "en-US" := EnglishStrings,
    "de-DE" := GermanStrings
  ]

  /** The lookup for a locale tag. A key the table lacks (or a tag with no
      table) reads as the key's own name, the translation library's default. */
  function Translator(tag: string): Lookup
  {
    k => if tag in LanguageStrings && k in LanguageStrings[tag] then LanguageStrings[tag][k] else KeyName(k)
  }

  /** Both shipped locales define every key, so no lookup for them falls back
      to a key name. */
  lemma ShippedTablesAreComplete()
    ensures LanguageStrings.Keys == {"en-US", "de-DE"}
    ensures forall tag, k: Key :: tag in LanguageStrings ==> k in LanguageStrings[tag]
    ensures forall tag :: tag in LanguageStrings ==> FormatterKeys <= LanguageStrings[tag].Keys
  {
    forall tag, k: Key | tag in LanguageStrings ensures k in LanguageStrings[tag] {
      assert tag == "en-US" || tag == "de-DE";
      match k
      case SkillName =>
      case Sorry =>
      case CanteenClosedToday =>
      case HelpMessage =>
      case HelpReprompt =>
      case StopMessage =>
      case For =>
      case AsWellAs =>
      case EnjoyYourMeal =>
      case TodayInTheCanteen =>
    }
  }

  /** For a shipped locale, the lookup returns exactly the table's entry. */
  lemma TranslatorReadsTable(tag: string, k: Key)
    requires tag in LanguageStrings
    ensures Translator(tag)(k) == LanguageStrings[tag][k]
  {
  }
}

# Studentenfutter lunch announcer, modelled in Dafny

Studentenfutter is a voice skill that reads out today's lunches at a student
canteen. It asks a REST service for today's menu. It keeps the main dishes
(category `Hauptgericht`). Then it speaks one sentence in the listener's locale
(`en-US` or `de-DE`): a header, each dish with its student price, the connective
"as well as" / "sowie" before the last dish, and "enjoy your meal". If there is
no main dish, or the request fails, it speaks a fixed apology instead.

The model has four modules:

- `Locale` (`locale.dfy`): the message keys, the two shipped string tables, the
  resource map keyed by locale tag, and `Translator`, the key-to-text lookup
  that the formatter receives as the handler context's `t`.
- `Lunches` (`lunches.dfy`): menu items, the category labels, and the
  formatter. `FormatTodayLunches` is a method with the same three loops as the
  source. The first loop filters the main dishes. The second builds one phrase
  per dish. The third appends the phrases to the accumulator, with a special
  branch for the last index. The method is proved equal to the specification
  function `Spoken`, which is defined from `MainDishes`, `Partials`, `Listed` and
  `Sentence`. The lemmas about those functions state what the sentence looks like.
- `Fetch` (`fetch.dfy`): what `getLunches` passes to its callback. The request's
  outcome is a parameter: a parsed body or a transport error.
- `Scenarios` (`scenarios.dfy`): the exact sentences for concrete menus in both
  locales.

The formatter is modelled as the code behaves, quirks included. With two or
more dishes, the separator `", "` after the second-to-last phrase is followed by
the `" "` that opens the last-item text, so a double space comes before the
connective. With a single dish, the last-item branch still runs. The sentence
is then header, two spaces, connective, dish:
`Todays lunches for the canteen are  as well as Schnitzel for 3.50. Enjoy your meal!`.
One might expect the single-dish sentence without the connective
(`Todays lunches for the canteen are Schnitzel for 3.50. ...`). The code at
`skill-studentenfutter.js:113-118` does not produce it, and this model follows
the code (`Lunches.SingleDish`, `Scenarios.EnglishSingleDish`).

The doc comment of `formatTodayLunches` (`skill-studentenfutter.js:81-82`) says
it returns an empty phrase when no lunches are available. The code at
`skill-studentenfutter.js:99-101` returns the apology instead, and this model
follows the code (`Lunches.ClosedWhenNoMainDish`).

## Model

| member | source | states |
|---|---|---|
| `Locale.ShippedTablesAreComplete` | skill-studentenfutter.js:21-50 | Exactly two locales ship, `en-US` and `de-DE`. Each table defines every key, including the six keys the formatter and the error path read. |
| `Locale.TranslatorReadsTable` | skill-studentenfutter.js:21-50 | For a shipped locale, the lookup returns exactly that table's entry for every key, so the formatter never sees a missing key. |
| `Lunches.MainDishes` | skill-studentenfutter.js:92-97 | The filtered list is never longer than the menu. |
| `Lunches.MainDishesMembers` | skill-studentenfutter.js:92-97 | An item is in the filtered list if and only if it is on the menu and its category is `Hauptgericht`. |
| `Lunches.MainDishesAppend` | skill-studentenfutter.js:92-97 | Filtering distributes over concatenation: the main dishes of `a + b` are those of `a` followed by those of `b`, so menu order is kept. |
| `Lunches.MainDishesOfOne` | skill-studentenfutter.js:15-19 | A single item is kept exactly when its category is `Hauptgericht`. `Beilagen` and `Nachspeise` items are dropped. |
| `Lunches.NonMainItemIsSilent` | skill-studentenfutter.js:92-97 | Inserting an item that is not a main dish (a `Beilagen`, `Nachspeise` or unknown-category item) anywhere in the menu leaves the spoken result unchanged, so such items never reach the output. |
| `Lunches.NoMainDishIffEmpty` | skill-studentenfutter.js:92-99 | The filtered list is empty if and only if no item on the menu is a main dish. |
| `Lunches.ClosedWhenNoMainDish` | skill-studentenfutter.js:99-101 | With no main dish (the empty menu included), the result is exactly `t(SORRY) + " " + t(CANTEEN_CLOSED_TODAY)`. |
| `Lunches.PartialsPointwise` | skill-studentenfutter.js:103-106 | There is one phrase per main dish, in order. Phrase `i` is `name + " " + t(FOR) + " " + priceStudent` of dish `i`. |
| `Lunches.FormatTodayLunches` | skill-studentenfutter.js:87-122 | The three loops compute `Spoken(json, t)`: the apology when no main dish is on the menu, otherwise header + `" "`, every phrase but the last followed by `", "`, then `" " + t(AS_WELL_AS) + " "`, the last phrase, `". "` and `t(ENJOY_YOUR_MEAL)`. The loop invariant says that after `k < n` steps the accumulator is the header, a space and the first `k` phrases, each followed by `", "`. |
| `Lunches.SpokenFrame` | skill-studentenfutter.js:108-119 | With at least one main dish, the sentence starts with `t(TODAY_IN_THE_CANTEEN) + " "` and ends with `". " + t(ENJOY_YOUR_MEAL)`. |
| `Lunches.SentenceFrame` | skill-studentenfutter.js:108-119 | For any non-empty list of phrases, the sentence starts with the header and ends with `". "` and the closing wish. |
| `Lunches.SingleDish` | skill-studentenfutter.js:110-118 | With exactly one main dish, the last-item branch still runs: the result is `t(TODAY_IN_THE_CANTEEN) + "  " + t(AS_WELL_AS) + " " + dish + ". " + t(ENJOY_YOUR_MEAL)`. |
| `Lunches.SeveralDishes` | skill-studentenfutter.js:110-118 | With two or more main dishes, the second-to-last phrase is followed by `", "` and then `" "` before the connective (a double space). Only the last phrase follows the connective. |
| `Lunches.SentenceOfSeveral` | skill-studentenfutter.js:110-118 | The same shape for any list of two or more dishes: the list part, then the second-to-last phrase with `", "`, then `" "`, the connective and the last phrase. |
| `Lunches.ListedContains` | skill-studentenfutter.js:110-114 | Every phrase occurs in the comma-separated list part. |
| `Lunches.SentenceContains` | skill-studentenfutter.js:110-118 | Every phrase, the last included, occurs in the sentence. |
| `Lunches.EveryMainDishIsSpoken` | skill-studentenfutter.js:103-119 | Every main dish on the menu is spoken as `name + " " + t(FOR) + " " + priceStudent` somewhere in the result. |
| `Fetch.TransportErrorReadsAsClosed` | skill-studentenfutter.js:68-75 | A transport error yields the same text as a menu with no main dish and as the empty menu, for the same lookup. |
| `Scenarios.EnglishSingleDish` | skill-studentenfutter.js:108-118 | In `en-US`, one Schnitzel at 3.50 gives `Todays lunches for the canteen are  as well as Schnitzel for 3.50. Enjoy your meal!`. |
| `Scenarios.MixedMenuMainDishes` | skill-studentenfutter.js:92-97 | From Suppe, a `Beilagen` item, a `Nachspeise` item and Pasta, the filter keeps Suppe and Pasta in that order. |
| `Scenarios.GermanTwoDishes` | skill-studentenfutter.js:103-119 | In `de-DE`, that menu gives `Heute gibt es in der Mensa Suppe für 2.00,  sowie Pasta für 3.00. Guten Appetit!`. |
| `Scenarios.EnglishApology` | skill-studentenfutter.js:99-101 | In `en-US`, the empty menu gives `I am sorry. The canteen is closed today.`. |
| `Scenarios.GermanApology` | skill-studentenfutter.js:99-101 | In `de-DE`, the empty menu gives `Es tut mir Leid. Die Mensa hat heute geschlossen.`. |
| `Scenarios.TransportErrorApology` | skill-studentenfutter.js:73-75 | In each locale, a failed request gives the same apology as the empty menu. |

## Left out

- The HTTPS request in `getLunches` is not modelled (`skill-studentenfutter.js:59-78`). This covers the host, path and authorization header, the UTF-8 chunk accumulation and the event callbacks. `Fetch.Outcome` stands for how the request ends: a parsed body or a transport error.
- `JSON.parse` is not modelled. The formatter receives an already-typed sequence of `MenuItem`. The source has two behaviours here that `Fetch.Outcome` represents neither of. A body that is not JSON makes `JSON.parse` throw inside the `end` listener (`skill-studentenfutter.js:68-70`): the exception escapes, the callback is never called, and nothing is spoken. A JSON object, number or boolean body has no `length`, so the filtering loop does not run and the apology is returned (`skill-studentenfutter.js:92-100`). A JSON string body also yields the apology, because its characters have no `category`. The body `null` makes `json.length` throw (`skill-studentenfutter.js:92`), with the same effect as a malformed body.
- The Alexa handler table, intent dispatch, the `:tell`/`:ask` emits and `exports.handler` are not modelled (`skill-studentenfutter.js:124-173`). They route through a library this model does not contain. The tables also keep `SKILL_NAME`, `HELP_MESSAGE`, `HELP_REPROMPT` and `STOP_MESSAGE`. The handlers speak only `HELP_MESSAGE` (also as the reprompt, `skill-studentenfutter.js:147`) and `STOP_MESSAGE`.
- `process.env` (the application id and the auth secret) and `console.log` are not modelled.
- The translation library behind `this.t` is not part of this model. `Locale.Translator` reads the shipped table. For a key or locale the tables lack, it returns the key's own name, which is the library's default. `Locale.ShippedTablesAreComplete` shows that this fallback is never reached for the shipped locales.
- JavaScript's loose `==` on the category is modelled as string equality. `priceStudent` is modelled as a string that is spoken verbatim. A numeric price, and its conversion to text, are not modelled.
- The source's arrays `mainLunches` and `spokenPartials` are modelled as `seq` values that each loop extends. Nothing else holds a reference to them, so no aliasing is lost.

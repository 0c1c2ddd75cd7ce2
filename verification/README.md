# Unsent words message board — a Dafny model

The board lets a visitor post a card "To: <recipient>" with a message, lists all
cards, searches them by recipient and shows up to eight of the day's cards as
"messages of the day". Two scripts carry the logic:

- `public/script.js` persists cards in the document collection `messages`,
  searches through the lower-cased shadow field `recipient_lower`, and lists the
  day's cards through a half-open timestamp window.
- `scripts/script.js` is a local-only variant: it checks lengths, prepends the card
  to the page, and gives each card a like button.

This project models the rules of both scripts as pure functions over immutable
data. The document collection is a sequence of records. Each store call
(`addDoc`, `getDocs`) has its own success-or-failure outcome, passed to the
operation that issues it. Each page region is the list of nodes it shows.

| file | module | models |
|---|---|---|
| `optional.dfy` | `Optional` | optional document fields |
| `text.dfy` | `Text` | `trim`, ASCII `toLowerCase`, decimal numerals and `parseInt` |
| `listing.dfy` | `Listing` | order-preserving filter, the shape of both store queries |
| `counter.dfy` | `Counter` | `updateCounter`, both copies |
| `board.dfy` | `Board` | `public/script.js`: cards, display, load, submit, search, messages of the day |
| `composer.dfy` | `Composer` | `scripts/script.js`: validation, prepend, form reset, like toggle |

What the code does and does not do, as modelled:

- The persisted variant never checks lengths on submit. It only truncates while
  typing. Its only check is that neither field trims to nothing.
- The local variant checks only lengths, so empty fields pass.
- The stored document keeps the untrimmed text. Its `recipient_lower` is the
  lower-cased untrimmed recipient. The search key, however, is trimmed. So a
  recipient typed with surrounding spaces can only be listed by a blank search
  (`Board.UntrimmedRecipientNeverMatched`).
- `datePosted` is `Timestamp.now()`, taken by the client at submission. It is
  a parameter `now`.
- User text is placed into markup unescaped. The model makes no escaping claim.
- The highlights come from a random-comparator sort. This is modelled as any
  permutation of the day's listing.

## Model

| member | source | states |
|---|---|---|
| Text.Trim | public/script.js:161-162 | the trimmed text is a slice of the input with an all-white-space part cut before it and after it; it is empty exactly when every character is white space, and it never begins or ends with white space |
| Text.TrimAround | public/script.js:161-162 | trimming text that has white space around it and none at its own borders gives back exactly that text |
| Text.TrimOfTrimmed | public/script.js:161-162 | trimming text that has no border white space gives it back unchanged, so trimming twice equals trimming once |
| Text.LowerKeepsSpace | public/script.js:191 | lower-casing maps white space to white space and nothing else to white space |
| Text.ParseDecimalOfDecimal | scripts/script.js:98-104 | reading back with `parseInt` the count written into `textContent` yields the same number |
| Listing.Filter | public/script.js:199-202 | a query result holds only matching documents, and every matching document of the collection is in it |
| Listing.FilterAppend | public/script.js:199-202 | the result of a query over two parts is the two parts' results in order, so store order is kept |
| Listing.FilterCount | public/script.js:199-202 | each matching document occurs in the result as often as in the collection; non-matching ones never occur |
| Counter.UpdateCounter | public/script.js:28-46 | the field keeps a prefix of its text of length min(length, limit); the caption is "<len> / <limit> characters"; `exceeded` is set iff the kept length is at least the limit, and `text-muted` iff it is not |
| Counter.UpdateCounterCutFirst | scripts/script.js:7-22 | the same prefix, length and flag guarantees for the local variant's copy |
| Counter.CounterCopiesAgree | scripts/script.js:7-22 | the two copies of the counter leave field and counter in identical states for every text and limit |
| Counter.UpdateCounterIdempotent | public/script.js:28-46 | updating the counter a second time on the truncated text changes nothing |
| Counter.FlaggedFromLimit | public/script.js:32-45 | a text of exactly `limit` characters is kept whole and flagged; a shorter one is kept whole and not flagged |
| Counter.ClearedField | public/script.js:63-68 | an emptied field with a positive limit shows "0 / limit characters", muted and unflagged |
| Counter.EmptyCaptions | public/script.js:24-25 | the emptied counters read "0 / 32 characters", "0 / 300 characters" and "0 / 500 characters" |
| Board.Channel | public/script.js:83-86 | each background colour channel drawn from `Math.random` is an integer in 155..254 |
| Board.DisplayMessages | public/script.js:114-134 | the region is cleared; an absent or empty snapshot leaves only the "No messages found." placeholder, otherwise exactly one card per document in snapshot order |
| Board.DisplayedCardsMatch | public/script.js:71-105 | the card at each position shows that document's recipient and message ("undefined" for a missing field), "Unknown Date" when it has no `datePosted`, and `fmt` of its timestamp otherwise |
| Board.UnknownDateIffUndated | public/script.js:77-82 | for a date formatter that never yields the placeholder, as the month-day-year format does not, a card reads "Unknown Date" exactly when its document has no `datePosted` |
| Board.LoadMessages | public/script.js:138-154 | a failed fetch shows only "Error loading messages."; an empty collection shows the placeholder; otherwise one card per document |
| Board.ResetForm | public/script.js:63-68 | both fields are empty and the counters read "0 / 32 characters" and "0 / 300 characters", unflagged and muted |
| Board.Submit | public/script.js:157-185 | a field that trims to nothing means no write and an unchanged page; a failed write also leaves the page unchanged; otherwise exactly one document is added with the untrimmed recipient and message, the lower-cased recipient and the submission time, the old documents untouched, the form reset, and the listing reloaded, or replaced by "Error loading messages." when that separate fetch fails |
| Board.SubmitShowsNewCard | public/script.js:169-180 | after a successful submission and reload the listing has one card per document, one more than before, and one of them shows what was typed and the formatted submission time |
| Board.SearchKey | public/script.js:191-193 | the search key is empty exactly for a blank query, and never begins or ends with white space |
| Board.SearchKeyIgnoresBorderAndCase | public/script.js:191 | the key of a query is the lower-cased text between its leading and trailing white space |
| Board.Search | public/script.js:190-210 | a blank query reloads the full listing; otherwise a failed query shows "Error filtering messages.", and a successful one displays the documents whose `recipient_lower` equals the key; the store, form and highlights do not change |
| Board.AddressedExactly | public/script.js:199-205 | a document is found iff it is in the collection and its shadow field equals the key, and results keep store order |
| Board.UntrimmedRecipientNeverMatched | public/script.js:170-200 | a recipient stored with leading or trailing white space never equals the key of a non-blank search |
| Board.SubmitThenSearchFinds | public/script.js:170-205 | searching for a submitted name that has no border spaces, with any white space around the query and in any letter case, finds the document just written, and the search listing shows its card |
| Board.DayListingWindow | public/script.js:253-265 | a document is in the day listing iff its `datePosted` lies in [startOfToday, startOfTomorrow): the start is included, the next day's start and a missing date are excluded |
| Board.PickOfTheDay | public/script.js:268-272 | the picks are min(8, n) documents drawn from distinct positions of the day's n results, and all of them when n is at most 8 |
| Board.LoadMessagesOfTheDay | public/script.js:247-298 | a failed query shows "Error loading messages of the day."; an empty day shows only "No messages found for today."; otherwise the cards of min(8, n) documents taken from distinct positions of the day's n results, all of them when n is at most 8; nothing outside the highlights region changes |
| Composer.Validate | scripts/script.js:38-48 | a recipient over 32 characters is rejected with the recipient error whatever the message; otherwise a message over 500 is rejected with the message error; everything else is accepted |
| Composer.EmptyFieldsAccepted | scripts/script.js:38-51 | an empty recipient and an empty message pass validation |
| Composer.CountedInputAccepted | scripts/script.js:7-48 | text that has passed through both counters always passes validation |
| Composer.Cleared | scripts/script.js:109-121 | a reset field is empty and its counter reads "0 / limit characters", muted and unflagged |
| Composer.Submit | scripts/script.js:32-122 | the alert is hidden first and ends hidden iff the submission is accepted; a rejection shows its reason and changes neither fields nor cards; an acceptance keeps the alert text, prepends exactly one card with the typed text and an empty heart at "0", and resets both fields to "0 / 32 characters" and "0 / 500 characters" |
| Composer.Toggle | scripts/script.js:92-105 | a click flips the heart; from filled the count drops by one but not below zero, from empty it rises by one |
| Composer.ToggleKeepsConsistent | scripts/script.js:92-105 | a click preserves "filled iff the count is 1, the count is 0 or 1" |
| Composer.LikesStayConsistent | scripts/script.js:75-105 | starting from an empty heart at "0", after any number of clicks the heart is filled iff the count is 1 |
| Composer.ToggleTwice | scripts/script.js:92-105 | two clicks restore the filled state, and restore the count unless the heart was filled at 0 |
| Composer.TwoClicksRestore | scripts/script.js:75-105 | on a card's heart, two more clicks always give back exactly the same state |

## Left out

- Firebase initialisation and the store calls (`addDoc`, `getDocs`, `query`, `where`) are network I/O. The collection is a sequence of records, and each call's outcome is a boolean parameter.
- DOM element lookups, listener registration, the three `DOMContentLoaded` handlers that reload repeatedly, `alert` and `console` logging are page wiring.
- The early return when a container element is missing is page wiring too.
- The ordering of overlapping asynchronous fetches is not modelled. The source has no sequence tagging, and this is concurrency.
- Local-time `Date` construction, time zones and `toLocaleDateString` are left out. Timestamps are integers, and the day boundaries are parameters. The date formatter is an abstract function `fmt`, and the local variant's date is a parameter `today`.
- The random comparator of the shuffle is an input `shuffled`, required to be a permutation of the day's listing. Its distribution is not modelled.
- Board.Channel: the card colour is not carried into `Card`. Only the channel bound is stated, with `Math.random` read as a real in [0, 1).
- HTML templating and SVG markup are left out. User text is not escaped in the source, and no escaping property is claimed.
- `toLowerCase` is ASCII only. `trim` uses ECMAScript's white space and line terminator set. String length counts characters, not UTF-16 units.
- A `datePosted` that is not a store timestamp is treated like a missing one ("Unknown Date").
- A `recipient` or `message` field holding something other than a string is not modelled. A missing one is modelled and shows as "undefined".
- Board.SubmitShowsNewCard, Board.SubmitThenSearchFinds: these state membership and count only. The store promises no order (there is no `orderBy`). The model lists documents in sequence order, with a new document added at the end, but claims nothing from that order.
- Composer.Toggle: the count text is assumed to be a decimal numeral, as every text the script writes is. `parseInt` of other text, and `NaN`, are not modelled.
- Board.LoadMessages: for a non-empty collection it states the number and kind of nodes. The card contents follow from Board.DisplayMessages and Board.DisplayedCardsMatch.
- The loading, loaded and error states of a board controller are not modelled. The source has no such state; each region is simply replaced.

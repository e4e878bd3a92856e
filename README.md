# Deck-list line classifier and card-lookup cache

A Dafny model of the two pieces of logic in the deck-list block of
`magic-block`:

- **`parseLine`** (`card_parser.dfy`, module `CardParser`). It classifies one line
  of a plain-text deck list into one of three immutable variants: `Comment(value)`,
  `Card(cardname, count)` or `Uncertain(line)`.
  - A line that starts with `#` or `//` is a comment. Its text is kept verbatim.
  - Otherwise, if the unanchored regular expression `/(\d+) (.*)/` matches, the line
    is a card. The count is the decimal value of the digits. The name is everything
    after the single space, up to the first line terminator.
  - Otherwise the line is uncertain. Its text is kept verbatim.
  The regular expression is modelled by what it means. `IsCountAt(s, i, j)` holds
  when `s[i..j]` are ASCII digits and `s[j]` is a space. `IsLeftmostCount` adds that
  no earlier start position matches. `FindCount` is the left-to-right search, and
  its contract ties it to that definition. The captured name is `LineText`, the
  text before the first `\n`, `\r`, U+2028 or U+2029. These are the characters the
  regular-expression `.` does not match. The `i` flag has no effect because the
  pattern holds no letters.
- **`CardDB.getCard`** (`card_data.dfy`, module `CardData`). A cache from exact card
  name to `MaybeCard` (a card, or `CardNotFound`).
  - A hit answers the stored value and asks nothing of the card service.
  - On a miss, a found card is cached and answered.
  - On a miss, a 404 is cached as `CardNotFound` and answered.
  - On a miss, any other error answers `CardNotFound` and caches nothing.
  The class `CardDB` keeps the map in a mutable field. `GetCard` is specified by the
  pure step `CacheStep`. A ghost field `requested` logs the names sent to the
  service. `Replay` runs a sequence of calls, and the lemmas about it state what
  holds across calls. Cached entries are permanent. A 404 is remembered. A
  transient error is retried.

What `parseLine` does not do, and the model with it:
- it has no blank-line variant, so `""` is `Uncertain`;
- it skips no whitespace before `#` or `//`, so `" # x"` is not a comment;
- it reads no set code and no collector number;
- it accepts a zero count, so `"0 x"` is a card with count 0;
- it skips any text before the count, so `"abc 4 Bolt"` is a card.

`parseLine` is a Dafny function, so it is total and deterministic by construction.
Its contract states that the three variants are mutually exclusive and exhaustive.

## Model

| member | source | states |
|---|---|---|
| `CardParser.ParseLine` | src/blocks/decklist-block/cardParser.ts:32-43 | A result is a comment exactly when the line starts with `#` or `//`, and then holds the line verbatim. It is uncertain exactly when the line is no comment and has no digit run followed by a space, and then holds the line verbatim. A card result is built from the leftmost such match. |
| `CardParser.DigitRunEnd` | src/blocks/decklist-block/cardParser.ts:35 | Gives the end of the maximal run of ASCII digits from a position: every character before it is a digit, and the character at it is not. |
| `CardParser.CountEndsAtRunEnd` | src/blocks/decklist-block/cardParser.ts:35 | A match of `(\d+) ` starting at a position must end at the end of that position's digit run. The greedy `\d+` has nothing to backtrack to. |
| `CardParser.FindCount` | src/blocks/decklist-block/cardParser.ts:35-37 | The search gives a match that no earlier start position (from where it began) can beat. It gives none exactly when no start position matches. |
| `CardParser.NoCountAt` | src/blocks/decklist-block/cardParser.ts:35-37 | No match starts at a non-digit, or at a digit whose run is not followed by a space. |
| `CardParser.LineText` | src/blocks/decklist-block/cardParser.ts:35 | The `(.*)` capture is a prefix of the rest of the line. It contains no line terminator, and it stops only at a terminator or at the end. |
| `CardParser.LineTextWhole` | src/blocks/decklist-block/cardParser.ts:35 | Text without line terminators is captured whole. |
| `CardParser.LineTextStops` | src/blocks/decklist-block/cardParser.ts:35 | The capture stops at the first line terminator. |
| `CardParser.LeftmostCountUnique` | src/blocks/decklist-block/cardParser.ts:35-36 | Two leftmost matches of a line are the same match, so the classification is well defined. |
| `CardParser.ParseLineCard` | src/blocks/decklist-block/cardParser.ts:35-41 | For a non-comment line with leftmost match `s[i..j]`, the result is a card. Its count is the decimal value of `s[i..j]`, and its name is the capture after `s[j]`. |
| `CardParser.LeftmostCountStartsRun` | src/blocks/decklist-block/cardParser.ts:35-38 | The reported digits are a whole run: the character before them, if any, is not a digit. |
| `CardParser.ParseLineRecompose` | src/blocks/decklist-block/cardParser.ts:35-42 | For a card line without line terminators, the line is the skipped prefix, then the digits, then one space, then the card name. |
| `CardParser.FirstDigitLeftmost` | src/blocks/decklist-block/cardParser.ts:35-36 | A match with no digit before it is the leftmost match. |
| `CardParser.NoDigitNoCount` | src/blocks/decklist-block/cardParser.ts:36-42 | A line with no digit has no match. |
| `CardParser.DecimalValue` | src/blocks/decklist-block/cardParser.ts:40 | The count is the exact value of the digit string, read from the most significant digit, and a string of n digits is worth less than 10^n. `DecimalValueOfDigits` and `DigitsOfDecimalValue` pin it as the inverse of the decimal spelling. |
| `CardParser.DecimalValueOfDigits` | src/blocks/decklist-block/cardParser.ts:40 | `parseInt` reads back every number from its decimal spelling. |
| `CardParser.DigitsOfDecimalValue` | src/blocks/decklist-block/cardParser.ts:40 | Spelling the value of a digit string with no leading zero gives that string back. |
| `CardParser.LeadingZeroIgnored` | src/blocks/decklist-block/cardParser.ts:40 | A leading zero does not change the count. |
| `CardParser.CommentExamples` | src/blocks/decklist-block/cardParser.ts:33-34 | `"#4 Bolt"` and `"// 2 x"` are comments: the comment test comes before the count test. |
| `CardParser.CardExamplePlain` | src/blocks/decklist-block/cardParser.ts:35-41 | `"4 Lightning Bolt"` is the card "Lightning Bolt" with count 4. |
| `CardParser.CardExampleZero` | src/blocks/decklist-block/cardParser.ts:35-41 | `"0 x"` is a card with count 0. |
| `CardParser.CardExampleEmptyName` | src/blocks/decklist-block/cardParser.ts:35-41 | `"4 "` is a card with an empty name. |
| `CardParser.CardExampleSkipsPrefix` | src/blocks/decklist-block/cardParser.ts:35-41 | `"abc 4 Bolt"` is the card "Bolt" with count 4. |
| `CardParser.CardExampleLeadingZero` | src/blocks/decklist-block/cardParser.ts:35-41 | `"04 x"` has count 4. |
| `CardParser.CardExampleStopsAtReturn` | src/blocks/decklist-block/cardParser.ts:35-41 | `"4 Bolt\r"` is the card "Bolt": the name stops at the carriage return. |
| `CardParser.UncertainExamples` | src/blocks/decklist-block/cardParser.ts:33-42 | `" # x"` and `""` are uncertain and keep their text: the comment test skips no whitespace. |
| `CardParser.UncertainExampleNoCount` | src/blocks/decklist-block/cardParser.ts:35-42 | `"Lightning Bolt"` is uncertain and keeps its text. |
| `CardParser.UncertainExampleNoSpace` | src/blocks/decklist-block/cardParser.ts:35-42 | `"4Bolt"` is uncertain: its digit is not followed by a space. |
| `CardData.CacheStep` | src/blocks/decklist-block/cardData.ts:14-36 | The service is asked exactly on a miss. A hit answers the stored value and changes nothing. A miss answers the found card, or `CardNotFound` for any error. It caches the answer exactly when the error is not a transient one. Only the requested key may be added, and no existing entry changes. |
| `CardData.ReplayKeepsEntries` | src/blocks/decklist-block/cardData.ts:12-35 | Across any sequence of calls, every cached entry stays, with its value. |
| `CardData.ReplayKeysRequested` | src/blocks/decklist-block/cardData.ts:23-29 | After a sequence of calls, every key was already cached or was requested by one of the calls. |
| `CardData.ReplayOtherNames` | src/blocks/decklist-block/cardData.ts:23-29 | Calls for other names neither add nor remove a name. |
| `CardData.CachedAnswerIsPermanent` | src/blocks/decklist-block/cardData.ts:15-30 | After a call for a name that did not end in a transient error, every later call for that name is a hit. It answers the same value as that call, which after a 404 is `CardNotFound`. |
| `CardData.TransientErrorIsRetried` | src/blocks/decklist-block/cardData.ts:31-34 | After a miss that ended in a non-404 error, the next call for that name asks the service again. |
| `CardData.KeysAreCaseSensitive` | src/blocks/decklist-block/cardData.ts:15 | Caching "Bolt" does not make "bolt" a hit. |
| `CardData.CardDB.constructor` | src/blocks/decklist-block/cardData.ts:12 | A new cache is empty and has asked the service for nothing. |
| `CardData.CardDB.GetCard` | src/blocks/decklist-block/cardData.ts:14-36 | The answer and the new map are those of `CacheStep` on the old map. The service is asked exactly on a miss. Every cached name has been requested, and this invariant is kept. |

## Left out

- `CardParser.DecimalValue`: the count is the exact value of the digits. JavaScript's `parseInt` loses precision on digit strings worth more than 2^53, which is floating-point behaviour.
- Strings are sequences of Unicode scalar values, not UTF-16 code units. The pattern only tests for ASCII digits, the space and the four line terminators, so the classification is the same.
- `index.tsx` is not part of this model. It covers rendering, CSS, the metadata click counter and the Scryfall link. Its `ListItem` repeats the `parseLine` classification, so `ParseLine` covers it. Its `content.split("\n")` leaves `\r` in lines, and `LineText` stops the name there.
- The card service (`getCardNamed` from scryfall-client) and its `Card` model are foreign code. The card is an opaque type parameter, and the service's answer is the `FetchOutcome` argument of `GetCard`.
- `CardData.CardDB.GetCard`: the method is synchronous. The source returns a promise, so two overlapping misses for one name can both ask the service. That interleaving is not modelled.
- The module-level singleton `cardLookup` is not modelled. Its behaviour is that of one `CardDB`.
- `CardData.CacheStep`: the map stands for the cache object's own keys. In the source the cache is a plain object and the hit test is the `in` operator, which also finds names inherited from `Object.prototype` (`constructor`, `toString`, `valueOf`, `hasOwnProperty`, `__proto__`, …). For those names the source answers the inherited member without asking the service and caches nothing. The model treats them like any other name, so for them it asks the service and caches its answer.
- `CardData.CardDB.GetCard`: for the same reason, a call for a name inherited from `Object.prototype` is a miss in the model but a hit in the source.

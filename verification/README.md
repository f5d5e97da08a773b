# I-Ching coin divination — a Dafny model of the rule core

The application simulates the three-coin I-Ching ritual. The user picks a question category and types a question. Six throws of three coins each are then counted and classified into lines. The six lines are reduced to the keys of the original hexagram and of the changed hexagram. The keys are looked up in a name table, and a prompt describing the reading goes to a remote text-generation service. Its reply is laid out line by line on the result page.

This project models that core and proves its properties:

- `types.dfy` (module `Types`): the value types of `types.ts`. These are the page steps, the six categories, the four line types, a throw record and the divination record.
- `text.dfy` (module `Text`): the JavaScript string operations the core uses. These are `split` and `join` on a one-character separator, `trim` over the ECMAScript whitespace code points, and `replace(/#/g, '')`. It also proves their round trips.
- `coin_thrower.dfy` (module `Coins`): the count-to-line rule as functions. The `CoinThrower` class holds the component's state (`throws`, `isSpinning`, `currentCoins`). Its methods are the click handler's guard (`StartThrow`), the landing of the coins (`Land`), and both together as one step (`HandleThrow`). The three coin faces are a parameter.
- `gemini.dfy` (module `Oracle`): the original and changed keys, the name lookup with its fallback, the prompt template and the mapping from the HTTP exchange to the service's result.
- `app.dfy` (module `AppFlow`): the `App` class holds the page state (`step`, `form`, `divinationData`, `resultText`, `loading`, `error`), and its methods are the handlers. This file also holds the result page's own key and name computation and the layout of the reply into headings, paragraphs and spacers.
- `scenarios.dfy` (module `Scenarios`): two worked readings and a client that clicks seven times. It also holds `OnCoinPage`, which brings a new application to the coin-throwing page, and two interleavings of the request with the back button (`BackThenReply` and `BackThenFailure`).

The name table (`HEXAGRAM_NAMES`) is a parameter of type `map<string, string>`. Its 64 entries live in `constants.ts`, which is not part of this model.

Facts about the code that the model makes explicit:

- Key order: the first throw's bit comes first in both keys. An old-yang first throw under five young-yang throws therefore gives the changed key "011111" (`Scenarios.BottomOldYang`).
- The service derives keys from any number of throws, and so do `Oracle.OriginalKey` and `Oracle.ChangedKey`. Only the coin thrower limits a reading to six throws.
- The service's `catch` replaces every error with one fixed message, including the message raised for a non-2xx status. `Oracle.Interpret` and the `App` error field therefore only ever hold that message.
- The request handler does not look at the current step when the answer arrives. A user who goes back while a request is outstanding is still taken to the result page by its reply (`Scenarios.BackThenReply`). A failure that arrives after going back is kept, and confirming the question again shows the error view instead of the coins (`Scenarios.BackThenFailure`).

## Model

| member | source | states |
|---|---|---|
| `Types.DivinationType.Label` | types.ts:9 | each category's display text is non-empty and holds no line break, so it fills exactly one prompt line |
| `Types.LabelInjective` | types.ts:9 | the six categories are quoted in the prompt by six distinct labels |
| `Coins.Sum` | components/CoinThrower.tsx:27 | the sum of the coin faces lies between 0 and the number of coins |
| `Coins.SumCountsInscribed` | components/CoinThrower.tsx:19-27 | the sum of the faces is the number of inscribed (value 1) faces |
| `Coins.Classify` | components/CoinThrower.tsx:28-38 | count 3 gives old yin, 2 yang, 1 yin, 0 old yang |
| `Coins.Points` | components/CoinThrower.tsx:31-34 | a line's value is 6..9; it is odd exactly for yang lines and 6 or 9 exactly for old lines |
| `Coins.ClassifyByPoints` | components/CoinThrower.tsx:30-38 | the line for a count is the one whose value is 2 per inscribed face plus 3 per other face |
| `Coins.ClassifyBijective` | components/CoinThrower.tsx:35-38 | on counts 0..3 each line type comes from exactly one count |
| `Coins.ThrowOf` | components/CoinThrower.tsx:20-40 | the recorded `heads` is the number of inscribed faces, lies in 0..3, and the line's value is 9 minus it |
| `Coins.CoinThrower.constructor` | components/CoinThrower.tsx:10-12 | no throws, not spinning, coins shown as 1,1,1 |
| `Coins.CoinThrower.StartThrow` | components/CoinThrower.tsx:14-16 | a throw starts exactly when fewer than six are recorded and none is spinning; starting sets the spinning flag |
| `Coins.CoinThrower.Land` | components/CoinThrower.tsx:20-47 | shows the coins, appends exactly the new throw after the unchanged earlier ones, clears spinning, and hands on the throws exactly when there are now six |
| `Coins.CoinThrower.HandleThrow` | components/CoinThrower.tsx:14-49 | a no-op when six are recorded or a spin is on; otherwise one throw is appended; the reading never exceeds six and every throw is well formed |
| `Oracle.OriginalKey` | services/gemini.ts:10 | one '0'/'1' per throw; character i is '1' iff throw i is yang or old yang |
| `Oracle.ChangedKey` | services/gemini.ts:11-15 | one '0'/'1' per throw; character i is '1' iff throw i is yang or old yin |
| `Oracle.KeysDifferExactlyAtOldLines` | services/gemini.ts:10-15 | the keys differ at position i iff line i is old |
| `Oracle.SameKeyIffNoOldLines` | services/gemini.ts:10-15 | the changed key equals the original key iff no line is old |
| `Oracle.Settle` | services/gemini.ts:11-15 | an old line turns into its opposite young line, a young line stays |
| `Oracle.ChangedIsOriginalOfSettled` | services/gemini.ts:10-15 | the changed key is the original key of the reading with every old line turned, and that reading's changed key is the same |
| `Oracle.LookupName` | services/gemini.ts:17-18 | never empty: the table's name when present and non-empty, otherwise "未知卦" |
| `Oracle.Resolve` | services/gemini.ts:10-18 | both keys have one character per throw and both names are non-empty |
| `Oracle.LineLabel` | services/gemini.ts:29 | a line's label starts with 老 for an old line and 少 for a young one, followed by 阳 or 阴 for its resting polarity |
| `Oracle.LineLabelInjective` | services/gemini.ts:29 | the four line labels are distinct; a label is its two-character name followed by "(动)" exactly for an old line, and just the two-character name otherwise |
| `Oracle.Decimal` | services/gemini.ts:29 | the line number is rendered as one or more decimal digits, with a leading '0' only for the number 0, and a number below ten is its single digit |
| `Oracle.DecimalRoundTrip` | services/gemini.ts:29 | reading the rendered digits back gives the line number |
| `Oracle.DetailLines` | services/gemini.ts:29 | one detail line per throw, the i-th numbered i+1 with the label of throw i |
| `Oracle.Prompt` | services/gemini.ts:20-39 | the prompt opens with the persona line followed by a line break; its line layout is stated by `PromptListsLines` |
| `Oracle.PromptIsLines` | services/gemini.ts:20-39 | for every non-empty reading, the prompt is the nine header lines (persona, category label, question, original name and key, changed name and key), one detail line per throw, and the ten trailer lines, joined by line breaks |
| `Oracle.PromptListsLines` | services/gemini.ts:20-39 | when the question and names hold no line break, splitting the prompt at line breaks gives back exactly those header, detail and trailer lines; so line 10 onward are the detail lines, bottom line first |
| `Oracle.Interpret` | services/gemini.ts:41-68 | the service replies exactly for a 2xx reply with a parsed body, with that content; every other case fails with "天地感应阻塞，请检查网络或 API 配置。" |
| `AppFlow.HexKey` | App.tsx:64 | one character per throw: '1' exactly for a yang or old-yang line, '0' exactly otherwise |
| `AppFlow.HexKeyIsOriginalKey` | App.tsx:64 | the result page's key equals the service's original key on every reading |
| `AppFlow.OriginalHexName` | App.tsx:62-66 | "" when there is no reading, a non-empty name otherwise |
| `AppFlow.OriginalHexNameAgrees` | App.tsx:62-66 | the shown name is "" iff there is no reading, and otherwise it is the service's original-hexagram name |
| `AppFlow.App.constructor` | App.tsx:10-18 | landing page, category 感情问题, empty question, no reading, empty text, not loading, no error |
| `AppFlow.App.StartDivination` | App.tsx:20-23 | step becomes INPUT and the error is cleared; nothing else changes |
| `AppFlow.App.SelectCategory` | App.tsx:120 | only the form's category changes |
| `AppFlow.App.EditQuestion` | App.tsx:134 | only the form's question changes |
| `AppFlow.IsBlank` | App.tsx:27 | the trimmed question is empty exactly when the question is all whitespace |
| `AppFlow.App.HandleInputConfirm` | App.tsx:25-29 | an all-whitespace question leaves the step as it was; any other question moves to DIVINATION |
| `AppFlow.App.BeginRequest` | App.tsx:32-35 | stores the form the handler captured with the throws, sets loading and clears the error |
| `AppFlow.App.FinishRequest` | App.tsx:37-45 | whatever the current step: on a reply it moves to RESULT with the reply or, for an empty reply, the busy text; on failure it sets the service's message and keeps the step and the text; loading is false afterwards |
| `AppFlow.App.HandleDivinationComplete` | App.tsx:31-46 | stores the captured form with the throws; on a reply it moves to RESULT with the reply or the busy text and no error; on failure it sets the service's message and keeps the step and the text; loading is false afterwards |
| `AppFlow.App.Retry` | App.tsx:171 | without a stored reading nothing changes; otherwise the stored throws are sent again with the current form, with the same outcomes for step, text and error as a first request |
| `AppFlow.App.DivinationView` | App.tsx:149-177 | the coin page shows the coins exactly when neither loading nor failed, the loading view exactly while loading (even over an error), and otherwise the error view with the stored message |
| `AppFlow.App.Reset` | App.tsx:48-54 | back to LANDING with the initial form, no reading, empty text and no error |
| `AppFlow.App.GoBack` | App.tsx:56-60 | INPUT goes to LANDING, DIVINATION to INPUT, other steps stay, and the error is always cleared |
| `AppFlow.App.ResultHeading` | App.tsx:181-187 | on the result page the heading is never empty and is the name the prompt gave the original hexagram |
| `AppFlow.PreviousStep` | App.tsx:56-60 | the back target of each step |
| `AppFlow.PreviousStepFacts` | App.tsx:56-60 | two steps back from DIVINATION is LANDING, and only LANDING and RESULT have no way back |
| `AppFlow.IsHeaderLine` | App.tsx:205 | a heading line holds a '#', and dropping its first character does not change its cleaned text |
| `AppFlow.CleanLine` | App.tsx:206 | the cleaned line is a slice of the line without '#' with only whitespace around it; it has no '#', does not start or end with whitespace, and is empty iff the line without '#' is all whitespace |
| `AppFlow.CleanLineIdempotent` | App.tsx:206 | cleaning a cleaned line changes nothing |
| `AppFlow.RenderLine` | App.tsx:205-217 | a spacer iff the cleaned line is empty; a heading iff the line starts with '#' and is not a spacer; otherwise a paragraph; the text is the cleaned line |
| `AppFlow.RenderResult` | App.tsx:204-218 | one block per line of the reply, i.e. one more than its line breaks, each the rendering of that line |
| `AppFlow.RenderedTextClean` | App.tsx:204-217 | no heading or paragraph is empty, holds a '#', or starts or ends with whitespace |
| `Text.Trim` | App.tsx:27 | the result is a slice of the input with only whitespace before and after it; it is empty iff the input is all whitespace, and otherwise neither starts nor ends with whitespace |
| `Text.RemoveAll` | App.tsx:206 | no occurrence of the character is left |
| `Text.RemoveAllMultiset` | App.tsx:206 | every other character keeps its multiplicity |
| `Text.RemoveAllSingle` | App.tsx:206 | a one-character string loses its character exactly when it is the removed one |
| `Text.RemoveAllAppend` | App.tsx:206 | removal distributes over concatenation, so the kept characters stay in order |
| `Text.Split` | App.tsx:204 | at least one piece, no piece holds the separator |
| `Text.Join` | services/gemini.ts:29 | a non-empty list's join starts with its first part |
| `Text.JoinCount` | services/gemini.ts:29 | a join of separator-free parts holds exactly one separator fewer than it has parts |
| `Text.JoinSplit` | App.tsx:204 | joining the pieces of a split restores the text |
| `Text.SplitJoin` | services/gemini.ts:29 | splitting a join of separator-free lines gives the lines back |
| `Text.SplitCount` | App.tsx:204 | a text splits into one more piece than it has separators |
| `Scenarios.AllYoungYang` | services/gemini.ts:10-15 | six young yang throws give original and changed key "111111" |
| `Scenarios.BottomOldYang` | services/gemini.ts:10-15 | an old yang first throw under five young yang throws gives original key "111111" and changed key "011111" |
| `Scenarios.SevenClicks` | components/CoinThrower.tsx:14-49 | the sixth landing hands on the six throws; a seventh click hands on nothing and leaves the six throws unchanged |
| `Scenarios.BackThenReply` | App.tsx:31-46 | going back to INPUT while the request is outstanding still lands on RESULT with the reply text when the reply arrives |
| `Scenarios.BackThenFailure` | App.tsx:149-164 | a failure that arrives after going back stays set, so confirming the question again shows the error view with the service's message, not the coins |

## Left out

- The HTTP request (`fetch`, the authorization header and API key, the JSON body, the response parsing, `console.error`) is network I/O. Its outcome is the `Oracle.HttpReply` parameter. The prompt is modelled but not sent anywhere.
- `Math.random` is left out. The three coin faces are a parameter of `Land` and `HandleThrow`.
- The 1000 ms and 1200 ms timers are timing only. `Land` stands for the first timer's callback. The completed reading is returned at once rather than after 1200 ms.
- The callback's stale `throws` closure is not modelled. While the coins spin no other throw can start, so the captured list equals the current one.
- `BeginRequest` and `FinishRequest` are the two halves of the request, and any handler may run between them. The completed reading is handed on at once instead of after 1200 ms. So `HandleDivinationComplete` can be called from any step, as the late `onComplete` callback can be, but the wait itself is not modelled. The form that callback sends is the one its closure captured at the sixth click. The caller passes it as the `sent` parameter, and nothing in the model ties it to an earlier state of `form`. Which view the coin page shows is `DivinationView`; the views' markup is rendering.
- AppFlow.App.FinishRequest: requires a stored reading, which the matching `BeginRequest` stored. The only handler that clears it is `Reset`, and its button appears only on the result page, which no outstanding request shows.
- The App error fallback "连接天地失败，请重试" is not modelled. The service only throws `Error` objects, so that branch is unreachable.
- A JSON reply whose `message.content` is `null` or absent is modelled as the empty content `""`. Both are falsy and lead to the busy text. A body that does not parse, or that parses without `choices[0].message`, makes reading the content throw. That throw is caught and reported as the fixed message, so both cases are `content == None`.
- Rendering is left out: JSX, Tailwind classes, SVG coins, animations and `components/Compass.tsx`. `Compass.tsx` is a decorative ring of names, not the lookup table.
- The contents of `HEXAGRAM_NAMES` and `DIVINATION_TYPES` are not part of this model. The name table is a map parameter, and the categories follow the union type in `types.ts`.
- Strings are sequences of Unicode code points, while JavaScript strings are UTF-16 code units. Whitespace is the fixed ECMAScript set listed in `Text.IsWhitespace`.
- Oracle.PromptListsLines: the line layout is stated only for non-empty readings whose question and table names contain no line break. A line break inside them would add prompt lines. The prompt text itself is defined for every input.
- Coins.CoinThrower.Land: requires the coins to be spinning and fewer than six throws recorded. The callback only exists after `StartThrow` has checked both.

# DCA desktop: a Dafny model of its interaction logic and analysis rules

This project models the logic of a retro desktop page for dollar-cost-averaging
(DCA) analysis of crypto assets, together with the decision rules of the HTTP
service behind it. There are four pieces:

- **Sound cue dispatcher** (`sounds.dfy`, module `Sounds`). A lazily created,
  process-wide `SoundManager` holds an `enabled` flag and a fixed table of
  seven named cues. `Play` does nothing while the manager is disabled or when
  the name is not one of the seven cues. Otherwise it rewinds and starts that one cue. A play
  request the browser refuses is swallowed. Each audio element is abstracted
  to its source, its playback position, whether its last play request was
  accepted and how many requests it has had. The browser's answer is a
  parameter of `Play`. The static `instance` slot is the field of a
  `SoundModule` object, and `GetInstance` fills it at most once.
- **Desktop** (`desktop.dfy`, module `Desktop`). The open-window state is a
  `map<string, bool>`. It starts with the single closed entry `dca`.
  `ToggleWindow` is a functional update that negates one entry. A missing key
  reads as closed, so toggling a name that is not a key adds it as open. The desktop
  icon and the window's close button both toggle `dca`, and a closed window
  renders nothing. The page has one fixed, centred window and no other window
  operations.
- **Menu bar** (`menubar.dfy`, module `MenuBar`). A class with the
  component's three state variables: `activeItem`, `clickCount` and
  `isRainbow`. A header click always makes the clicked item active. It
  advances the counter modulo 7, and the click that reaches 7 turns the
  rainbow on. Each click schedules a 500 ms reset of the active item, and a
  rainbow click also schedules a 3 s reset of the rainbow. A timer firing is
  an explicit event, and only a pending timer can fire. The handler returns a
  cleanup function that React discards for event handlers, so no timer is
  ever cancelled. The class counts the pending timers, and
  `StaleTimerClearsLaterClick` shows one consequence: an earlier click's reset
  clears a later click's highlight. Each method is tied to a pure transition
  function on `MenuState`, and the lemmas about click sequences are stated on
  those functions.
- **Analysis service** (`api.dfy`, module `Api`). It covers the chart range
  table and the assembly of chart rows, where a missing moving average
  becomes 0. It covers the ordered market-condition notes, the three-way
  sentiment with its confidence, the frequency table (an unknown frequency is
  an error), and the clamped multiplier for the suggested amount. It also
  covers the in-memory strategy list with sequential ids and the per-symbol
  skip rule of the asset listing. Market data is a function parameter that
  returns either the values or the text of the exception the fetch raised.
  Prices are `real`. Moving averages and volatility are `Measure`
  (`Num(v)` or `NaN`), because pandas yields NaN when a history is shorter
  than the rolling window. Python's comparisons, and its `min`/`max`, are
  modelled with their NaN behaviour: a NaN volatility gives the multiplier
  1.5. An exception in the chart, analysis or saving endpoint becomes HTTP
  500 with its text as detail; the asset listing skips the symbol instead,
  and listing the saved strategies raises nothing. `save_strategy` wraps the analysis's own HTTP error once
  more, and that exception's text is its status code, a colon and its
  detail.

`wrappers.dfy` holds the `Option` and `Result` types the modules share.

Three facts about the code shape the model:

- The desktop has one fixed, centred window with only a close button. It
  cannot be dragged, resized, maximized, minimized or restacked.
- A header click only highlights its item; it opens no menu, and the
  highlight clears after 500 ms.
- The cue table has exactly seven cues.

## Model

| member | source | states |
|---|---|---|
| `Sounds.Loaded` | lib/sounds.ts:12-18 | a newly created element for a file is at position 0, not playing, with no play requests |
| `Sounds.CueTable` | lib/sounds.ts:10-19 | the table's keys are exactly open, close, minimize, maximize, restore, error and click, each freshly loaded from its file |
| `Sounds.Rewound` | lib/sounds.ts:38-41 | playing a cue rewinds it to 0 and adds one play request; it is playing exactly when the browser accepted, and a refusal changes nothing else |
| `Sounds.SoundManager.constructor` | lib/sounds.ts:3-8 | a new manager is enabled and holds the freshly built cue table |
| `Sounds.SoundManager.Play` | lib/sounds.ts:34-43 | disabled or unknown name: nothing changes; otherwise only the named cue is rewound and started; `enabled` never changes and the table keeps its seven cues |
| `Sounds.SoundManager.Toggle` | lib/sounds.ts:45-47 | flips `enabled` and leaves every cue untouched |
| `Sounds.SoundManager.IsEnabled` | lib/sounds.ts:49-51 | returns the current flag |
| `Sounds.ToggleTwice` | lib/sounds.ts:45-47 | two toggles restore the original flag and cues |
| `Sounds.SoundModule.GetInstance` | lib/sounds.ts:27-32 | constructs a manager only when none exists, otherwise returns the existing one, and it is always the stored instance |
| `Sounds.SameInstance` | lib/sounds.ts:27-32 | two calls return the same manager, which the first call created (enabled) if there was none |
| `Desktop.Initial` | app/components/Desktop.tsx:57-59 | the only key is `dca`, and it is closed |
| `Desktop.IsOpen` | app/components/Desktop.tsx:64 | a name reads as open exactly when it is a key mapped to true; a missing key reads as closed |
| `Desktop.ToggleWindow` | app/components/Desktop.tsx:61-66 | the toggled name is open afterwards iff it was not open before; every other key keeps its value; the keys gain at most that name |
| `Desktop.ToggleTwice` | app/components/Desktop.tsx:64 | toggling a present name twice restores the original map |
| `Desktop.ToggleAbsent` | app/components/Desktop.tsx:64 | toggling an absent name adds it as open; a second toggle leaves it as a closed key, not the original map |
| `Desktop.Window` | app/components/Desktop.tsx:31-32 | renders nothing iff the window is not open; otherwise a frame with the title and a close button |
| `Desktop.Render` | app/components/Desktop.tsx:78-84 | the DCA window is shown iff its entry reads open |
| `Desktop.Step` | app/components/Desktop.tsx:71-82 | icon click and close click both flip the DCA entry and leave every other entry alone |
| `Desktop.IconClosesOpenWindow` | app/components/Desktop.tsx:74-81 | on an open window the icon click has the same effect as the close button and hides the window |
| `Desktop.RunParity` | app/components/Desktop.tsx:61-82 | after any enabled event sequence the keys are unchanged and the window is open iff it was open before xor the number of events is odd |
| `Desktop.ShownAfterOddClicks` | app/components/Desktop.tsx:57-84 | from the initial state the window is shown exactly after an odd number of events, and `dca` stays the only key |
| `MenuBar.Initial` | app/components/MenuBar.tsx:7-10 | no active item, count 0, no rainbow, no pending timer |
| `MenuBar.AfterClick` | app/components/MenuBar.tsx:20-36 | the clicked item becomes active; the count becomes (count + 1) mod 7 and stays in 0..6; the rainbow turns on exactly when the click reaches 7; one highlight reset is scheduled, plus a rainbow reset on the 7th |
| `MenuBar.AfterActiveTimer` | app/components/MenuBar.tsx:31-33 | clears the active item and nothing else |
| `MenuBar.AfterRainbowTimer` | app/components/MenuBar.tsx:27 | turns the rainbow off and nothing else |
| `MenuBar.Apply` | app/components/MenuBar.tsx:20-36 | every event keeps the count in 0..6 |
| `MenuBar.CountIsClicksModSeven` | app/components/MenuBar.tsx:22-28 | however clicks and timers interleave, the count is the starting count plus the number of clicks, modulo 7 |
| `MenuBar.ClicksFromInitial` | app/components/MenuBar.tsx:20-33 | after n clicks from mounting: count n mod 7, n div 7 rainbow triggers, rainbow on iff n >= 7, n highlight resets pending |
| `MenuBar.LastClickedIsActive` | app/components/MenuBar.tsx:21 | after clicks with no timer fired, the last clicked item is active, even if it was already active |
| `MenuBar.RainbowOnEverySeventhClick` | app/components/MenuBar.tsx:25-26 | a click triggers the rainbow iff it is the 7th, 14th, ... click since mounting, so the 8th click does not |
| `MenuBar.StaleTimerClearsLaterClick` | app/components/MenuBar.tsx:31-35 | the uncancelled reset of an earlier click clears the highlight of a later click while that click's reset is still pending |
| `MenuBar.MenuBar.constructor` | app/components/MenuBar.tsx:7-10 | the component starts in the initial state |
| `MenuBar.MenuBar.HandleMenuClick` | app/components/MenuBar.tsx:20-36 | the new state is the click transition of the old one, and the count stays in 0..6 |
| `MenuBar.MenuBar.ActiveTimerFires` | app/components/MenuBar.tsx:31-33 | clears the active item; count and rainbow unchanged |
| `MenuBar.MenuBar.RainbowTimerFires` | app/components/MenuBar.tsx:27 | turns the rainbow off; count and active item unchanged |
| `Api.ServerError` | api/main.py:148-149 | an exception becomes status 500 with its text as detail |
| `Api.PeriodFor` | api/main.py:122-129 | the period is always one of the table's; it is "1mo" iff the range is "1M" or not in the table |
| `Api.PeriodTable` | api/main.py:122-129 | 1D→1d, 1W→1wk, 1M→1mo, 3M→3mo, 1Y→1y, other ranges→1mo |
| `Api.OrZero` | api/main.py:143-144 | a number stays itself and NaN becomes 0 |
| `Api.ToPoint` | api/main.py:140-145 | a record keeps the row's date and close, with each missing average replaced by 0 |
| `Api.GetChartData` | api/main.py:117-149 | fetches with the looked-up period; on success, one record per history row in the same order; a fetch error becomes a 500 with its text |
| `Api.MarketConditions` | api/main.py:166-172 | each note is present iff its comparison holds (price > SMA50, price > SMA200, volatility > 0.5; false on NaN); at most 3 notes, in that fixed order |
| `Api.Labels` | api/main.py:166-172 | the response lists one text per note, in the notes' order, each the note's own text |
| `Api.LabelsDistinct` | api/main.py:168-185 | different notes, and different sentiments, have different texts, so the response determines them |
| `Api.Classify` | api/main.py:177-186 | bullish iff strictly above both averages, bearish iff strictly below both, otherwise neutral; confidence 0.8 / 0.7 / 0.5 |
| `Api.TieIsNeutral` | api/main.py:178-186 | a price equal to either average is neutral with confidence 0.5 |
| `Api.ReprQuote` | api/main.py:194 | `repr` uses double quotes iff the text holds a single quote and no double quote, otherwise single quotes |
| `Api.EscapeChar` | api/main.py:194 | `repr` writes a character as itself iff it is not the quote, not a backslash and not an ASCII control character; the quote and the backslash get a backslash in front, and every other escape also starts with a backslash |
| `Api.PyRepr` | api/main.py:194 | the KeyError text is the chosen quote, then every character of the key escaped for that quote, then the quote again |
| `Api.UnescapeChar` | api/main.py:194 | one character escaped by `repr` reads back as that character, whatever text follows it |
| `Api.UnescapeEscapeAll` | api/main.py:194 | reading back a key escaped for either quote gives the key: escaping loses nothing |
| `Api.ReprDeterminesKey` | api/main.py:194 | two keys with the same KeyError text are the same key |
| `Api.PlainRepr` | api/main.py:194 | a key with no quote, backslash or control character is shown as itself in single quotes |
| `Api.DoubleQuotedRepr` | api/main.py:194 | `it's` is shown in double quotes |
| `Api.EscapedQuoteRepr` | api/main.py:194 | a key with both quote kinds is shown in single quotes with its single quote escaped |
| `Api.FrequencyDays` | api/main.py:189-194 | daily is 1 day, weekly 7 and monthly 30; every other frequency fails with the KeyError text, the key's `repr` |
| `Api.PyMin` | api/main.py:198 | Python `min(a, b)`: at most `a`; `b` only if `b < a`, so NaN gives `a` |
| `Api.PyMax` | api/main.py:198 | Python `max` on two numbers: the larger one |
| `Api.Adjustment` | api/main.py:197 | 1.5 minus the volatility, NaN staying NaN |
| `Api.Multiplier` | api/main.py:197-198 | always in [0.5, 1.5]; 1.5 - v inside [0, 1], 1.5 at or below 0 and for NaN, 0.5 at or above 1 |
| `Api.MultiplierAntitone` | api/main.py:196-198 | higher volatility never gives a higher multiplier |
| `Api.SuggestedAmount` | api/main.py:198 | the amount times the clamped multiplier; for a non-negative amount the result lies in [0.5·amount, 1.5·amount], mirrored for a negative one |
| `Api.Analyze` | api/main.py:151-211 | a fetch error is a 500 with its text; otherwise it succeeds iff the frequency is known, else a 500 with the KeyError text; on success the asset, entry at 0.95·price, sentiment text and confidence, next date = now + days, suggested amount and condition texts are as the rules say |
| `Api.Decimal` | api/main.py:225 | Python `str(n)`: digits whose value is n, one digit exactly when n is below 10, and no leading zero except for 0 itself |
| `Api.DecimalInjective` | api/main.py:225 | different numbers have different decimal texts |
| `Api.StrategyId` | api/main.py:225 | an id is the prefix `strategy_` followed by the decimal text of the number |
| `Api.StrategyIdInjective` | api/main.py:225 | different numbers give different ids |
| `Api.SequentialIdsSnoc` | api/main.py:225-234 | appending the record numbered after the list's length keeps the ids `strategy_1`, `strategy_2`, ... in order |
| `Api.SequentialIdsAreUnique` | api/main.py:214-234 | in a list numbered `strategy_1`, `strategy_2`, ... no id repeats |
| `Api.ExceptionText` | api/main.py:235-236 | the re-raised text is the decimal status code, a colon and a space, then the original detail |
| `Api.StrategyStore.constructor` | api/main.py:214 | the list starts empty |
| `Api.StrategyStore.SaveStrategy` | api/main.py:216-236 | a failed analysis appends nothing and returns a 500 wrapping its text; otherwise exactly one record with id `strategy_{n+1}` is appended, earlier records unchanged, and returned |
| `Api.StrategyStore.GetSavedStrategies` | api/main.py:238-241 | returns the whole list, whose ids are pairwise distinct |
| `Api.QuoteOf` | api/main.py:93-113 | a symbol has a record iff its fetch succeeded with at least 2 rows; the record has the last close and volume and the info name, defaulting to the symbol |
| `Api.QuotesSound` | api/main.py:92-113 | every record in the list is the quote of a listed symbol |
| `Api.QuotesComplete` | api/main.py:92-113 | every symbol that has a quote has a record in the list |
| `Api.QuotesOrdered` | api/main.py:89-113 | the records follow the order of their symbols |
| `Api.GetAssets` | api/main.py:86-115 | the list is the loop's result over BTC-USD, ETH-USD, SOL-USD, BNB-USD: a subsequence in that order, with exactly the symbols whose fetch succeeded with at least 2 rows |

## Left out

- Names that JavaScript finds on `Object.prototype` (`toString`, `constructor`, `valueOf`, `__proto__`, ...) are modelled as absent keys in both `Sounds.SoundManager.Play` and `Desktop.ToggleWindow`. In the source, `play` with such a name throws a TypeError, and toggling such a name stores `false`. No call site passes such a name.
- `Api.PyRepr` escapes only ASCII control characters. Python's `repr` also escapes the non-ASCII characters it deems non-printable (such as U+0085 or U+00A0), and the model keeps those as they are, so the KeyError text differs for keys that contain them.
- Audio loading and playback (lib/sounds.ts:21-24, 39) are abstracted. An element is reduced to its source, position, last play outcome and request count. The clip ending on its own is not modelled.
- The exported module-level `soundManager` (lib/sounds.ts:54) is one `GetInstance` call on the `SoundModule`. Module loading itself is not modelled.
- Time in the menu bar is not modelled. Timers fire as explicit events in any order, so the model does not enforce that a 500 ms reset fires before a 3 s reset scheduled at the same click.
- The menu bar's per-second clock (app/components/MenuBar.tsx:13-18), the logo click sound (39-42) and the CSS animations are left out. They are display and I/O with no effect on the modelled state.
- The desktop's JSX markup, its styling and the embedded DCA panel are left out. They are presentation only.
- Fetches to the market-data library (`yf.Ticker`, `ticker.info`, `ticker.history`) are function parameters. The exception text they produce is taken as given.
- The rolling means, `pct_change().std() * sqrt(252)` and the date formatting are inputs. They are floating-point numerics over a foreign library.
- `Api.AssetQuote` has no 24-hour change field. `change_24h` is a float computation over the library's data, and the error print in `get_assets` is logging only.
- Prices and amounts are exact reals, not float64. Rounding in `0.95 * price` and in the suggested amount is not modelled.
- `datetime.now()` is a parameter. The analysis time and the saving time are two independent parameters, as they are two calls in the source. Times are whole seconds.
- Request-body validation by the web framework, CORS, the JSON encoders and the `/` endpoint are left out. They are framework wiring.

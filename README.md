# alpha-picks-tracker: the dashboard's text and selection rules, and its visit analytics

alpha-picks-tracker is a Streamlit dashboard over a snapshot of stock picks.
Around its UI code sit a few exact rules, and this project models them in
Dafny and proves what they promise:

- **Text shown on the focus cards** (`app.py`):
  - `mask_ticker` reduces a ticker to its first character and stars.
  - The desktop card label repeats that masking inline and appends `(Picked: date)`.
  - `strip_evidence_refs` deletes citation lists such as `(A1, B2)` and standalone `F3`/`N12`-style tags, then tidies the whitespace.
  - `clean_text_safe` wraps `strip_evidence_refs` for the logic-pillar tabs.
  - The setup details and the action plan are cut to 200 and 250 characters with `...`, and an expander holds the full text.
- **Focus selection** (`app.py`):
  - `focus_selected` is reset to the first ticker when it is unset or stale.
  - The mobile navigator builds its option labels and a label→ticker map. Two items with the same label leave the earlier ticker unreachable.
  - The navigator opens at a position found by reverse lookup.
  - The deep-dive panel finds the first item with the selected ticker.
- **Device detection**:
  - `is_mobile` (`analytics.py`) is a case-insensitive keyword test.
  - The test inside `is_mobile_device` (`app.py`) is case-sensitive, and gives "unknown" while the user agent is empty.
- **Visit analytics** (`analytics.py`):
  - `track_visit_once_per_session` is a session latch that sends one batch of four `INCR` commands.
  - `get_stats` sends 62 `GET` commands in a fixed order, parses each reply entry with `parse_val`, and reduces the reply to six metrics. When the reply is falsy, all six are "N/A".
  - The Redis store behind the endpoint is modelled as a map of counters. This shows that every visit keeps each "web" counter at or above the matching "mobile" counter. So when no visit is recorded while the stats are being read, the panel never shows more mobile visits than web visits. Each non-mobile visit also increments a "desktop" counter under "total" and under its day; `get_stats` never reads these counters.

Modules, one per file:

- `Basics`: the Python value model (`Field` for the result of `dict.get`, `Option`, `Result` for exceptions), ASCII character classes, `str.strip`, `str.lower`/`str.upper` and substring search.
- `EvidenceRefs`: `strip_evidence_refs`. Each regular expression is written as a left-to-right scanner, as `re.sub` applies it.
- `EvidenceRefsExamples`: worked inputs of `strip_evidence_refs`, proved once for a whole family of prose texts.
- `Display`: the ticker mask, the card label, truncation, and the setup, action-plan and pillar texts.
- `Devices`: both keyword tests.
- `Focus`: the navigator, the default index, the selected-item lookup, and the `FocusSession` class that holds `focus_selected`.
- `Analytics`: keys and commands, the `VisitTracker` latch class, the stats layout, `parse_val`, the reduction and the counter store.

Python's `\s`, `\d` and `\w`, `str.strip`, `str.upper`/`str.lower` and `int()` are taken over ASCII. The network call is a function passed to `GetStats`. The clock is replaced by a `today` string and a list of 30 dates.

## Model

| member | source | states |
|---|---|---|
| EvidenceRefs.DropCitations | app.py:179 | deleting citation lists (optional whitespace, `(`, codes `[A-Z]\d+` separated by `,` and optional whitespace, `)`) never lengthens the text |
| EvidenceRefs.DropTags | app.py:180 | deleting standalone `[FNVB]\d+` tokens (word boundaries on both sides) never lengthens the text |
| EvidenceRefs.CollapseSpaces | app.py:181 | replacing every whitespace run of two or more by one space leaves no two adjacent whitespace characters; it never lengthens the text, keeps it non-empty, and keeps whether it starts with whitespace |
| EvidenceRefs.DropSpaceBefore | app.py:182 | `replace(" ,", ",")` (or `" ."`) never lengthens the text and keeps its last character |
| EvidenceRefs.DropSpaceBeforeClean | app.py:182 | after the replacement, no space stands before the character, and text without adjacent whitespace keeps that property |
| EvidenceRefs.ReplacesKeepNormalForm | app.py:182 | the two replacements applied to stripped text without adjacent whitespace keep it stripped and without adjacent whitespace, and leave no space before `,` or `.` |
| EvidenceRefs.Clean | app.py:179-182 | the three passes give text at most as long as the input, with no adjacent whitespace, no leading or trailing whitespace, and no space before `,` or `.` |
| EvidenceRefs.StripEvidenceRefs | app.py:176-183 | a missing or empty text gives ""; otherwise the output is never longer than the input and is in the normal form above |
| EvidenceRefs.CleanTextUnchanged | app.py:179-183 | text with no citation, no tag, no adjacent or surrounding whitespace and no space before `,`/`.` comes back unchanged |
| EvidenceRefs.OutputAlreadyCleanIsFixed | app.py:179-183 | a second application leaves an output unchanged whenever that output has no citation or tag left in it |
| EvidenceRefsExamples.CitationAndTagRemoved | app.py:179-183 | for any three prose pieces, `head (A1, B2) mid F3 tail` becomes `head mid tail` |
| EvidenceRefsExamples.BreakoutExample | app.py:179-183 | "Breakout confirmed (A1, B2) with F3 support" becomes "Breakout confirmed with support" |
| EvidenceRefsExamples.FirstApplication | app.py:179-183 | for any two codes (an upper-case letter other than F, N, V, B followed by a digit), `(c1 ,c2)` is not a citation list, so one application only joins the comma and gives `(c1,c2)` |
| EvidenceRefsExamples.SecondApplication | app.py:179-183 | for any two such codes, `(c1,c2)` is a citation list and is removed entirely, giving "" |
| EvidenceRefsExamples.NotIdempotent | app.py:179-183 | for any two such codes, applying the function twice to `(c1 ,c2)` differs from applying it once |
| EvidenceRefsExamples.NotIdempotentExample | app.py:179-183 | "(A1 ,C2)" becomes "(A1,C2)", and "(A1,C2)" becomes "" |
| Display.Stars | app.py:191-192 | `'*' * n` has length n and consists only of stars |
| Display.MaskTicker | app.py:185-192 | None or a blank ticker gives ""; otherwise the stripped first character followed by stars, of length `max(2, n)` for a stripped length n |
| Display.MaskIdempotent | app.py:185-192 | masking a mask gives the same mask |
| Display.MaskRevealsOnlyFirst | app.py:188-192 | two tickers with the same stripped first character and length get the same mask |
| Display.MaskIgnoresPadding | app.py:188 | surrounding whitespace does not change the mask |
| Display.CardLabel | app.py:344-350 | the desktop label is `mask_ticker(ticker) + "(Picked: " + p + ")"`, where p is the stripped date or "N/A" for a falsy date; for a falsy ticker it is only the picked part |
| Display.InlineMask | app.py:345-348 | the card's inline masking agrees with `mask_ticker` on every ticker field |
| Display.Truncate | app.py:393 | the summary keeps the first `min(len, L)` characters, is at most L+3 long, and ends in "..." after position L when the text is longer than L |
| Display.TruncateUnchanged | app.py:393 | the summary equals the text exactly when the text fits in L, or is L characters followed by a literal "..." |
| Display.TruncatedCard | app.py:393-397 | the expander is present exactly when the text is longer than L, and it holds the full text |
| Display.ExpanderCoversCut | app.py:393-397 | a summary that differs from the text always comes with the expander; a text of L characters plus "..." gets an expander that only repeats it |
| Display.SetupCard | app.py:391-397 | a missing `details` gives "No details available.", a JSON null gives "None"; text is cut at 200, with the expander exactly above 200, holding the full text |
| Display.ActionCard | app.py:400-411 | no card exactly when neither the item's nor the pillars' plan is truthy; the item's plan wins; the plan is cleaned and then cut at 250 |
| Display.CleanTextSafe | app.py:416-418 | a falsy value gives "N/A"; otherwise the result is `strip_evidence_refs` of the value, in normal form |
| Display.CleanTextSafeCanBeEmpty | app.py:416-418 | the truthy value "(A1,C2)" is shown as "", not "N/A" |
| Display.CleanTextSafeKeepsCleanText | app.py:416-418 | clean pillar text is shown unchanged |
| Devices.AnyKeyword | analytics.py:15 | true exactly when some keyword occurs in the haystack, compared in lower case when case is ignored |
| Devices.IsMobile | analytics.py:10-15 | false for "", otherwise true exactly when one of the seven keywords occurs in the user agent, ignoring ASCII case |
| Devices.DetectMobileDevice | app.py:20-26 | "unknown" exactly when the user agent is absent or empty, otherwise whether a keyword occurs with its case as written |
| Devices.DetectedMobileIsMobile | app.py:23-26 | whatever the dashboard calls mobile, the analytics call mobile |
| Devices.IsMobileIgnoresCase | analytics.py:15 | lower-casing or upper-casing the user agent does not change `is_mobile` |
| Devices.VariantsDisagree | app.py:26 | "ANDROID" is mobile for the analytics but not for the dashboard |
| Focus.TickerList | app.py:236 | one entry per item, holding its `ticker` field |
| Focus.Icon | app.py:261 | the green circle exactly when "BUY" occurs in the upper-cased verdict, eyes otherwise |
| Focus.BuildNavigator | app.py:249-266 | the loop's options and map equal the label list and label→ticker map defined over the items |
| Focus.OptionsAreKeys | app.py:265-266 | a label is an option exactly when it is a key of the map |
| Focus.EveryTickerHasOption | app.py:252-264 | every item with a truthy ticker has its label among the options |
| Focus.EveryOptionHasTicker | app.py:252-265 | every option is the label of some item with a truthy ticker |
| Focus.LastProducerWins | app.py:266 | a label maps to the ticker of the last item that produced it |
| Focus.ShadowedTicker | app.py:252-266 | when two items with different truthy tickers produce the same label, the option appears twice and the map is exactly {label ↦ later ticker}, so the earlier ticker cannot be reached |
| Focus.NavStep | app.py:252-266 | one more item adds its label to the options and its label ↦ ticker entry to the map exactly when its ticker is truthy, and changes nothing otherwise |
| Focus.SameLabelForAbAndAc | app.py:257-264 | "AB" and "AC" with verdict BUY produce the same label |
| Focus.DefaultIndex | app.py:270-277 | the first position whose option maps to the current ticker, or 0 when none does |
| Focus.FindSelected | app.py:373 | the item returned is the first whose ticker equals the selection, every earlier item having a `ticker` key; None exactly when every item has a `ticker` key other than the selection; KeyError exactly when an item without a `ticker` key comes before every match |
| Focus.SelectionIsFound | app.py:236-239 | when every item has a ticker key, a selection taken from the ticker list is found |
| Focus.FocusSession.constructor | app.py:237 | a new session has no selection |
| Focus.FocusSession.InitSelection | app.py:236-239 | an unset or stale selection resets to the first ticker; a selection among the tickers stays; an empty list changes nothing |
| Focus.FocusSession.SelectFromNavigator | app.py:288-289 | a non-empty label selects its mapped ticker, or raises KeyError when unmapped; an empty label changes nothing |
| Focus.FocusSession.SelectCard | app.py:364-365 | the desktop button selects its ticker |
| Focus.FocusSession.NavigatorRound | app.py:249-289 | a selection some option maps to stays, and is then set; any other selection moves to the first option's ticker |
| Analytics.VisitBatch | analytics.py:44-60 | a visit sends exactly four INCR commands |
| Analytics.VisitBatchKeysDistinct | analytics.py:55-60 | for any date other than "total", the four keys are pairwise different |
| Analytics.SameDeviceKey | analytics.py:56-59 | two keys of one device type are equal exactly when their scopes are |
| Analytics.DeviceKeysDiffer | analytics.py:56-59 | keys of "web", "mobile" and "desktop" never coincide |
| Analytics.VisitTracker.constructor | analytics.py:39 | a new session is untracked and has sent nothing |
| Analytics.VisitTracker.TrackVisitOncePerSession | analytics.py:37-68 | a tracked session sends nothing; an untracked one sends the four-key batch once and sets the latch; a failed context read sends nothing and leaves the latch unset; at most one batch is ever sent |
| Analytics.StatsLayoutIndices | analytics.py:80-93 | 62 GETs: web total at 0, mobile total at 1, web day i at 2+i, mobile day i at 32+i |
| Analytics.StatsReadMobileVisits | analytics.py:86-93 | the stats read exactly the keys a mobile visit on one of the 30 days increments |
| Analytics.BuildStatsCommands | analytics.py:86-93 | the two appending loops build exactly that layout |
| Analytics.PyInt | analytics.py:102 | a parsed value comes from a non-blank string |
| Analytics.ParseVal | analytics.py:100-103 | 0 for None, for no `result`, for a null or empty result and for a string `int` rejects; the integer itself otherwise |
| Analytics.ParseDecimalString | analytics.py:100-103 | a counter returned as its decimal string parses back to itself |
| Analytics.ParseSignedPadded | analytics.py:102 | a padded negative decimal parses to its negative value |
| Analytics.PySlice | analytics.py:109 | `s[lo:hi]` clips both ends to the length |
| Analytics.ParseAll | analytics.py:109 | the daily list holds `parse_val` of each entry |
| Analytics.Daily | analytics.py:109 | at most 30 daily values |
| Analytics.ReduceStats | analytics.py:95-125 | IndexError exactly for a one-entry reply; otherwise exactly the six keys; all "N/A" for a missing or empty reply; otherwise the totals, and the sums of the first 7 and of all 30 daily values |
| Analytics.SevenDaysFirst | analytics.py:110-111 | the 30-day sum is the 7-day sum plus the sum of days 8 to 30 |
| Analytics.ThirtyDaysIncludeSevenDays | analytics.py:108-116 | `web_30d == web_7d + sum(web_daily[7:])`, and likewise for mobile |
| Analytics.Execute | analytics.py:55-63 | after a pipeline, each counter has grown by the number of INCRs of its key |
| Analytics.VisitCounts | analytics.py:49-60 | a visit adds one to "web" under "total" and under its day, the same to "mobile" only when the user agent is mobile, and the same to "desktop" only when it is not |
| Analytics.VisitKeepsWebCoversMobile | analytics.py:49-60 | a visit keeps every "web" counter at or above the "mobile" counter of the same scope |
| Analytics.Read | analytics.py:100-103 | what the store returns for a key parses to that key's counter |
| Analytics.ReadReply | analytics.py:95 | each reply entry parses to the counter of the key read |
| Analytics.DayCounts | analytics.py:90-93 | one counter per day of the list |
| Analytics.StatsOfStore | analytics.py:86-125 | read from a store, the metrics are its two totals and the sums of its day counters over the first 7 and over all 30 days |
| Analytics.StatsShowWebCoversMobile | analytics.py:105-116 | on a store only visits have changed, each web metric is at least its mobile metric |
| Analytics.GetStats | analytics.py:70-125 | sends the 62-read layout to the endpoint and returns the reduction of its reply, with exactly the six keys |

## Left out

- Streamlit rendering: columns, containers, buttons, expanders, tabs, `st.rerun`, dataframe configuration and CSS. These are UI plumbing. The expander is modelled only as "present, with this text".
- `st_javascript` user-agent retrieval and the `first_load`/`mobile_view` rerun cycle. This is a foreign call tied to the framework; only the keyword test is modelled.
- `load_data`: file reading and JSON parsing.
- `render_mobile_cards`: a pandas filter and sort with regex and NaN semantics, and the column selection and renaming.
- `coerce_float`, price and Day% formatting, and the urgency `float`/`.1f` formatting. These are floating point.
- The mobile "now viewing" container text and `html.escape` of labels. These are presentation.
- `_upstash_request` and `st.secrets`: network and configuration. The reply is an `Option<seq<Entry>>` from a function passed in; None stands for `None` and for a non-list reply.
- `datetime.now` and the date lists. `today` and the 30 dates are parameters. `last_7d` is never used by the source.
- `str()` of non-string JSON values (numbers, lists) for tickers, verdicts, dates and details. Only strings, null and missing keys are modelled.
- Unicode: `\s`, `\d`, `\w`, `strip`, `upper`/`lower` and `int()` digits are ASCII only. Whitespace is the ASCII part of Python's class, U+001C to U+001F included; non-ASCII whitespace such as U+0085, U+00A0 or U+3000 is not modelled.
- `parse_val` on a `result` that is a float, a boolean or a list. Only null, strings and integers are modelled.
- Reply entries that are numbers or booleans, where `"result" in r` raises TypeError outside the `try`. `EOther` stands for strings and lists, which give 0.
- The AttributeError raised when `trigger_details` or `logic_pillars` is a JSON null.
- Analytics.Execute: INCR on a key holding a non-integer value is not modelled, and neither is the error INCR gives past the 64-bit limit 2^63 - 1; every counter is an unbounded natural number.
- Analytics.PyInt: Python's limit on the number of digits `int()` converts (4300 by default since Python 3.11), above which it raises ValueError and `parse_val` gives 0, is not modelled; `ParseDecimalString` therefore claims the round trip for every counter, which holds for every counter Redis can hold.
- Analytics.StatsShowWebCoversMobile: the 62 reads are modelled as one snapshot of the store. The pipeline is not a transaction, so a visit recorded between two of the reads can make one reply show more mobile than web visits.
- Analytics.ReadReply: modelled only for pipelines of GETs, which is all `get_stats` sends.

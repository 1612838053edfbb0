# type: a terminal typing trainer, modelled in Dafny

This project models the core of `type`, a monkeytype-style typing trainer for the
terminal written in Rust. It is laid out one module per source file:

- `Statistics` models the keystroke log of a running test (`TestStatistics`). It is a class
  whose start, end and last-keystroke timestamps and append-only event log are updated
  in place. It also holds the read-only folds that derive characters per minute, words per
  minute and accuracy from the log.
- `TypingMode` models the test modes: the quote-length buckets with their inclusive upper
  bounds, the numeric values and printed names of the durations and word counts, and the
  default mode.
- `Punctuation` models the per-script punctuation tables, the mapping from corpus language
  to script family, and the existing part of the punctuation pass. That part is the in-place
  sort of the requested kinds and the percentage clamp, after which every kind's arm is
  unfinished.
- `QuickMenu` models the quick menu's search line as a class: a character buffer with a
  cursor, edited by key events, and split into search words.
- `QuickMenuItems` models the quick menu's item tree, the breadcrumb labels, and the search
  that lists every theme whose breadcrumb contains all search words.
- `Tabs` models the tab numbering and titles.
- `Themes` models the merge of a theme file's optional colours with the default theme, and
  the file-name rule that picks theme files from the theme directory.
- `Wrappers` holds `Option` and `Result`.

Clock readings are integer milliseconds passed in by the caller. A Rust panic that the
core can reach becomes the `Failure` case of a `Result`:

- the unsigned underflow when a breadcrumb is too long for the list. It panics only in a build
  with overflow checks; a release build wraps and pads by a huge width instead;
- the `todo!()` arms of the punctuation pass.

The one other unwrap the core can reach, `duration_since` in `cpm`
(src/typing/statistics.rs:113), is a precondition of `Statistics.TestStatistics.Cpm`
instead: the end must not precede the start.

## Model

| member | source | states |
|---|---|---|
| Statistics.CharEvent | src/typing/statistics.rs:75-79 | the event is `Ok` exactly when the typed and expected characters agree; it carries the delay and position, plus the expected character for a mistake |
| Statistics.Delay | src/typing/statistics.rs:70-73 | whole milliseconds from the previous reading to now; 0 when the clock went backwards |
| Statistics.CountRight | src/typing/statistics.rs:95-109 | the fold of `cpm` only adds to the count, at most one per event, and only extends the remembered positions, by exactly as many as the count grows |
| Statistics.CountRightSpec | src/typing/statistics.rs:95-109 | the fold's remembered positions stay duplicate-free and grow by exactly the correctly typed positions; the count grows by the same amount and by at most one per event |
| Statistics.RightChars | src/typing/statistics.rs:95-109 | the cpm count is the number of distinct positions with at least one correct event; it is at most the number of correct events, which is at most the number of events |
| Statistics.CpmValue | src/typing/statistics.rs:111-116 | round(count / minutes) with halves rounded up; 0 for 0/0; `usize::MAX` for a positive count over zero time or an overflow (saturating cast) |
| Statistics.TenCharsInFiveSeconds | src/typing/statistics.rs:152-171 | ten correct characters at distinct positions over five seconds give 120 cpm and 24 wpm |
| Statistics.RightWrong | src/typing/statistics.rs:119-124 | right plus wrong grows by the number of events, and right grows by the number of correct events |
| Statistics.Accuracy | src/typing/statistics.rs:126-129 | undefined for no events; otherwise a value in [0, 100] equal to correct events × 100 / events; 100 exactly when every event is correct, 0 exactly when none is |
| Statistics.TenRightFiveWrong | src/typing/statistics.rs:173-199 | ten correct and five wrong events give an accuracy that prints as 66.67 |
| Statistics.TestStatistics.constructor | src/typing/statistics.rs:19-26 | a new log has no timestamps and no events |
| Statistics.TestStatistics.Reset | src/typing/statistics.rs:28-33 | reset returns to the state `new` creates |
| Statistics.TestStatistics.Start | src/typing/statistics.rs:35-37 | stamps the start time and changes nothing else |
| Statistics.TestStatistics.End | src/typing/statistics.rs:39-41 | stamps the end time and changes nothing else |
| Statistics.TestStatistics.Started | src/typing/statistics.rs:43-52 | returns the start time; if there was none, it is stamped with the clock first |
| Statistics.TestStatistics.LastCharTyped | src/typing/statistics.rs:54-59 | returns the previous keystroke's time, or else the start time, stamping the start when unset |
| Statistics.TestStatistics.EndedOrNow | src/typing/statistics.rs:61-66 | the end time when set, else the current time |
| Statistics.TestStatistics.NewChar | src/typing/statistics.rs:68-82 | appends exactly one event and keeps the earlier ones; the delay is measured from the previous keystroke, or from the start for the first one, which is stamped if unset; records the keystroke time |
| Statistics.TestStatistics.Cpm | src/typing/statistics.rs:89-117 | 0 before the start; otherwise the rounded count of distinct correctly typed positions per minute from start to end (or now) |
| Statistics.TestStatistics.Wpm | src/typing/statistics.rs:84-87 | cpm divided by five, rounded down |
| Statistics.TestStatistics.AccuracyNow | src/typing/statistics.rs:126-129 | the accuracy of the recorded events |
| TypingMode.FromLength | src/typing/mode.rs:24-36 | ≤100 is Short, 101–300 Medium, 301–600 Long, above 600 Thicc; never All; up to 600 a length lies within its bucket's bound |
| TypingMode.FromLengthMonotone | src/typing/mode.rs:26-34 | a longer quote never falls into a smaller bucket |
| TypingMode.FromLengthOfDiscriminant | src/typing/mode.rs:6-12 | each bucket other than All is the classification of its own bound |
| TypingMode.Discriminant | src/typing/mode.rs:6-12 | the explicit discriminants 0, 100, 300, 600 and 9999 of the buckets |
| TypingMode.QuoteLengthName | src/typing/mode.rs:38-50 | the names "all", "short", "medium", "long", "thicc" |
| TypingMode.QuoteLengthNamesDistinct | src/typing/mode.rs:38-50 | distinct buckets have distinct names |
| TypingMode.SecondsValue | src/typing/mode.rs:60-70 | S15/S30/S60/S120 are 15/30/60/120 and a custom duration is its own value |
| TypingMode.WordCountValue | src/typing/mode.rs:86-96 | W10/W25/W50/W100 are 10/25/50/100 and a custom count is its own value |
| TypingMode.DecimalString | src/typing/mode.rs:72-76 | the `{}` rendering of a number is a non-empty digit string without a leading zero, one digit for numbers below ten |
| TypingMode.DecimalRoundTrip | src/typing/mode.rs:72-76 | reading back the printed decimal digits gives the number |
| TypingMode.SecondsName | src/typing/mode.rs:72-76 | a duration prints as the decimal digits of its value, without leading zeros |
| TypingMode.WordCountName | src/typing/mode.rs:98-102 | a word count prints as the decimal digits of its value, without leading zeros |
| TypingMode.DefaultMode | src/typing/mode.rs:110-114 | the default mode is `Time(S60)`, a 60-second timed test |
| Tabs.Discriminant | src/app/tab.rs:7-12 | the implicit discriminants 0, 1, 2, 3 of Main, Typing, Settings, Help, all below four |
| Tabs.FromNumber | src/app/tab.rs:15-23 | 0, 1, 2, 3 give Main, Typing, Settings, Help; every other number gives none; a found tab's number is the argument |
| Tabs.FromNumberRoundTrip | src/app/tab.rs:16-20 | a tab's number maps back to the tab |
| Tabs.Name | src/app/tab.rs:25-32 | the titles "Main", "Typing", "Settings", "Help" |
| Tabs.NamesDistinct | src/app/tab.rs:25-32 | distinct tabs have distinct titles |
| Themes.DefaultTheme | src/user/config/style/theme.rs:143-159 | the default theme "default" and each of its eleven colours |
| Themes.ToTheme | src/user/config/style/theme.rs:27-68 | keeps the name; each colour is the file's when given and the default theme's otherwise |
| Themes.EmptyFileIsDefault | src/user/config/style/theme.rs:27-68 | a file without colours gives the default theme under the file's name |
| Themes.FullFileRoundTrip | src/user/config/style/theme.rs:27-68 | a file listing every colour of a theme gives that theme back |
| Themes.Serialize | src/user/config/style/theme.rs:112-117 | a theme is written as its name and nothing else |
| Themes.SerializeLoaded | src/user/config/style/theme.rs:112-117 | a theme is written as its name only, whatever its colours |
| Themes.RsplitOnceDot | src/user/config/style/theme.rs:126 | splits at the last dot; none when there is no dot; the part after it has no dot |
| Themes.JsonThemeName | src/user/config/style/theme.rs:124-129 | a file is a theme exactly when its name ends in ".json"; the theme name is the text before that last dot |
| Themes.ThemeFileName | src/user/config/style/theme.rs:92-94 | a theme's file name is its name followed by ".json" |
| Themes.ThemeFileNameRoundTrip | src/user/config/style/theme.rs:92-94 | a theme name without '/' is picked up again from its file name under the same name, dots in the name included |
| Themes.JsonThemeNames | src/user/config/style/theme.rs:122-135 | at most one theme per directory entry |
| Themes.JsonThemeNamesMembers | src/user/config/style/theme.rs:122-135 | a name without '/' is listed exactly when the directory holds that name's ".json" file |
| Themes.AllThemeNames | src/user/config/style/theme.rs:119-136 | the loop pushes exactly the theme names of the entries, in directory order |
| Punctuation.ScriptOf | src/monkeytype/punctuation.rs:32-347 | Hiragana/Katakana map to Japanese; the Romaji variants map to Latin; Yiddish maps to Hebrew; the Cyrillic languages map to Latin; Bangla, Gujarati, Tamil, Telugu and Tibetan map to Devanagari; every named language has a script family; every unnamed one maps to None |
| Punctuation.GetPunctuation | src/monkeytype/punctuation.rs:398-465 | Upcase and the None family get nothing; end-of-word marks exist exactly for the 14 families; the after-number, between-words and around-word tables are non-empty exactly for the families listed, with the shared `()` and `〜` rows |
| Punctuation.EndOfWordForLanguages | src/monkeytype/punctuation.rs:32-347 | a language gets end-of-word marks exactly when the mapping names it |
| Punctuation.ClampPercentage | src/monkeytype/punctuation.rs:474 | the percentage is capped at 100 and unchanged below it |
| Punctuation.Ord | src/monkeytype/punctuation.rs:4-12 | the `as usize` key of a kind is its declaration position, 0 to 6 |
| Punctuation.OrdInjective | src/monkeytype/punctuation.rs:4-12 | distinct kinds have distinct sort keys |
| Punctuation.SortKinds | src/monkeytype/punctuation.rs:477 | the kinds end up ordered by declaration order and are a permutation of the input |
| Punctuation.Apply | src/monkeytype/punctuation.rs:467-492 | no kinds give an empty word list; otherwise the pass stops at the first kind in declaration order, which is one of the requested kinds |
| QuickMenuItems.Label | src/app/quick_menu/item.rs:20-25 | a category takes the new label and keeps its options; themes and modes are unchanged |
| QuickMenuItems.AddToCategory | src/app/quick_menu/item.rs:89-96 | two labels join with the separator; one label passes through; none gives none |
| QuickMenuItems.AddToCategoryAssociative | src/app/quick_menu/item.rs:89-96 | nested breadcrumbs do not depend on grouping |
| QuickMenuItems.Utf8Len | src/app/quick_menu/item.rs:67 | `String::len` counts UTF-8 bytes: at least one and at most four per character |
| QuickMenuItems.Utf8LenAppend | src/app/quick_menu/item.rs:67 | the byte length of a concatenation is the sum of the byte lengths |
| QuickMenuItems.BreadcrumbBytes | src/app/quick_menu/item.rs:67 | a theme's breadcrumb is as long in bytes as its category and name plus five for the separator |
| QuickMenuItems.SeparatorBytes | src/app/quick_menu/item.rs:91 | the separator occupies five bytes |
| QuickMenuItems.Contains | src/app/quick_menu/item.rs:37 | `str::contains` holds exactly when the word occurs at some position |
| QuickMenuItems.Matches | src/app/quick_menu/item.rs:35-42 | true exactly when every word is a substring of the string, so true for no words |
| QuickMenuItems.Collect | src/app/quick_menu/item.rs:53-56 | the collected list succeeds exactly when every child's list does, and holds only items from the children's lists |
| QuickMenuItems.ItemsFiltered | src/app/quick_menu/item.rs:44-87 | every listed breadcrumb contains all search words (the full characterisation is ItemsFilteredSpec) |
| QuickMenuItems.ItemsFilteredSpec | src/app/quick_menu/item.rs:44-87 | the listing is every theme breadcrumb matching all words, in tree order; it fails when any breadcrumb leaves the list less than 4 bytes of padding |
| QuickMenuItems.AsListItems | src/app/quick_menu/item.rs:31-33 | without words, the listing is every breadcrumb, unless one does not fit |
| QuickMenuItems.PathsCount | src/app/quick_menu/item.rs:51-85 | there is one breadcrumb per theme leaf |
| QuickMenuItems.NoWordsListsEveryTheme | src/app/quick_menu/item.rs:31-33 | with no words and enough width, the item count equals the number of themes |
| QuickMenuItems.ThemeListedIffMatches | src/app/quick_menu/item.rs:62-82 | a theme yields one item exactly when all words match its breadcrumb |
| QuickMenuItems.FromIter | src/app/quick_menu/item.rs:99-115 | an unlabelled category of the themes in iteration order |
| QuickMenuItems.LabelledThemeListPaths | src/app/quick_menu/item.rs:99-108 | the menu's theme list has the breadcrumbs "themes", separator, name |
| QuickMenu.InsertAt | src/app/quick_menu.rs:66 | inserting keeps the characters before the position, places the new one there and shifts the rest right |
| QuickMenu.RemoveAt | src/app/quick_menu.rs:72 | removing keeps the characters before the position and shifts the rest left |
| QuickMenu.RemoveAfterInsert | src/app/quick_menu.rs:65-74 | typing a character and erasing it with backspace restores the line |
| QuickMenu.QuickMenu.constructor | src/app/quick_menu.rs:23-35 | starts hidden, with an empty line, the cursor at 0 and the themes labelled "themes" |
| QuickMenu.QuickMenu.IsVisible | src/app/quick_menu.rs:37-39 | reports whether the menu is shown |
| QuickMenu.QuickMenu.Toggle | src/app/quick_menu.rs:41-43 | flips visibility, keeps the menu valid and changes nothing else |
| QuickMenu.QuickMenu.HandleKeyEvent | src/app/quick_menu.rs:45-86 | keeps the cursor within the line. Ctrl-h/l step left or right, clamped; Ctrl-a/e jump to the ends without editing. A character is inserted at the cursor, which advances. Backspace deletes before the cursor unless it is at 0. Other keys, modifiers and non-press events change nothing |
| QuickMenu.FormatStep | src/app/quick_menu.rs:97-107 | one fold step turns the words of a line into the words of the line extended by one character |
| QuickMenu.QuickMenu.FormatInput | src/app/quick_menu.rs:93-110 | the search words are those of the reference split |
| QuickMenu.Fields | src/app/quick_menu.rs:97-107 | a split at every space has one more field than there are spaces |
| QuickMenu.FormatWords | src/app/quick_menu.rs:93-110 | an empty line gives no words; otherwise there is one more word than there are spaces before the last character |
| QuickMenu.FieldsHaveNoSpaces | src/app/quick_menu.rs:101-105 | no field contains a space |
| QuickMenu.JoinFields | src/app/quick_menu.rs:97-107 | joining the fields with single spaces gives the line back |
| QuickMenu.ConcatFields | src/app/quick_menu.rs:97-107 | gluing the fields together gives the line without its spaces |
| QuickMenu.FormatWordsProperties | src/app/quick_menu.rs:93-110 | no search word contains a space, and together they are the line without its spaces |

## Left out

- Themes.ThemeFileNameRoundTrip: promised only for names without '/', because `get_path` joins the file name as a path, so such a name lands in a subdirectory that `Theme::all` does not read. Themes.JsonThemeNamesMembers carries the same condition.

- Rendering of the list, the search line, the statistics line and the tabs, including the span building in src/app/quick_menu/item.rs:68-75: it is terminal UI. A list item is modelled by its breadcrumb text.
- The list selection of the quick menu (Ctrl-n/p/j/k/g/G) and the empty `select` on Enter: they act on widget state defined outside the core.
- The crossterm event loop in src/app.rs: it is I/O and dispatch.
- `Theme::load`, `deserialize`, JSON parsing and the `read_dir` traversal: these are file I/O. `Theme::all` is modelled as a loop over the directory entries' file names, and `all_quick_menu_items` as `FromIter` over the loaded themes.
- `SystemTime::now()`: clock readings are parameters. `new_char` on a test that has not started reads the clock twice, and both readings are parameters.
- Floating point: cpm, wpm and accuracy are stated over integers and reals.
- Statistics.CpmValue: uses whole milliseconds, not the nanosecond precision of `as_secs_f64`.
- Statistics.Accuracy: the source divides 0 by 0 for an empty log (NaN); the model returns no value. The rounding of the f32 result is not modelled.
- Statistics.TestStatistics.Cpm: requires the end not to precede the start, because the source unwraps `duration_since` there and panics otherwise.
- Punctuation.Apply: every kind's arm is `todo!()`, so the pass is modelled up to the first arm it reaches. That arm is a `Failure` naming the kind, and it is reached only when there are kinds. `apply_count` is computed but never used, and is not modelled.
- The `Language` enumeration: src/monkeytype/language.rs is not part of this model. A representative subset of languages covers every script family and examples of each kind of row that crosses families (Cyrillic to Latin, other Indic scripts to Devanagari, Romaji to Latin, Yiddish to Hebrew); `Unlisted` stands for the languages the mapping sends to `None`.
- The `history` field of the quick menu is never read or written, and is not modelled.
- `QuickMenuItem::category` is the `Category` constructor itself.
- The list width is a `u16` in the source and a `nat` here. Widths above 65535 do not arise from the 80-column cap.
- The colour and border conversions to ratatui types (src/user/config/theme/color.rs, src/user/config/style/ratatui_wrappers/border.rs) are not modelled: they map onto library types. `Color` keeps the named colours, `Rgb` and `Indexed`.
- src/user/config/theme.rs is an unreachable older copy of the theme merge, and is not modelled.
- `TestState` in src/typing.rs and the error shim in src/error.rs have no behaviour to state beyond setters and plumbing.

# ESPN scoreboard exploration script, modelled in Dafny

This project models the core of `api_reasearch/espn_res.py`. That script asks
ESPN's public NFL scoreboard endpoint for a week of games. It then prints a
readable summary of the games and a tour of the response's key structure.
Three parts of the script are modelled here:

- **`print_game_summary(data)`** (`game_summary.dfy`, module `GameSummary`):
  - The "no games" notice when the response is falsy or has no `events` in
    it. That covers a dict without the key, a list without the element
    `"events"` and a str without that substring.
  - Otherwise a banner with the season's `year` and the week's `number`.
  - Then either the empty-week notice or one six-line block per event.
  - An event gets a block only when its first competition has at least two
    competitors.
  - Blocks are numbered by `enumerate(events, 1)`, so an event that prints
    nothing still uses up its number.
  - The matchup reads `away @ home`. Each side is the first competitor marked
    so, and `Unknown` when there is none.
  - The date has every `Z` replaced by `+00:00` before parsing, and the raw
    value is printed when parsing fails.
- **`inspect_data_structure(data)`** (`structure_inspection.dfy`, module
  `StructureInspection`):
  - A heading, then one bullet per top-level key.
  - Then, as far as each level leads on, the keys of the first event, of its
    first competition, of that competition's first competitor and of the
    competitor's team.
- **The query parameters of `fetch_nfl_scoreboard(year, week)`**
  (`scoreboard_query.dfy`, module `ScoreboardQuery`):
  - `limit=100` always.
  - `week` and `seasontype=2` only when `week` is truthy.
  - The `year` argument is never sent.

Printing is modelled as appending lines to a sequence of strings, and each
printing function is a method whose `ensures` ties its output to a
specification function. `PrintGameSummary` is specified by `SummaryLines`,
`InspectDataStructure` by `InspectLines`. The properties the script's output
is meant to have are lemmas about those functions.

Supporting modules:

- `json.dfy`, module `PyJson`:
  - the decoded JSON value;
  - `d.get(k, default)`, `k in d`, `d.keys()`, truthiness and `len`.
- `pytext.dfy`, module `PyText`:
  - Python's `str` and `repr` of those values: what an f-string prints, and
    how a `list` of keys prints.
  - Round-trip lemmas that check the rendering model itself: printed numbers
    and quoted keys read back as what was printed.
- `wrappers.dfy`: an `Option` type.

The date parser is a parameter, `parse: string -> Option<string>`. It stands
for `datetime.fromisoformat` followed by `strftime('%Y-%m-%d %I:%M %p')`, and
gives `None` where either would raise.

Two behaviours of the code worth noting:

- `date.replace('Z', '+00:00')` replaces every `Z`, not only a trailing one.
- An event with no `competitions`, such as `{}`, prints nothing at all. It
  does not print a block of `Unknown` fields, though it still uses up its
  number.

## Model

| member | source | states |
|---|---|---|
| `GameSummary.PrintGameSummary` | api_reasearch/espn_res.py:79-134 | The lines printed are exactly `SummaryLines(data, parse)`: the notice alone, or the banner followed by the empty-week notice or the game blocks |
| `GameSummary.PrintEvents` | api_reasearch/espn_res.py:105-134 | The `enumerate(events, 1)` loop prints exactly the blocks `Games(events, 1, parse)`, in order (loop invariant over the printed prefix) |
| `GameSummary.PrintEvent` | api_reasearch/espn_res.py:105-134 | One turn of the loop prints the six lines of event number `idx` when it qualifies and nothing otherwise |
| `GameSummary.NoGamesNoticeIff` | api_reasearch/espn_res.py:86-88 | The "no games found in response" notice appears if and only if the response is falsy or lacks `events`, and then it is the only line |
| `GameSummary.NoticeAbsent` | api_reasearch/espn_res.py:86-88 | The notice is not among lines that all begin with something other than the warning sign |
| `GameSummary.BannerNotNotice` | api_reasearch/espn_res.py:94-99 | No banner line begins with the warning sign |
| `GameSummary.EventsLinesNotNotice` | api_reasearch/espn_res.py:101-134 | No line after the banner begins with the warning sign |
| `GameSummary.BannerFields` | api_reasearch/espn_res.py:90-99 | The banner is six lines: rule, title, `Season:` line, `Week:` line, rule, empty line. The season and week lines show the stored `year` and `number`, or `Unknown` when the key is missing |
| `GameSummary.EmptyWeek` | api_reasearch/espn_res.py:101-103 | An empty `events` list prints the banner then "No games found for this week." and nothing more |
| `GameSummary.SummaryBlocks` | api_reasearch/espn_res.py:94-134 | The output is the six banner lines and six lines per printed block, and nothing more; lines 6+6j to 11+6j are the j-th printed block |
| `GameSummary.NonDictNotice` | api_reasearch/espn_res.py:86-88 | A response that is not a dict, such as a list or a str the script accepts, prints only the notice |
| `GameSummary.GamesSound` | api_reasearch/espn_res.py:105-134 | Every printed block numbered n comes from event n (counting from 1), and that event qualifies |
| `GameSummary.GamesAscending` | api_reasearch/espn_res.py:105 | Block numbers rise strictly, so blocks appear in response order; gaps are left where events print nothing |
| `GameSummary.GamesComplete` | api_reasearch/espn_res.py:105-134 | Every qualifying event at position i prints a block numbered i+1 |
| `GameSummary.BlockFromEvent` | api_reasearch/espn_res.py:105-134 | A block taken from its numbered slot is the block of the event at that position |
| `GameSummary.PrintedSound` | api_reasearch/espn_res.py:105 | The printed blocks come from the slots their numbers name, in strictly rising order |
| `GameSummary.SoundCons` | api_reasearch/espn_res.py:105 | Putting one more slot in front keeps the blocks sound and ascending |
| `GameSummary.PrintedComplete` | api_reasearch/espn_res.py:105-134 | Every slot holding a block has that block printed |
| `GameSummary.PrintedSnoc` | api_reasearch/espn_res.py:105-134 | One more loop turn appends its block, or nothing |
| `GameSummary.PrintedStep` | api_reasearch/espn_res.py:105-134 | One loop turn extends the printed lines by the block of that event, if any |
| `GameSummary.GameOf` | api_reasearch/espn_res.py:119-134 | An event yields a block exactly when it qualifies, and the block carries the number it was given |
| `GameSummary.Competitors` | api_reasearch/espn_res.py:119-122 | A qualifying event has at least two competitors, each a dict |
| `GameSummary.FirstOnSide` | api_reasearch/espn_res.py:123-124 | The result is the first position whose `homeAway` is the side, or none when no competitor is on it |
| `GameSummary.Side` | api_reasearch/espn_res.py:123-124 | The result of the `next(..., {})` search is a dict whose `team`, if present, is a dict |
| `GameSummary.MatchupSides` | api_reasearch/espn_res.py:123-131 | The name shown for a side is that of the first competitor on it, or `Unknown` when nobody is on it |
| `GameSummary.TeamNameDefault` | api_reasearch/espn_res.py:126-127 | A competitor without `team`, or a team without `displayName`, shows `Unknown` |
| `GameSummary.IdDefault` | api_reasearch/espn_res.py:106 | A missing `id` prints `Unknown`; a present one prints its stored value |
| `GameSummary.StatusDefault` | api_reasearch/espn_res.py:109 | The status is `Unknown` when any hop of `status.type.description` is missing |
| `GameSummary.DateDefault` | api_reasearch/espn_res.py:108-116 | A missing date prints `Unknown date`, since no parser accepts it |
| `GameSummary.UnknownDateKept` | api_reasearch/espn_res.py:108 | The placeholder date has no `Z`, so the rewrite leaves it unchanged |
| `GameSummary.ReplaceZ` | api_reasearch/espn_res.py:113 | The result holds no `Z`, and a text without `Z` is left unchanged |
| `GameSummary.ReplaceZAppend` | api_reasearch/espn_res.py:113 | The rewrite distributes over concatenation |
| `GameSummary.ReplaceZEvery` | api_reasearch/espn_res.py:113 | A `Z` anywhere, not only at the end, becomes `+00:00` |
| `GameSummary.DateTextUtc` | api_reasearch/espn_res.py:112-116 | A date ending in `Z` is parsed with an explicit `+00:00` offset; when parsing fails the raw text, `Z` included, is printed |
| `PyText.Repeat` | api_reasearch/espn_res.py:94 | `c * n` has length n and holds only `c` |
| `GameSummary.GamesLines` | api_reasearch/espn_res.py:129-134 | Every block is six lines |
| `GameSummary.OneGameLines` | api_reasearch/espn_res.py:129-134 | The lines of a single block are its six lines |
| `GameSummary.GamesLinesAppend` | api_reasearch/espn_res.py:129-134 | Printing two runs of blocks is printing their concatenation |
| `GameSummary.GamesLinesBlock` | api_reasearch/espn_res.py:129-134 | Block j occupies lines 6j to 6j+5 |
| `GameSummary.GamesLinesShape` | api_reasearch/espn_res.py:129-134 | Every block line is empty or begins with `G` or a space |
| `StructureInspection.InspectDataStructure` | api_reasearch/espn_res.py:137-174 | The lines printed are exactly `InspectLines(data)`: the header with the top-level keys, then the sample levels |
| `StructureInspection.PrintKeys` | api_reasearch/espn_res.py:151-152 | The key loop prints one bullet per key, in order (loop invariant over the keys done) |
| `StructureInspection.PrintSample` | api_reasearch/espn_res.py:155-159 | The sample part is printed exactly when `events` is present and non-empty, and is the key lists that follow |
| `StructureInspection.PrintCompetition` | api_reasearch/espn_res.py:161-164 | The competition level prints its keys, and what follows, exactly when `competitions` is present and non-empty |
| `StructureInspection.PrintCompetitor` | api_reasearch/espn_res.py:166-169 | The competitor level prints its keys, and what follows, exactly when `competitors` is present and non-empty |
| `StructureInspection.PrintTeam` | api_reasearch/espn_res.py:171-174 | The team's keys are printed exactly when the competitor has `team` |
| `StructureInspection.SampleUnfold` | api_reasearch/espn_res.py:155-159 | The sample part is empty without a present, non-empty `events`; otherwise it is the heading, the first event's keys, an empty line and the levels below |
| `StructureInspection.LevelUnfold` | api_reasearch/espn_res.py:155-174 | Each level prints nothing when its key is missing or its list empty, and otherwise its label with the keys, then the next level |
| `StructureInspection.TopKeysListed` | api_reasearch/espn_res.py:145-153 | The header is `6 + #keys` lines: heading, then `  - key` for each top-level key in order, then an empty line |
| `StructureInspection.BulletsListed` | api_reasearch/espn_res.py:151-153 | The bullets follow what was printed before them, one per key in order, and what follows them comes after |
| `StructureInspection.Bullets` | api_reasearch/espn_res.py:151-152 | One `  - key` line per key, in order |
| `StructureInspection.BulletsStep` | api_reasearch/espn_res.py:151-152 | One turn of the key loop adds the bullet of the next key |
| `StructureInspection.LevelsPrinted` | api_reasearch/espn_res.py:145-174 | The header always comes first. Nothing follows it if and only if there is no first event. Otherwise the sample heading follows, then the key lists along the chain of levels |
| `StructureInspection.ChainIsPrefix` | api_reasearch/espn_res.py:155-174 | The levels form a prefix chain: each value reached is the one the previous level leads to, and the descent stops only at the team or at a level that does not lead on |
| `StructureInspection.ChainStep` | api_reasearch/espn_res.py:155-174 | A level that leads on puts the value it leads to next in the chain |
| `StructureInspection.AllLinkedShift` | api_reasearch/espn_res.py:155-174 | Prepending the value a chain came from keeps every position linked |
| `StructureInspection.LinkedShift` | api_reasearch/espn_res.py:155-174 | Prepending the value a chain came from shifts its links by one |
| `StructureInspection.EndsShift` | api_reasearch/espn_res.py:155-174 | Prepending keeps the chain's end condition |
| `StructureInspection.Chain` | api_reasearch/espn_res.py:155-174 | The chain starts at the value given and has at most one value per remaining level |
| `StructureInspection.Down` | api_reasearch/espn_res.py:155-172 | A level leads on only when its key is present |
| `StructureInspection.LevelLinesFollowChain` | api_reasearch/espn_res.py:155-174 | The key lists printed are, for each level reached, its label with that value's keys and an empty line |
| `StructureInspection.FollowsStep` | api_reasearch/espn_res.py:155-174 | One level's label line and empty line, put before what the next levels print, follow the longer chain |
| `StructureInspection.KeysShownShift` | api_reasearch/espn_res.py:155-174 | A level's lines keep their place relative to the chain when one level is put in front |
| `ScoreboardQuery.ScoreboardParams` | api_reasearch/espn_res.py:18-38 | The dict always holds `limit=100`. It holds `week` and `seasontype=2`, in that order, exactly when `week` is truthy. It never holds `year`, and each key appears once |
| `ScoreboardQuery.Assign` | api_reasearch/espn_res.py:37-38 | Assigning a key adds one entry when the key is new and none when it is present |
| `ScoreboardQuery.AssignNames` | api_reasearch/espn_res.py:37-38 | The keys keep their order, and a new key comes last |
| `ScoreboardQuery.AssignValue` | api_reasearch/espn_res.py:37-38 | After `params[name] = value`, `params[name]` is `value` |
| `ScoreboardQuery.AssignOther` | api_reasearch/espn_res.py:37-38 | The assignment leaves every other key's value unchanged |
| `ScoreboardQuery.AssignDistinct` | api_reasearch/espn_res.py:37-38 | The assignment keeps each key once |
| `ScoreboardQuery.ValueOf` | api_reasearch/espn_res.py:31-38 | A key is found if and only if it is among the keys, and the value found is stored under it |
| `PyJson.Keys` | api_reasearch/espn_res.py:151 | `d.keys()` lists the keys of the entries, in insertion order |
| `PyJson.LookupSpec` | api_reasearch/espn_res.py:90-92 | A lookup succeeds if and only if the key is present, and yields a value stored under it |
| `PyJson.GetSpec` | api_reasearch/espn_res.py:106-109 | `d.get(k, default)` yields the stored value when `k` is present, and `default` only when it is absent |
| `PyJson.Len` | api_reasearch/espn_res.py:122 | `len` is defined exactly on str, list and dict, and is the number of items of a list |
| `PyText.NatToDecimal` | api_reasearch/espn_res.py:129 | The game number prints as decimal digits without a leading zero |
| `PyText.DecimalRoundTrip` | api_reasearch/espn_res.py:129 | Sanity check of the rendering model: the printed game number reads back as the number |
| `PyText.IntToDecimal` | api_reasearch/espn_res.py:96-97 | An int prints with a minus sign exactly when it is negative, followed by digits |
| `PyText.IntRoundTrip` | api_reasearch/espn_res.py:96-97 | Sanity check of the rendering model: a printed int reads back as itself |
| `PyText.QuoteFor` | api_reasearch/espn_res.py:158 | `repr` quotes a key with `"` only when it holds no `"` |
| `PyText.EscapeChar` | api_reasearch/espn_res.py:158 | A character is written as itself or as an escape beginning with a backslash |
| `PyText.ReprStr` | api_reasearch/espn_res.py:158 | A key's `repr` begins and ends with the same quote |
| `PyText.ReprStrRoundTrip` | api_reasearch/espn_res.py:158 | Sanity check of the rendering model: the text between a key's quotes reads back as the key |
| `PyText.EscapeRoundTrip` | api_reasearch/espn_res.py:158 | Sanity check of the rendering model: unescaping an escaped text gives it back |
| `PyText.UnescapeChar` | api_reasearch/espn_res.py:158 | Sanity check of the rendering model: each escaped character reads back as itself |
| `PyText.UnescapeHex` | api_reasearch/espn_res.py:158 | Sanity check of the rendering model: a control character written as `\xhh` reads back as itself |
| `PyText.HexRoundTrip` | api_reasearch/espn_res.py:158 | Sanity check of the rendering model: a hexadecimal digit reads back as its value |

## Left out

- The HTTP request, its 10-second timeout, `raise_for_status` and the handling of `RequestException` are left out (lines 45-55): they are network I/O. Only the parameter dict the request carries is modelled.
- The lines `fetch_nfl_scoreboard` prints about the URL and the parameters (lines 40-43) are left out; they are console output that nothing depends on.
- `save_raw_response` (lines 58-76) is left out: it creates a directory and writes a file.
- `main` and its timestamped file name are left out: they depend on the clock and only drive the functions above.
- Parsing and formatting an ISO-8601 date is the parameter `parse`, not a model of `datetime`.
- JSON numbers are integers only; floats and their printing are not modelled.
- `repr` of a str escapes `\\`, the quote, `\t`, `\n`, `\r` and the ASCII control characters. The `\x`, `\u` and `\U` escapes Python uses for non-printable non-ASCII characters are not modelled.
- A response of the wrong shape, where the script would raise, is excluded by the preconditions `SummaryShaped` and `InspectShaped` rather than modelled as an exception. Examples are a truthy int as the response, a `season` that is not a dict, and a `competitions` that is a truthy non-list. `SummaryShaped` admits every response on which `print_game_summary` only prints the notice: any falsy value, and a truthy dict, list or str without `events` in it.
- GameSummary.PrintGameSummary: when there are at least two competitors, its precondition asks every competitor to be a dict with a dict-or-absent `team`. The script only touches the competitors its `next` searches reach, so a malformed competitor after the matches would not make it raise.
- `event.get('name', 'Unknown matchup')` is read but never printed, so the model does not read it.
- Dicts are taken as having distinct keys, as a decoded JSON object does. `DistinctKeys` holds this for every dict the inspection lists and for the response the summary reads. The deeper dicts the summary only reads with `get` carry no such condition; lookups use the first entry with a key.
- ScoreboardQuery.ScoreboardParams: `week` is modelled as an optional int. Other truthy values Python would accept are not modelled, and neither is the URL encoding of the dict.
- The nested `if`s and the loop bodies of both printing functions are split into one method per level or per turn. The order and content of what they print is the same.

# lol_project readers and league objects, in Dafny

This project models the part of the League of Legends data pipeline that talks
to the Riot API and turns its answers into tables:

- `RiotApiReaders` (`riot_api_readers.dfy`): the list of league pages to
  request (`build_summoners_links_per_division`), the request loop that tries
  a call at most five times and sleeps two minutes after every non-200 answer
  (`load_summoners_from_riot_api`, `load_puuid_for_summoner`), and the two
  column-oriented tables of league entries and mini-series that
  `load_list_of_summoners` builds page after page.
- `LeagueObjects` (`league_objects.dfy`): the pydantic records `MiniSeriesDTO`,
  `LeagueEntryDTO` and `MatchDto` as datatypes, their `.dict()`, `full_dict`,
  `players_list`, `get_game_dict` and `get_game_summoner_dict`.
- `BaseUtils` (`base_utils.dfy`): `build_table_structure_based_on_dict`.
- `PyText` (`py_text.dfy`): Python's `str()` of an `int` and `repr()` of a
  `str`, which is how `full_dict` writes the mini-series, with readers that
  take each rendering back.
- `Wrappers` (`wrappers.dfy`): `Option` and `Result`.

How the outside world enters the model:

- `requests.get` is a parameter. The outcome of attempt `a` of one request is
  `net(a)`: an answer with a status code and a body, or an exception. For the
  many pages of `load_list_of_summoners`, `network(k)` answers the attempts on
  page `k`. Every lemma therefore holds for every behaviour of the server.
- `time.sleep(120)` is counted: the request methods return the seconds they
  would have slept and the requests they would have issued.
- The `eval` that turns a page's bytes into a list of league entries
  is a parameter, `decode`.

The retry loop is written once, as `RequestWithRetry`. The two source functions
that repeat it differ only in the URL they build. The loop is specified by the
function `Retry`, and `RetrySpec` states what the source promises: the first
200 among five attempts wins, and nothing is returned when there is none. The
code sleeps after every non-200 answer. So three rejections followed by a 200
cost three sleeps (`ThreeRejectionsThenOk`), not two as one reading of the
loop's intent would have it. The model follows the code.

`load_list_of_summoners` calls `.decode` on whatever the request returns. When
a page's five attempts all fail, that is `None` and the call raises. The model
returns `Failure(k)` for the first such page `k`, and the tables otherwise.

## Model

| member | source | states |
|---|---|---|
| PyText.NatStr | Lol_job/resources/riot_api_readers.py:80 | `str` of a non-negative int is a non-empty run of decimal digits with no leading zero |
| PyText.IntStr | Lol_job/resources/league_objects.py:45 | `str` of an int starts with `-` exactly when the int is negative |
| PyText.IntStrRoundTrip | Lol_job/resources/league_objects.py:45 | reading an integer back from `str(n)` gives `n` and leaves the text that followed, when that text does not start with a digit |
| PyText.QuoteFor | Lol_job/resources/league_objects.py:45 | the delimiter `repr` picks is a quote that occurs in the text only when both kinds of quote do (and then it is `'`); it is `"` only when the text holds a `'` |
| PyText.StrRepr | Lol_job/resources/league_objects.py:45 | `repr` of a string opens and closes with the same quote: `"` when the text holds a `'` and no `"`, `'` otherwise |
| PyText.StrReprRoundTrip | Lol_job/resources/league_objects.py:45 | reading a string literal back from `repr(s)` gives `s` and leaves the text after the closing quote |
| LeagueObjects.Validate | Lol_job/resources/league_objects.py:12-28 | `LeagueEntryDTO(**raw)` keeps every field; a missing `miniSeries` becomes target 0, wins 0, losses 0, progress `"NNNNN"` |
| LeagueObjects.ValidateForget | Lol_job/resources/league_objects.py:12-28 | validating a validated entry gives it back; leaving out the mini-series is the same as sending the default one |
| LeagueObjects.MiniSeriesDict | Lol_job/resources/league_objects.py:5-10 | `MiniSeriesDTO.dict()` has exactly the four declared fields as keys |
| LeagueObjects.MiniSeriesFromDict | Lol_job/resources/league_objects.py:5-10 | here, where values arrive typed: `MiniSeriesDTO(**d)` succeeds exactly when all four fields are present with values of their types, and the record it builds has `d`'s value under each of the four fields (its `.dict()` agrees with `d` there) |
| LeagueObjects.MiniSeriesDictRoundTrip | Lol_job/resources/league_objects.py:5-10 | rebuilding a mini-series from its own `.dict()` gives it back |
| LeagueObjects.LeagueEntryDict | Lol_job/resources/league_objects.py:12-28 | `LeagueEntryDTO.dict()` has exactly the fourteen declared fields as keys, holds the mini-series as a nested dictionary, and holds the entry's own summoner id and league points |
| LeagueObjects.RenderMiniSeriesRoundTrip | Lol_job/resources/league_objects.py:45 | `str(miniSeries.dict())` determines the mini-series: reading it back gives it |
| LeagueObjects.FullDict | Lol_job/resources/league_objects.py:30-48 | `full_dict(puuid)` carries the given puuid, and its `miniSeries` text reads back as the entry's mini-series |
| LeagueObjects.FullDictRoundTrip | Lol_job/resources/league_objects.py:30-48 | the entry and the puuid can be recovered from the `full_dict` record |
| LeagueObjects.FullDictInjective | Lol_job/resources/league_objects.py:30-48 | two different entries, or two different puuids, never give the same `full_dict` record |
| LeagueObjects.PlayersList | Lol_job/resources/league_objects.py:237-238 | `players_list()` is the metadata's participant list, element by element and in order |
| LeagueObjects.LastWinUnique | Lol_job/resources/league_objects.py:252-256 | the `win` of the last team with a given id is a single value |
| LeagueObjects.GetGameDict | Lol_job/resources/league_objects.py:240-259 | `get_game_dict()` copies the match id, creation, duration, mode and queue, takes both surrender flags from participant 0, and takes `team100Win`/`team200Win` from the last team with id 100/200 |
| LeagueObjects.GetGameSummonerDict | Lol_job/resources/league_objects.py:261-288 | one record per listed player, in order; record `i` takes every statistic from participant `i` and uses its `role` as `teamPosition`; its puuid is player `i` when the lists agree |
| BaseUtils.BuildTableStructureBasedOnDict | Lol_job/resources/base_utils.py:24-29 | the scaffold has exactly the dictionary's keys, as many entries as it, and every column empty |
| BaseUtils.EmptyTableUnique | Lol_job/resources/base_utils.py:24-29 | an empty table is determined by its set of keys |
| BaseUtils.SameKeysSameScaffold | Lol_job/resources/base_utils.py:24-29 | dictionaries with the same keys give the same scaffold, whatever their values |
| RiotApiReaders.BuildSummonersLinksPerDivision | Lol_job/resources/riot_api_readers.py:7-65 | the loops build exactly `LeagueLinks`, of length `3 + (tiers - 3) * divisions` |
| RiotApiReaders.LeagueLinksLength | Lol_job/resources/riot_api_readers.py:46-63 | the list has three apex links plus one link per further tier and division |
| RiotApiReaders.LeagueLinksShape | Lol_job/resources/riot_api_readers.py:13-63 | the first three links are tiers 0, 1 and 2 with division 0; every later position `k` holds tier `3 + (k - 3) / d` with division `(k - 3) % d` |
| RiotApiReaders.LeagueLinksCover | Lol_job/resources/riot_api_readers.py:49-63 | a position past the apex links holds the tier and division of its tier-major index |
| RiotApiReaders.LeagueLinksAt | Lol_job/resources/riot_api_readers.py:49-63 | further tier `i` with division `j` is at position `3 + i * d + j` |
| RiotApiReaders.LeagueLinksUniform | Lol_job/resources/riot_api_readers.py:13-63 | every link asks for page 1 with the configured base path and queue type, the headers and the verbosity |
| RiotApiReaders.RetrySpec | Lol_job/resources/riot_api_readers.py:80-114 | at most five attempts; content exactly when some attempt answers 200, and then the first such answer's content after `k + 1` attempts; five attempts when there is none; one sleep per non-200 answer, none per exception |
| RiotApiReaders.ThreeRejectionsThenOk | Lol_job/resources/riot_api_readers.py:80-114 | three 503 answers then a 200 give the 200's body after four attempts and three sleeps |
| RiotApiReaders.AllRaised | Lol_job/resources/riot_api_readers.py:80-114 | five exceptions give nothing, after five attempts and no sleep |
| RiotApiReaders.RequestWithRetry | Lol_job/resources/riot_api_readers.py:80-114 | the loop returns what `Retry` says, issues one request per attempt to the same URL and headers, and sleeps 120 seconds per non-200 answer |
| RiotApiReaders.LoadSummonersFromRiotApi | Lol_job/resources/riot_api_readers.py:66-114 | the retry loop on `{base_link}{queue_type}/{tier}/{division}?page={page}` |
| RiotApiReaders.LoadPuuidForSummoner | Lol_job/resources/riot_api_readers.py:161-196 | the retry loop on the summoner-v4 URL of the summoner |
| RiotApiReaders.LoadLeaguePage | Lol_job/resources/riot_api_readers.py:140-143 | fetching one link returns what the retry loop gives and issues one request per attempt, each to the link's URL with the link's headers |
| RiotApiReaders.AppendRow | Lol_job/resources/riot_api_readers.py:150-156 | appending a row keeps the table in lock-step: column `prefix + f` gains field `f` of the row, for every field |
| RiotApiReaders.EmptyColumns | Lol_job/resources/riot_api_readers.py:124-130 | one empty column `prefix + f` per field name, and no other column |
| RiotApiReaders.EmptySummonerTables | Lol_job/resources/riot_api_readers.py:122-130 | the two scaffolds tabulate the empty list of entries |
| RiotApiReaders.AppendEntry | Lol_job/resources/riot_api_readers.py:148-156 | one pass of the inner loop adds the validated entry as the last row of both tables |
| RiotApiReaders.AppendPage | Lol_job/resources/riot_api_readers.py:141-156 | a page's entries are added, validated and in order, to both tables |
| RiotApiReaders.HarvestFails | Lol_job/resources/riot_api_readers.py:140-147 | the harvest fails exactly when some page's fetch gives up, and then at the first such page |
| RiotApiReaders.HarvestStops | Lol_job/resources/riot_api_readers.py:140-147 | once a page's fetch gives up, the harvest of any longer list of pages fails at that page |
| RiotApiReaders.SummonerTablesShape | Lol_job/resources/riot_api_readers.py:122-158 | the summoner table has one column per entry field, the mini-series table one `mini_series_` column per mini-series field, each with one cell per entry |
| RiotApiReaders.AbsentMiniSeriesRow | Lol_job/resources/riot_api_readers.py:148-150 | an entry sent without a mini-series adds target 0, wins 0, losses 0 and progress `"NNNNN"` to the mini-series table |
| RiotApiReaders.LoadListOfSummoners | Lol_job/resources/riot_api_readers.py:115-158 | page `k` is requested from the URL and headers of link `k`, once per attempt the retry loop makes, and pages are requested in link order up to the first whose fetch gives up; the result then fails at that page; otherwise cell `i` of column `f` (and of `mini_series_f`) is field `f` of the `i`-th validated entry, over all pages in link order |

## Left out

- Logging: the `print` calls, `logger.info`/`logger.error` and the `verbose` flag only write messages; `verbose` is carried but has no effect, and the `logger` argument of `load_puuid_for_summoner` is dropped.
- The real network and clock: `requests.get` is the parameter `net` (or `network`), and `time.sleep` is counted, not performed.
- The `eval` of a page's text (after `true`/`false` become `True`/`False`) is the parameter `decode`, from bytes to raw league entries; malformed text is not modelled.
- `MiniSeriesFromDict`: pydantic's conversions (a number given for `progress`, the text `"3"` given for `target`) are not modelled; a value of the wrong type is rejected.
- pydantic's validation and type coercion: raw entries are already typed, so only the default mini-series is modelled. A page entry with a missing or mistyped field, which would raise, is not modelled.
- `LeagueEntryDict`: `.dict()` of the other DTOs is not modelled beyond `MiniSeriesDTO`, and the ensures names only the keys, the mini-series and two of the scalar fields; the others follow from `EntryField`.
- Dictionary insertion order: dictionaries are maps, so key order (and the column order of the tables) is not modelled.
- `StrRepr`: only the ASCII and Latin-1 characters Python does not print are escaped; other non-printable Unicode characters pass through as they are.
- The link list inside `load_list_of_summoners` is built inside the mini-series scaffold loop, so once per mini-series field; every build gives the same list, and the model builds it once.
- `LoadListOfSummoners`: a crash is a `Failure` carrying the page index, not a Python exception.
- `BuildSummonersLinksPerDivision` and `LoadListOfSummoners`: the source raises an IndexError when the configuration lists fewer than three tiers or no division; the model requires `LinkableConfig` instead.
- `GetGameDict`: the source raises when the match has no participants or lacks a team with id 100 or 200; the model requires these instead.
- `GetGameSummonerDict`: the source raises when the detail lists fewer participants than the metadata; the model requires at least as many.
- `PartecipantDto`: only the fields the projections read are carried, plus `teamId` and `teamPosition`; the perk records are not carried. `InfoDto` keeps all fifteen of its fields. Floats (timestamps, durations) are carried as their 64-bit patterns and never computed with.
- `get_games`, the pipeline steps, the scripts and loaders, the web scraping and the other helpers of `base_utils.py` (YAML, pandas, database) are not part of this model.

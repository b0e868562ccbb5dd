# sport.db loader core in Dafny

This project models two cooperating pieces of the sport.db fixture loader.

- **`SportDb::Reader`** (`lib/sportdb/reader.rb`) is the fixture-name router.
  - `load(name)` tries an ordered chain of name-shape tests. The first test that passes picks one sub-reader and the options it gets: a country id, a `club:` flag, the current event id, or a race id.
  - The router keeps one piece of session state, `@event`. Only the season/event branch writes it. The national-squads and race-result branches read it.
  - `is_club_fixture?` guesses from the name whether a competition is for clubs or for national teams.
  - `load_setup(name)` picks the manifest (`.txt` preferred, `.yml` as the fallback, with a deprecation notice) and loads its entries in order.
- **`SportDb::EventReader`** (`lib/sportdb/readers/event.rb`) reads one event document.
  - It folds the typed `(key, value)` entries into an attribute map. On the way it resolves league, season, ground and team keys, parses dates and collects fixture names.
  - It then finds the event by its natural key `(league_id, season_id)` and updates it, or creates it.

Modules:

- `Wrappers` holds `Option`.
- `Text` holds Ruby's `strip`, `Array#join` and `Array#inspect` for arrays of strings, decimal digits and literal occurrences.
- `Dates` holds the calendar (Julian before 1582-10-15, Gregorian after), `Date#to_s`, and the `%Y-%m-%d` parse.
- `Patterns` holds the regular expressions of `load`. Each is a position predicate, with a leftmost search giving Ruby's `=~` and `$1`, plus the club heuristic on the same search.
- `Router` holds the ordered classification, the dispatch decision, and the `Reader` class with `Load` and `LoadSetup`.
- `Events` holds the per-key update, the fold, the event table with find-or-create, and the `EventReader` class with `Read`.

Abstractions:

- **Matchers.** The `SportDb::Matcher` helpers (`match_tracks_for_country` and the others) are not part of this model. Each is an abstract function from a name to an optional country key.
- **Database lookups.**
  - `Country.find_by_key!`, `Race.find_by_event_id_and_pos`, and `League/Season/Ground/Team.find_by_key` are finite maps.
  - The event table is a map from `(league_id, season_id)` to a row.
  - A raise or an `exit 1` becomes an error value.
- **File access.**
  - `File.exists?` on the `.txt` manifest is a boolean parameter.
  - `FixtureReader` becomes a function from the manifest path to its list of names.
  - `HashReader#each_typed` output is a given sequence of typed entries.
- **The event read inside `load`.** `reader.rb:149-150` calls `EventReader.new(include_path)` and `read(name)`, which does not match `initialize` at `event.rb:43`: that takes two required arguments (`text`, `config`) and one optional one. The router therefore takes the event read as an abstract function from the fixture name to the id of the event read, or to nothing when the read aborts. `Events.EventReader.Read` models what that read does with a document.

Behaviour of the code worth knowing:

- **Default sources.** A document without `fixtures`/`sources` keys keeps the `sources` attribute at the config name and collects no fixture. `read` presets only the attribute (`event.rb:75`), and `@fixtures` stays empty (`event.rb:57`). `Events.DefaultSources` proves both facts.
- **The `-cup` test.** Every test of `is_club_fixture?` ends in `/`, so the `-cup` test needs a `/` after `-cup`. `brazil-cup` on its own therefore counts as a club competition, as does every name without `/` (`Patterns.NoFolderIsClub`). `brazil-cup/2016` is a national-team competition (`Patterns.NationalCupExamples`).
- **Race context.** The router keeps no current race. The race is looked up on every race-result fixture from `@event` and the position (`reader.rb:114`).

## Model

| member | source | states |
|---|---|---|
| Patterns.LiteralMatchIsOccurs | lib/sportdb/reader.rb:47-50 | the search for a literal pattern finds a position exactly when the pattern occurs somewhere in the name, which is `=~` on a pattern without metacharacters |
| Text.StripIsTrimmedMiddle | lib/sportdb/readers/event.rb:83 | `strip` returns a contiguous middle part of the text that neither starts nor ends with whitespace, and every character it drops before and after that part is whitespace |
| Text.StripIdempotent | lib/sportdb/readers/event.rb:133 | stripping a key twice gives the same key as stripping it once |
| Dates.ParseYmd | lib/sportdb/readers/event.rb:109 | a successful `%Y-%m-%d` parse yields a valid calendar date (month 1-12, day within the month) |
| Dates.ParseFormatRoundTrip | lib/sportdb/readers/event.rb:106-112 | a date printed by `to_s` and parsed back with `%Y-%m-%d` is the same date, so text and date values agree |
| Dates.NonDigitStartIsNoDate | lib/sportdb/readers/event.rb:109 | text that does not start with a digit, such as an array's printed form, fails the date parse |
| Patterns.FirstFrom | lib/sportdb/reader.rb:101-116 | the search returns the leftmost position at or after the start where the pattern matches, and nothing only when none does; this is the position `$1` is taken from |
| Patterns.RunReaches | lib/sportdb/reader.rb:101 | a run of non-`/` characters from a position can reach a position where the rest of the pattern holds exactly when such a position exists |
| Patterns.SquadsCountryKey | lib/sportdb/reader.rb:101-104 | the extracted country key is 2 or 3 lower-case letters that follow `/squads/` and precede `-` |
| Patterns.NationalSquadsMatchShape | lib/sportdb/reader.rb:101 | a squads-with-country match is `/squads/`, the key, `-`, then a `/`-free run reaching the end of a line |
| Patterns.RacePos | lib/sportdb/reader.rb:111-112 | the race position is `$1.to_i`, the decimal value of the two digits between `/` and `-`, so it is below 100 |
| Patterns.IsClubFixture | lib/sportdb/reader.rb:43-55 | a name is a club competition exactly when it names a `club-world-cup` folder or names no `copa-america` or `-cup` folder (each with an optional `!`) |
| Patterns.ClubWorldCupTakesPrecedence | lib/sportdb/reader.rb:47-48 | a name with `club-world-cup/` or `club-world-cup!/` also names a `-cup` folder, yet is judged a club competition |
| Patterns.ClubUnlessNationalCup | lib/sportdb/reader.rb:49-54 | without a club-world-cup folder, a name is a club competition exactly when it names no `copa-america` or `-cup` folder (in either spelling) |
| Patterns.NoFolderIsClub | lib/sportdb/reader.rb:47-54 | a name without `/` is always judged a club competition |
| Patterns.ClubWorldCupExample | lib/sportdb/reader.rb:47-48 | `club-world-cup/2016` is a club competition |
| Patterns.NationalCupExamples | lib/sportdb/reader.rb:49-51 | `copa-america/2016` and `brazil-cup/2016` are national-team competitions |
| Patterns.LeagueFolderExample | lib/sportdb/reader.rb:52-54 | `bl/2013_14` is a club competition |
| Patterns.SingleLineAnchoredMatch | lib/sportdb/reader.rb:62 | on a single-line name, `/^p/` matches exactly when the name begins with `p` |
| Router.ClassifyIsFirstMatch | lib/sportdb/reader.rb:62-159 | the chosen branch's test passes and every test declared before it fails; no match only when no test passes |
| Router.PlainTeamsComeFirst | lib/sportdb/reader.rb:93-95 | a single-line name beginning `teams` that the tracks, players and skiers matchers do not claim goes to the plain team reader with no options and leaves `@event` alone |
| Router.CountryTracksComeBeforeTracks | lib/sportdb/reader.rb:65-74 | when the tracks matcher yields a country key, the country-specific branch wins over `^tracks` |
| Router.NationalSquadsShape | lib/sportdb/reader.rb:101-104 | the squads-with-country branch fires only on `/squads/`, 2-3 lower-case letters (the extracted key), `-` and a final `/`-free run |
| Router.RaceResultsPosition | lib/sportdb/reader.rb:111-112 | the race position is the value of the two digits at the leftmost `/NN-`, below 100 |
| Router.EventFixtureShape | lib/sportdb/reader.rb:145-146 | the event branch fires only on a `YYYY`/`YYYY_YY` season folder (optionally `--suffix`) or a season token that ends a line |
| Router.YearEndsNameIsEventShape | lib/sportdb/reader.rb:146 | a name ending in `/` and four digits passes the event test |
| Router.SeasonFolderIsEventShape | lib/sportdb/reader.rb:145 | a name with a `/YYYY_YY/` folder passes the event test |
| Router.OnlyEventBranchWritesEvent | lib/sportdb/reader.rb:145-159 | every branch but the event branch leaves `@event` unchanged; the event branch sets it to the id the event read returned |
| Router.UnknownNameDispatchesNothing | lib/sportdb/reader.rb:157-159 | a name no branch recognises is reported and handed to no reader |
| Router.OnlySubordinateBranchesReadEvent | lib/sportdb/reader.rb:101-116 | every branch but national squads and race results has the same outcome whatever `@event` holds; an event id in a dispatch is the current `@event`, and a race id is the race of the current event at the extracted position |
| Router.NationalSquadsCarryCurrentEvent | lib/sportdb/reader.rb:104-107 | the squads-with-country dispatch carries the country id and the current `@event` id; a missing country or a nil `@event` raises |
| Router.RaceResultsUseCurrentEvent | lib/sportdb/reader.rb:112-116 | the race-result dispatch passes the race found by the current event and the position; a nil `@event` or a missing race raises |
| Router.CountryVariantsAreClubs | lib/sportdb/reader.rb:125-141 | the country-specific league and team branches pass `club: true` and a country id |
| Router.GenericVariantsUseHeuristic | lib/sportdb/reader.rb:132-144 | the generic league and team branches pass the club heuristic's answer for the name |
| Router.Reader.constructor | lib/sportdb/reader.rb:18-20 | a new reader keeps the include path and has no current event |
| Router.Reader.Load | lib/sportdb/reader.rb:58-161 | one `load`: the dispatch and the new `@event` are exactly the routing decision for the name and the old `@event` |
| Router.Reader.Perform | lib/sportdb/reader.rb:62-159 | the branch chosen for the name makes its lookups and dispatches; its outcome and the new `@event` are exactly that branch's routing decision given the old `@event` |
| Router.Reader.LoadSetup | lib/sportdb/reader.rb:22-40 | the manifest path is `<include_path>/<name>.txt` when it exists, otherwise `.yml` with exactly one deprecation notice; the entries are loaded in manifest order, threading `@event`, until one raises |
| Router.RunStopsAtFirstFailure | lib/sportdb/reader.rb:37-39 | a session has at most one outcome per manifest entry; only its last outcome can be a raise, and it ends before the manifest does only on a raise |
| Router.SubordinateBeforeEventFails | lib/sportdb/reader.rb:104-114 | a race-result entry, or a squads-with-country entry of a known country, loaded before any event fails with `NoCurrentEvent`; for an unknown country the country lookup raises first |
| Router.EventThenSquads | lib/sportdb/reader.rb:101-151 | an event entry followed by a squads-with-country entry passes the event's id to the national team reader |
| Events.GroundIdsConcat | lib/sportdb/readers/event.rb:131-140 | ground ids are resolved item by item: the ids for a concatenation are the concatenated ids, in input order |
| Events.GroundIdsOfResolved | lib/sportdb/readers/event.rb:131-142 | there are at most as many ground ids as keys; as many exactly when every key resolves, each then the id of its key; none when no key resolves |
| Events.UnresolvedGroundIsDropped | lib/sportdb/readers/event.rb:135-136 | a ground key that does not resolve is skipped and changes nothing else |
| Events.TeamIdsAllOrNothing | lib/sportdb/readers/event.rb:146-161 | either every team key resolves and the ids line up one to one with the keys, or the reported key is the first one that does not resolve |
| Events.TeamIdsStopsAtFirstMiss | lib/sportdb/readers/event.rb:150-155 | once a team key fails to resolve, later keys do not change the outcome |
| Events.CollectGroundIds | lib/sportdb/readers/event.rb:131-140 | the ground loop appends exactly the ids of the keys that resolve |
| Events.CollectTeamIds | lib/sportdb/readers/event.rb:146-159 | the team loop appends each key's id and stops at the first key that does not resolve |
| Events.ReadEntry | lib/sportdb/readers/event.rb:82-179 | one pass of the `each_typed` loop body gives exactly the new attributes and fixture list, or the error, that the per-key rules prescribe |
| Events.ApplyTouchesOnlyItsTarget | lib/sportdb/readers/event.rb:82-179 | an entry changes only the attribute its key targets, and only `fixtures`/`sources` add to the fixture list |
| Events.LeagueSeasonStep | lib/sportdb/readers/event.rb:82-102 | `league`/`season` store the id of the stripped key, or abort naming the key |
| Events.DateKeysAreAliases | lib/sportdb/readers/event.rb:104-122 | `start_at`/`begin_at` and `end_at`/`stop_at` behave alike; a date is stored as it is; text is stripped and parsed, and a failed parse aborts |
| Events.TeamsStep | lib/sportdb/readers/event.rb:143-161 | a `teams` array stores its ids when all keys resolve and aborts with the first missing key otherwise |
| Events.Team3IsAlwaysFalse | lib/sportdb/readers/event.rb:163-165 | `team3` stores false whatever its value |
| Events.UnknownKeyIsSkipped | lib/sportdb/readers/event.rb:176-179 | an unknown key leaves attributes and fixtures unchanged |
| Events.FixturesValue | lib/sportdb/readers/event.rb:167-175 | an array sets `sources` to its items joined by `,` and appends them all; a scalar sets `sources` to its string and appends that string |
| Events.ResolveExtends | lib/sportdb/readers/event.rb:78-181 | the fold applies each entry to the state the earlier entries produced |
| Events.ResolveStopsAtFirstAbort | lib/sportdb/readers/event.rb:89-90 | after an entry aborts the read, later entries are not looked at |
| Events.FixturesAccumulate | lib/sportdb/readers/event.rb:167-175 | the fixture list is the concatenation, in order, of what every `fixtures`/`sources` entry contributes |
| Events.UntargetedAttributeKeepsInitial | lib/sportdb/readers/event.rb:75-76 | an attribute no entry targets keeps its preset value |
| Events.LastWriteWins | lib/sportdb/readers/event.rb:82-175 | an attribute holds what the last entry targeting it wrote (last `league`/`season`/`sources` wins, a later ground key replaces earlier ids) |
| Events.DefaultSources | lib/sportdb/readers/event.rb:57-76 | without `fixtures`/`sources` keys, `sources` and `config` keep the config name and no fixture is collected |
| Events.StartDateText | lib/sportdb/readers/event.rb:109 | the text `2013-08-01` is the date 2013-08-01 |
| Events.FourKeyDocument | lib/sportdb/readers/event.rb:75-161 | a league, season, start date and resolvable teams yield exactly the preset attributes plus their ids, the date, and the team ids in input order |
| Events.Upsert | lib/sportdb/readers/event.rb:183-200 | after find-or-create the natural key `(league_id, season_id)` has a row with the returned id, the table gains no other key, and a new id is used up only when the key was absent |
| Events.UpsertFindsOrCreates | lib/sportdb/readers/event.rb:188-200 | after find-or-create, the natural key has a row with the returned id that holds every given attribute; an existing row keeps its id, a new one gets an unused id, other rows stay as they were |
| Events.UpsertKeepsTableValid | lib/sportdb/readers/event.rb:188-200 | rows stay filed under their own league and season and ids stay distinct, so exactly one row has the returned id |
| Events.UpsertIdempotent | lib/sportdb/readers/event.rb:188-200 | a second upsert with the same attributes changes nothing and returns the same id |
| Events.EventReader.constructor | lib/sportdb/readers/event.rb:43-53 | a new reader has the config name as the default sources, no event and an empty fixture list |
| Events.EventReader.Read | lib/sportdb/readers/event.rb:56-204 | `read` resets the fixtures and `@event`, folds the entries; on an abort `@event` stays nil, otherwise the event is upserted by its natural key and `@event` is its id |

## Left out

- Logging is left out: the `logger` calls, and the `[warn]`/`[fatal]` `puts` lines of `event.rb:136` and `event.rb:153-154`. They produce output only and never affect the state. The deprecation notice `puts` of `reader.rb:28` is modelled, as `Router.DeprecationNotice`.
- `EventReader.from_zip` and `from_file` (`event.rb:17-37`) are left out because they only read the text from a zip entry or a file. `from_file` also refers to an undefined `name` at `event.rb:34`. `from_string` (`event.rb:39-41`) only forwards to `new`, which `Events.EventReader.constructor` models.
- `more_attribs` is left out. It is stored by `initialize` and never read.
- The sub-readers and their parsing are left out (`TrackReader`, `TeamReader`, `GameReader`, `RaceReader`, `FixtureReader`, `HashReader`, `PersonReader` and the others). A dispatch names the reader and its options and stops there.
- Sub-reader writes to the database during a session (a team reader adding teams, say) are left out. The country, race and event lookups are one snapshot for the whole session.
- The `SportDb::Matcher` patterns are not part of this model. They are abstract functions.
- `Events.EventReader.Read`: `update_attributes!` validation failures are not modelled, and every upsert succeeds. `DateTime.strptime` yields a `DateTime`, but the model keeps a calendar date, because only the date part is read.
- `Dates.ParseYmd` models a digit-based `%Y-%m-%d` parse, not the full leniency of Ruby's `strptime`:
  - no sign on the year;
  - no surrounding whitespace inside the text, which is already stripped;
  - the year digits are read greedily;
  - the month and day take one or two digits;
  - nothing may follow the day.

  The calendar switches from Julian to Gregorian at 1582-10-15, as Ruby's `Date::ITALY` does.
- `Text.Strip` removes NUL characters at both ends, as `String#strip` of Ruby 3.x does. Older Ruby versions whose `lstrip` keeps a leading NUL would keep it in a stripped key; that case is not modelled.
- `Text.Inspect` models `Array#inspect` on strings without escaping quotes, backslashes or control characters inside the items.
- `Events.ReadError`: `exit 1` on a missing league, season or team, and a raising `strptime` or `each`, all become an error that stops the read. The process exit itself is not modelled. In the router, such a stop becomes a failed load that ends the session.
- Concurrency is left out. The loader is single-threaded.

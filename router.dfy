/**
 * `SportDb::Reader`: the fixture-name router. `Classify` is the ordered
 * `if/elsif` chain of `Reader#load` as a table of tests (first match wins);
 * `Route` adds the lookups each branch makes and says which sub-reader runs
 * with which options, and what becomes of the last event read. The class
 * `Reader` keeps that last event in its field `event`, as `@event` does.
 */
module Router {
  import opened Wrappers
  import opened Text
  import opened Patterns

  type Id = nat

  /**
   * The country-specific name tests of the `SportDb::Matcher` mixin
   * (`match_tracks_for_country` and its siblings). Their patterns are not
   * part of this model: each yields the country key it recognised, if any.
   */
  datatype Matchers = Matchers(
    tracks: string -> Option<string>,
    players: string -> Option<string>,
    skiers: string -> Option<string>,
    stadiums: string -> Option<string>,
    leagues: string -> Option<string>,
    teams: string -> Option<string>)

  /**
   * What the router consults: the matchers, the country table behind
   * `Country.find_by_key!`, the race table behind `Race.find_by_event_id_and_pos`
   * (keyed by event id and race position), and the event read of the season
   * branch, which yields the id of the event it stored or `None` when it aborts.
   */
  datatype Env = Env(
    matchers: Matchers,
    countries: map<string, Id>,
    races: map<(Id, nat), Id>,
    readEvent: string -> Option<Id>)

  /** The branches of `Reader#load`, in declaration order, with the tokens their tests extract. */
  datatype Rule =
    | Circuits
    | CountryTracks(countryKey: string)
    | Tracks
    | Drivers
    | CountryPlayers(countryKey: string)
    | CountrySkiers(countryKey: string)
    | Skiers
    | Teams
    | Races
    | NationalSquads(countryKey: string)
    | Squads
    | RaceResults(pos: nat)
    | Seasons
    | CountryGrounds(countryKey: string)
    | CountryLeagues(countryKey: string)
    | Leagues
    | CountryTeams(countryKey: string)
    | ClubOrNationalTeams
    | EventFixture
    | NoMatch

  /**
   * The test of the branch at position `k` of the `if/elsif` chain of
   * `Reader#load`, on its own; positions 0 to 18 in declaration order.
   */
  predicate Fires(k: nat, name: string, m: Matchers)
  {
    match k
    case 0 => Matches(name, Anchored("circuits"))
    case 1 => m.tracks(name).Some?
    case 2 => Matches(name, Anchored("tracks"))
    case 3 => Matches(name, Anchored("drivers"))
    case 4 => m.players(name).Some?
    case 5 => m.skiers(name).Some?
    case 6 => Matches(name, Anchored("skiers"))
    case 7 => Matches(name, Anchored("teams"))
    case 8 => Matches(name, Literal("/races"))
    case 9 => Matches(name, NationalSquadsAt)
    case 10 => Matches(name, Literal("/squads")) || Matches(name, Literal("/rosters"))
    case 11 => Matches(name, RacePosAt)
    case 12 => Matches(name, Segment("seasons"))
    case 13 => m.stadiums(name).Some?
    case 14 => m.leagues(name).Some?
    case 15 => Matches(name, Segment("leagues"))
    case 16 => m.teams(name).Some?
    case 17 => Matches(name, Segment("teams"))
    case 18 => Matches(name, SeasonDirAt) || Matches(name, SeasonEndAt)
    case _ => false
  }

  /** The branch at position `k`, with the tokens its test extracts (`$1`, the matcher's country key). */
  function RuleAt(k: nat, name: string, m: Matchers): Rule
    requires k < 19 && Fires(k, name, m)
  {
    match k
    case 0 => Circuits
    case 1 => CountryTracks(m.tracks(name).value)
    case 2 => Tracks
    case 3 => Drivers
    case 4 => CountryPlayers(m.players(name).value)
    case 5 => CountrySkiers(m.skiers(name).value)
    case 6 => Skiers
    case 7 => Teams
    case 8 => Races
    case 9 => NationalSquads(SquadsCountryKey(name, Leftmost(name, NationalSquadsAt).value))
    case 10 => Squads
    case 11 => RaceResults(RacePos(name, Leftmost(name, RacePosAt).value))
    case 12 => Seasons
    case 13 => CountryGrounds(m.stadiums(name).value)
    case 14 => CountryLeagues(m.leagues(name).value)
    case 15 => Leagues
    case 16 => CountryTeams(m.teams(name).value)
    case 17 => ClubOrNationalTeams
    case _ => EventFixture
  }

  /** The chain from position `k` on: the first branch whose test passes, or the final `else`. */
  function ClassifyFrom(k: nat, name: string, m: Matchers): Rule
    decreases 19 - k
  {
    if k >= 19 then NoMatch
    else if Fires(k, name, m) then RuleAt(k, name, m)
    else ClassifyFrom(k + 1, name, m)
  }

  /** First match wins: the branch of the first test, in declaration order, that the name passes. */
  function Classify(name: string, m: Matchers): Rule
  {
    ClassifyFrom(0, name, m)
  }

  /** The position of a branch in the chain; `NoMatch` is the final `else`. */
  function Rank(rule: Rule): (k: nat)
    ensures k <= 19
  {
    match rule
    case Circuits => 0
    case CountryTracks(_) => 1
    case Tracks => 2
    case Drivers => 3
    case CountryPlayers(_) => 4
    case CountrySkiers(_) => 5
    case Skiers => 6
    case Teams => 7
    case Races => 8
    case NationalSquads(_) => 9
    case Squads => 10
    case RaceResults(_) => 11
    case Seasons => 12
    case CountryGrounds(_) => 13
    case CountryLeagues(_) => 14
    case Leagues => 15
    case CountryTeams(_) => 16
    case ClubOrNationalTeams => 17
    case EventFixture => 18
    case NoMatch => 19
  }

  /** The branch at position `k` sits at position `k`: distinct positions give distinct branches. */
  lemma RankOfRuleAt(k: nat, name: string, m: Matchers)
    requires k < 19 && Fires(k, name, m)
    ensures Rank(RuleAt(k, name, m)) == k
  {
    var r := RuleAt(k, name, m);
    match k
    case 0 => assert r.Circuits?;
    case 1 => assert r.CountryTracks?;
    case 2 => assert r.Tracks?;
    case 3 => assert r.Drivers?;
    case 4 => assert r.CountryPlayers?;
    case 5 => assert r.CountrySkiers?;
    case 6 => assert r.Skiers?;
    case 7 => assert r.Teams?;
    case 8 => assert r.Races?;
    case 9 => assert r.NationalSquads?;
    case 10 => assert r.Squads?;
    case 11 => assert r.RaceResults?;
    case 12 => assert r.Seasons?;
    case 13 => assert r.CountryGrounds?;
    case 14 => assert r.CountryLeagues?;
    case 15 => assert r.Leagues?;
    case 16 => assert r.CountryTeams?;
    case 17 => assert r.ClubOrNationalTeams?;
    case 18 => assert r.EventFixture?;
  }

  /** From position `k` on, the chain stops at the first test that passes, or at the final `else` when none does. */
  lemma {:induction false} ClassifyFromIsFirstMatch(k: nat, name: string, m: Matchers)
    requires k <= 19
    ensures var r := ClassifyFrom(k, name, m);
      && k <= Rank(r)
      && (Rank(r) < 19 ==> Fires(Rank(r), name, m) && r == RuleAt(Rank(r), name, m))
      && (forall j: nat :: k <= j < Rank(r) ==> !Fires(j, name, m))
    decreases 19 - k
  {
    if k < 19 {
      if Fires(k, name, m) {
        RankOfRuleAt(k, name, m);
      } else {
        ClassifyFromIsFirstMatch(k + 1, name, m);
      }
    }
  }

  /**
   * `Classify` picks the branch whose test is the first, in declaration order,
   * that the name passes; later tests are never consulted. It yields `NoMatch`
   * exactly when no test passes.
   */
  lemma ClassifyIsFirstMatch(name: string, m: Matchers)
    ensures var r := Classify(name, m); var k := Rank(r);
      && (k < 19 ==> Fires(k, name, m) && r == RuleAt(k, name, m))
      && (forall j: nat :: j < k ==> !Fires(j, name, m))
  {
    ClassifyFromIsFirstMatch(0, name, m);
  }

  /** When test `k` is the first that passes, its branch is chosen. */
  lemma {:induction false} FirstPassingTestWins(i: nat, k: nat, name: string, m: Matchers)
    requires i <= k < 19 && Fires(k, name, m)
    requires forall j: nat :: i <= j < k ==> !Fires(j, name, m)
    ensures ClassifyFrom(i, name, m) == RuleAt(k, name, m)
    decreases k - i
  {
    if i < k {
      FirstPassingTestWins(i + 1, k, name, m);
    }
  }

  /**
   * A single-line name that begins with `teams` goes to the plain `TeamReader`
   * with no options, whatever the country-specific team and league matchers say,
   * provided the three matchers tried before it (tracks, players, skiers) do not claim it.
   */
  lemma PlainTeamsComeFirst(name: string, current: Option<Id>, env: Env)
    requires '\n' !in name && LitAt(name, 0, "teams")
    requires env.matchers.tracks(name).None? && env.matchers.players(name).None? && env.matchers.skiers(name).None?
    ensures Classify(name, env.matchers) == Teams
    ensures Route(name, current, env) == Step(Dispatched(TeamReader, NoOptions), current)
  {
    SingleLineAnchoredMatch(name, "circuits");
    SingleLineAnchoredMatch(name, "tracks");
    SingleLineAnchoredMatch(name, "drivers");
    SingleLineAnchoredMatch(name, "skiers");
    SingleLineAnchoredMatch(name, "teams");
    assert name[0] == 't' && name[1] == 'e';
    var m := env.matchers;
    assert !Fires(0, name, m) && !Fires(1, name, m) && !Fires(2, name, m) && !Fires(3, name, m);
    assert !Fires(4, name, m) && !Fires(5, name, m) && !Fires(6, name, m) && Fires(7, name, m);
    FirstPassingTestWins(0, 7, name, m);
  }

  /** The country-specific tracks matcher is tried before `^tracks`, so it wins even on a name that begins with `tracks`. */
  lemma CountryTracksComeBeforeTracks(name: string, m: Matchers)
    requires !Matches(name, Anchored("circuits")) && m.tracks(name).Some?
    ensures Classify(name, m) == CountryTracks(m.tracks(name).value)
  {
    assert !Fires(0, name, m) && Fires(1, name, m);
    FirstPassingTestWins(0, 1, name, m);
  }

  /**
   * The national-squads branch fires only on `/squads/`, two or three lower-case
   * letters (the country key it extracts), `-`, and a run without `/` that ends a line.
   */
  lemma NationalSquadsShape(name: string, m: Matchers)
    requires Classify(name, m).NationalSquads?
    ensures var key := Classify(name, m).countryKey;
      && 2 <= |key| <= 3 && (forall c :: c in key ==> IsLower(c))
      && exists i: nat :: i <= |name| && NationalSquadsAt(name, i) && LitAt(name, i, "/squads/" + key + "-")
           && (exists e: nat :: i + 9 + |key| <= e <= |name| && NoSlash(name, i + 9 + |key|, e) && LineEndAt(name, e))
  {
    ClassifyIsFirstMatch(name, m);
    assert Fires(9, name, m);
    var i := Leftmost(name, NationalSquadsAt).value;
    assert Classify(name, m).countryKey == SquadsCountryKey(name, i);
    NationalSquadsMatchShape(name, i);
  }

  /**
   * The race-result branch reads the two digits between the leftmost `/` and `-`
   * that frame exactly two digits; the position is their value, below 100.
   */
  lemma RaceResultsPosition(name: string, m: Matchers)
    requires Classify(name, m).RaceResults?
    ensures var pos := Classify(name, m).pos;
      && pos < 100
      && exists i: nat :: i <= |name| && RacePosAt(name, i) && pos == 10 * DigitValue(name[i + 1]) + DigitValue(name[i + 2])
           && forall j: nat :: j < i ==> !RacePosAt(name, j)
  {
    ClassifyIsFirstMatch(name, m);
    assert Fires(11, name, m);
    var i := Leftmost(name, RacePosAt).value;
    assert Classify(name, m).pos == RacePos(name, i);
  }

  /** The event branch needs a season folder (`/2013_14/`, `/2012--x/`) or a season token that ends a line. */
  lemma EventFixtureShape(name: string, m: Matchers)
    requires Classify(name, m) == EventFixture
    ensures exists i: nat :: i <= |name| && (SeasonDirAt(name, i) || SeasonEndAt(name, i))
  {
    ClassifyIsFirstMatch(name, m);
    assert Fires(18, name, m);
    if Matches(name, SeasonDirAt) {
      assert SeasonDirAt(name, Leftmost(name, SeasonDirAt).value);
    } else {
      assert SeasonEndAt(name, Leftmost(name, SeasonEndAt).value);
    }
  }

  /** A name that ends in `/` and four digits (`brazil/2012`) passes the event test. */
  lemma YearEndsNameIsEventShape(prefix: string, year: string)
    requires |year| == 4 && AllDigits(year)
    ensures Matches(prefix + "/" + year, SeasonEndAt)
  {
    var s := prefix + "/" + year;
    var i := |prefix|;
    assert s[i] == '/' && s[i + 1..] == year;
    assert SeasonEndAt(s, i);
  }

  /** A folder `/YYYY_YY/` (as in `de/2013_14/bl`) passes the event test. */
  lemma SeasonFolderIsEventShape(prefix: string, season: string, rest: string)
    requires |season| == 7 && AllDigits(season[..4]) && season[4] == '_' && AllDigits(season[5..])
    ensures Matches(prefix + "/" + season + "/" + rest, SeasonDirAt)
  {
    var s := prefix + "/" + season + "/" + rest;
    var i := |prefix|;
    assert s[i] == '/' && s[i + 1..i + 8] == season && s[i + 8] == '/';
    assert s[i + 5..i + 6] == season[4..5] == "_";
    assert SeasonPairAt(s, i + 1);
    assert SeasonDirAt(s, i);
  }

  // ---------------------------------------------------------------------------
  // Dispatch

  /** The sub-readers `Reader#load` hands a fixture to. */
  datatype SubReader =
    | TrackReader | PersonReader | TeamReader | RaceReader | NationalTeamReader | RaceTeamReader
    | RecordReader | SeasonReader | GroundReader | LeagueReader | GameReader

  /** The keyword options a sub-reader's `read` receives; `None` for an option not passed. */
  datatype Options = Options(countryId: Option<Id>, eventId: Option<Id>, raceId: Option<Id>, club: Option<bool>)

  const NoOptions := Options(None, None, None, None)

  datatype LoadError =
    | CountryMissing(key: string)       // Country.find_by_key! raises
    | NoCurrentEvent                    // @event.id on a nil @event
    | RaceMissing(eventId: Id, pos: nat) // race.id on a nil race
    | EventReadAborted(name: string)     // the event read stopped the load

  /** What one `load` does: hand the fixture to one sub-reader, log it as unknown, or raise. */
  datatype Outcome =
    | Dispatched(reader: SubReader, options: Options)
    | Unrecognized(name: string)
    | Failed(error: LoadError)

  datatype Step = Step(outcome: Outcome, event: Option<Id>)

  function WithCountry(reader: SubReader, key: string, countries: map<string, Id>, club: Option<bool>): Outcome
  {
    if key in countries then Dispatched(reader, Options(Some(countries[key]), None, None, club))
    else Failed(CountryMissing(key))
  }

  /** One `load(name)` with `current` as the last event read: its outcome and the event afterwards. */
  function Route(name: string, current: Option<Id>, env: Env): Step
  {
    Dispatch(Classify(name, env.matchers), name, current, env)
  }

  /** The work of the branch `rule` of `load` on `name`, given the last event. */
  function Dispatch(rule: Rule, name: string, current: Option<Id>, env: Env): Step
  {
    match rule
    case Circuits => Step(Dispatched(TrackReader, NoOptions), current)
    case CountryTracks(key) => Step(WithCountry(TrackReader, key, env.countries, None), current)
    case Tracks => Step(Dispatched(TrackReader, NoOptions), current)
    case Drivers => Step(Dispatched(PersonReader, NoOptions), current)
    case CountryPlayers(key) => Step(WithCountry(PersonReader, key, env.countries, None), current)
    case CountrySkiers(key) => Step(WithCountry(PersonReader, key, env.countries, None), current)
    case Skiers => Step(Dispatched(PersonReader, NoOptions), current)
    case Teams => Step(Dispatched(TeamReader, NoOptions), current)
    case Races => Step(Dispatched(RaceReader, NoOptions), current)
    case NationalSquads(key) =>
      if key !in env.countries then Step(Failed(CountryMissing(key)), current)
      else if current.None? then Step(Failed(NoCurrentEvent), current)
      else Step(Dispatched(NationalTeamReader, Options(Some(env.countries[key]), current, None, None)), current)
    case Squads => Step(Dispatched(RaceTeamReader, NoOptions), current)
    case RaceResults(pos) =>
      if current.None? then Step(Failed(NoCurrentEvent), current)
      else if (current.value, pos) !in env.races then Step(Failed(RaceMissing(current.value, pos)), current)
      else Step(Dispatched(RecordReader, Options(None, None, Some(env.races[(current.value, pos)]), None)), current)
    case Seasons => Step(Dispatched(SeasonReader, NoOptions), current)
    case CountryGrounds(key) => Step(WithCountry(GroundReader, key, env.countries, None), current)
    case CountryLeagues(key) => Step(WithCountry(LeagueReader, key, env.countries, Some(true)), current)
    case Leagues => Step(Dispatched(LeagueReader, NoOptions.(club := Some(IsClubFixture(name)))), current)
    case CountryTeams(key) => Step(WithCountry(TeamReader, key, env.countries, Some(true)), current)
    case ClubOrNationalTeams => Step(Dispatched(TeamReader, NoOptions.(club := Some(IsClubFixture(name)))), current)
    case EventFixture =>
      (match env.readEvent(name)
       case Some(id) => Step(Dispatched(GameReader, NoOptions), Some(id))
       case None => Step(Failed(EventReadAborted(name)), current))
    case NoMatch => Step(Unrecognized(name), current)
  }

  /** Only the season/event branch writes the last event, and it writes the id the event read returned. */
  lemma OnlyEventBranchWritesEvent(name: string, current: Option<Id>, env: Env)
    ensures Classify(name, env.matchers) != EventFixture ==> Route(name, current, env).event == current
    ensures Classify(name, env.matchers) == EventFixture ==>
      Route(name, current, env).event == (if env.readEvent(name).Some? then env.readEvent(name) else current)
  {
  }

  /**
   * Only the national-squads and race-result branches read the last event:
   * every other branch has the same outcome whatever `@event` holds. A dispatch
   * that carries an event id carries the current one, and one that carries a
   * race id carries the race of the current event at the extracted position.
   */
  lemma OnlySubordinateBranchesReadEvent(name: string, c1: Option<Id>, c2: Option<Id>, env: Env)
    ensures var r := Classify(name, env.matchers);
      !r.NationalSquads? && !r.RaceResults? ==> Route(name, c1, env).outcome == Route(name, c2, env).outcome
    ensures var r, o := Classify(name, env.matchers), Route(name, c1, env).outcome;
      o.Dispatched? && o.options.eventId.Some? ==> r.NationalSquads? && o.options.eventId == c1
    ensures var r, o := Classify(name, env.matchers), Route(name, c1, env).outcome;
      o.Dispatched? && o.options.raceId.Some? ==>
        r.RaceResults? && c1.Some? && (c1.value, r.pos) in env.races && o.options.raceId == Some(env.races[(c1.value, r.pos)])
  {
    var r := Classify(name, env.matchers);
    assert Route(name, c1, env) == Dispatch(r, name, c1, env);
    assert Route(name, c2, env) == Dispatch(r, name, c2, env);
    match r {
      case NationalSquads(_) =>
      case RaceResults(_) =>
      case EventFixture =>
      case _ =>
    }
  }

  /** A name no branch recognises is reported and dispatched nowhere. */
  lemma UnknownNameDispatchesNothing(name: string, current: Option<Id>, env: Env)
    requires Classify(name, env.matchers) == NoMatch
    ensures Route(name, current, env) == Step(Unrecognized(name), current)
  {
  }

  /**
   * The national-squads dispatch carries the resolved country and the current
   * event; without a known country, or before any event, `load` raises (country first).
   */
  lemma NationalSquadsCarryCurrentEvent(name: string, current: Option<Id>, env: Env)
    requires Classify(name, env.matchers).NationalSquads?
    ensures var key := Classify(name, env.matchers).countryKey;
      Route(name, current, env).outcome ==
        if key !in env.countries then Failed(CountryMissing(key))
        else if current.None? then Failed(NoCurrentEvent)
        else Dispatched(NationalTeamReader, Options(Some(env.countries[key]), current, None, None))
  {
  }

  /** The race-result dispatch looks the race up by the current event and the extracted position. */
  lemma RaceResultsUseCurrentEvent(name: string, current: Option<Id>, env: Env)
    requires Classify(name, env.matchers).RaceResults?
    ensures var pos := Classify(name, env.matchers).pos;
      Route(name, current, env).outcome ==
        if current.None? then Failed(NoCurrentEvent)
        else if (current.value, pos) !in env.races then Failed(RaceMissing(current.value, pos))
        else Dispatched(RecordReader, Options(None, None, Some(env.races[(current.value, pos)]), None))
  {
  }

  /** The country-specific league and team branches always pass `club: true`. */
  lemma CountryVariantsAreClubs(name: string, current: Option<Id>, env: Env)
    requires Classify(name, env.matchers).CountryLeagues? || Classify(name, env.matchers).CountryTeams?
    ensures var o := Route(name, current, env).outcome;
      o.Dispatched? ==> o.options.club == Some(true) && o.options.countryId.Some?
  {
    match Classify(name, env.matchers)
    case CountryLeagues(key) =>
      assert Route(name, current, env).outcome == WithCountry(LeagueReader, key, env.countries, Some(true));
    case CountryTeams(key) =>
      assert Route(name, current, env).outcome == WithCountry(TeamReader, key, env.countries, Some(true));
  }

  /** The generic league and team branches pass the club heuristic's answer for the name. */
  lemma GenericVariantsUseHeuristic(name: string, current: Option<Id>, env: Env)
    requires Classify(name, env.matchers) == Leagues || Classify(name, env.matchers) == ClubOrNationalTeams
    ensures var o := Route(name, current, env).outcome;
      o.Dispatched? && o.options == NoOptions.(club := Some(IsClubFixture(name)))
  {
  }

  const DeprecationNotice := "  deprecated manifest/setup format [SportDb.Reader]; use new plain text format"

  class Reader {
    const includePath: string
    /** The last event read by the season/event branch (`@event`). */
    var event: Option<Id>

    constructor(includePath: string)
      ensures this.includePath == includePath && event == None
    {
      this.includePath := includePath;
      event := None;
    }

    /** `Reader#load`: classify the name, make the lookups its branch needs, and dispatch. */
    method Load(name: string, env: Env) returns (outcome: Outcome)
      modifies this
      ensures Step(outcome, event) == Route(name, old(event), env)
    {
      outcome := Perform(Classify(name, env.matchers), name, env);
    }

    /** The branch `rule` of `Reader#load`: the lookups it makes and the dispatch, or the error it raises. */
    method Perform(rule: Rule, name: string, env: Env) returns (outcome: Outcome)
      modifies this
      ensures Step(outcome, event) == Dispatch(rule, name, old(event), env)
    {
      match rule {
        case Circuits => outcome := Dispatched(TrackReader, NoOptions);
        case CountryTracks(key) => outcome := WithCountry(TrackReader, key, env.countries, None);
        case Tracks => outcome := Dispatched(TrackReader, NoOptions);
        case Drivers => outcome := Dispatched(PersonReader, NoOptions);
        case CountryPlayers(key) => outcome := WithCountry(PersonReader, key, env.countries, None);
        case CountrySkiers(key) => outcome := WithCountry(PersonReader, key, env.countries, None);
        case Skiers => outcome := Dispatched(PersonReader, NoOptions);
        case Teams => outcome := Dispatched(TeamReader, NoOptions);
        case Races => outcome := Dispatched(RaceReader, NoOptions);
        case NationalSquads(key) =>
          if key !in env.countries {
            outcome := Failed(CountryMissing(key));
          } else if event.None? {
            outcome := Failed(NoCurrentEvent);
          } else {
            outcome := Dispatched(NationalTeamReader, Options(Some(env.countries[key]), event, None, None));
          }
        case Squads => outcome := Dispatched(RaceTeamReader, NoOptions);
        case RaceResults(pos) =>
          if event.None? {
            outcome := Failed(NoCurrentEvent);
          } else if (event.value, pos) !in env.races {
            outcome := Failed(RaceMissing(event.value, pos));
          } else {
            outcome := Dispatched(RecordReader, Options(None, None, Some(env.races[(event.value, pos)]), None));
          }
        case Seasons => outcome := Dispatched(SeasonReader, NoOptions);
        case CountryGrounds(key) => outcome := WithCountry(GroundReader, key, env.countries, None);
        case CountryLeagues(key) => outcome := WithCountry(LeagueReader, key, env.countries, Some(true));
        case Leagues => outcome := Dispatched(LeagueReader, NoOptions.(club := Some(IsClubFixture(name))));
        case CountryTeams(key) => outcome := WithCountry(TeamReader, key, env.countries, Some(true));
        case ClubOrNationalTeams => outcome := Dispatched(TeamReader, NoOptions.(club := Some(IsClubFixture(name))));
        case EventFixture =>
          var read := env.readEvent(name);
          if read.Some? {
            event := read;
            outcome := Dispatched(GameReader, NoOptions);
          } else {
            outcome := Failed(EventReadAborted(name));
          }
        case NoMatch => outcome := Unrecognized(name);
      }
    }

    /**
     * `Reader#load_setup`: choose the manifest (`.txt`, or the deprecated `.yml`
     * with one notice when the `.txt` does not exist), then `load` its entries in
     * order. `manifest` gives the entries of the file at a path. A raising `load`
     * ends the setup; an unrecognised name does not.
     */
    method LoadSetup(name: string, txtExists: bool, manifest: string -> seq<string>, env: Env)
      returns (path: string, notices: seq<string>, outcomes: seq<Outcome>)
      modifies this
      ensures path == includePath + "/" + name + (if txtExists then ".txt" else ".yml")
      ensures notices == (if txtExists then [] else [DeprecationNotice])
      ensures Session(outcomes, event) == Run(manifest(path), old(event), env)
    {
      path := includePath + "/" + name + ".txt";
      notices := [];
      if !txtExists {
        notices := [DeprecationNotice];
        path := includePath + "/" + name + ".yml";
      }
      var names := manifest(path);
      outcomes := [];
      var i := 0;
      while i < |names|
        invariant 0 <= i <= |names|
        invariant Run(names, old(event), env) == Prepend(outcomes, Run(names[i..], event, env))
      {
        var before := event;
        var outcome := Load(names[i], env);
        RunStep(names[i..], before, env);
        assert names[i..][0] == names[i] && names[i..][1..] == names[i + 1..];
        PrependTwice(outcomes, [outcome], Run(names[i + 1..], event, env));
        outcomes := outcomes + [outcome];
        if outcome.Failed? {
          return;
        }
        i := i + 1;
      }
    }
  }

  // ---------------------------------------------------------------------------
  // Sessions

  /** The outcomes of a run of `load` calls and the last event afterwards. */
  datatype Session = Session(outcomes: seq<Outcome>, event: Option<Id>)

  function Prepend(done: seq<Outcome>, s: Session): Session
  {
    Session(done + s.outcomes, s.event)
  }

  /** `load` on each name in order, threading the last event, until one raises. */
  function Run(names: seq<string>, current: Option<Id>, env: Env): Session
    decreases |names|
  {
    if names == [] then Session([], current)
    else
      var step := Route(names[0], current, env);
      if step.outcome.Failed? then Session([step.outcome], step.event)
      else Prepend([step.outcome], Run(names[1..], step.event, env))
  }

  lemma PrependTwice(a: seq<Outcome>, b: seq<Outcome>, s: Session)
    ensures Prepend(a, Prepend(b, s)) == Prepend(a + b, s)
  {
    assert a + (b + s.outcomes) == (a + b) + s.outcomes;
  }

  /** A session on a non-empty manifest: the first `load`, then the rest unless it raised. */
  lemma RunStep(names: seq<string>, current: Option<Id>, env: Env)
    requires names != []
    ensures var step := Route(names[0], current, env);
      Run(names, current, env) ==
        if step.outcome.Failed? then Session([step.outcome], step.event)
        else Prepend([step.outcome], Run(names[1..], step.event, env))
  {
  }

  /** One step of a session: the first name's outcome, then the rest of the session unless it raised. */
  lemma RunUnfolds(names: seq<string>, current: Option<Id>, env: Env)
    requires names != []
    ensures var step := Route(names[0], current, env);
      && Run(names, current, env).outcomes[0] == step.outcome
      && (step.outcome.Failed? ==> |Run(names, current, env).outcomes| == 1)
      && (!step.outcome.Failed? ==> Run(names, current, env).outcomes[1..] == Run(names[1..], step.event, env).outcomes)
  {
    var step := Route(names[0], current, env);
    if !step.outcome.Failed? {
      var rest := Run(names[1..], step.event, env).outcomes;
      assert Run(names, current, env).outcomes == [step.outcome] + rest;
      assert ([step.outcome] + rest)[1..] == rest;
    }
  }

  /**
   * A session stops at the first `load` that raises and nowhere else: every
   * outcome before the last is not a failure, and the session stops short of
   * the manifest's end only when its last outcome is one.
   */
  lemma {:induction false} RunStopsAtFirstFailure(names: seq<string>, current: Option<Id>, env: Env)
    ensures var s := Run(names, current, env);
      && |s.outcomes| <= |names|
      && (forall i :: 0 <= i < |s.outcomes| - 1 ==> !s.outcomes[i].Failed?)
      && (|s.outcomes| < |names| ==> |s.outcomes| > 0 && s.outcomes[|s.outcomes| - 1].Failed?)
    decreases |names|
  {
    if names != [] {
      var step := Route(names[0], current, env);
      if !step.outcome.Failed? {
        RunStopsAtFirstFailure(names[1..], step.event, env);
      }
    }
  }

  /**
   * In a session that starts without an event, a national-squads entry (of a
   * known country) or a race-result entry that comes before every event entry
   * raises instead of using a stale event.
   */
  lemma {:induction false} SubordinateBeforeEventFails(names: seq<string>, env: Env, i: nat)
    requires i < |names| && i < |Run(names, None, env).outcomes|
    requires forall j :: 0 <= j < i ==> Classify(names[j], env.matchers) != EventFixture
    requires var r := Classify(names[i], env.matchers); r.RaceResults? || (r.NationalSquads? && r.countryKey in env.countries)
    ensures Run(names, None, env).outcomes[i] == Failed(NoCurrentEvent)
    decreases i
  {
    if i == 0 {
      SubordinateWithoutEventFails(names[0], env);
      RunUnfolds(names, None, env);
    } else {
      var step := Route(names[0], None, env);
      OnlyEventBranchWritesEvent(names[0], None, env);
      RunUnfolds(names, None, env);
      var rest := names[1..];
      forall j | 0 <= j < i - 1
        ensures Classify(rest[j], env.matchers) != EventFixture
      {
        assert rest[j] == names[j + 1];
      }
      SubordinateBeforeEventFails(rest, env, i - 1);
    }
  }

  /** A national-squads entry of a known country, or a race-result entry, raises when no event has been read. */
  lemma SubordinateWithoutEventFails(name: string, env: Env)
    requires var r := Classify(name, env.matchers); r.RaceResults? || (r.NationalSquads? && r.countryKey in env.countries)
    ensures Route(name, None, env).outcome == Failed(NoCurrentEvent)
  {
    if Classify(name, env.matchers).RaceResults? {
      RaceResultsUseCurrentEvent(name, None, env);
    } else {
      NationalSquadsCarryCurrentEvent(name, None, env);
    }
  }

  /** An event entry followed by a national-squads entry: the squads dispatch carries the event just read. */
  lemma EventThenSquads(a: string, b: string, current: Option<Id>, env: Env, id: Id)
    requires Classify(a, env.matchers) == EventFixture && env.readEvent(a) == Some(id)
    requires Classify(b, env.matchers).NationalSquads? && Classify(b, env.matchers).countryKey in env.countries
    ensures var key := Classify(b, env.matchers).countryKey;
      Run([a, b], current, env).outcomes ==
        [Dispatched(GameReader, NoOptions), Dispatched(NationalTeamReader, Options(Some(env.countries[key]), Some(id), None, None))]
  {
    var key := Classify(b, env.matchers).countryKey;
    assert Route(a, current, env) == Step(Dispatched(GameReader, NoOptions), Some(id));
    NationalSquadsCarryCurrentEvent(b, Some(id), env);
    var second := Dispatched(NationalTeamReader, Options(Some(env.countries[key]), Some(id), None, None));
    assert Route(b, Some(id), env).outcome == second;
    assert [a, b][1..] == [b] && [b][1..] == [];
    assert Run([b], Some(id), env).outcomes == [second];
  }
}

/**
 * `SportDb::EventReader#read`: fold the typed entries of an event document
 * into an attribute map (resolving league, season, ground and team keys,
 * parsing dates, collecting fixture names), then find the event by its
 * natural key (league id, season id) and update it, or create it.
 */
module Events {
  import opened Wrappers
  import opened Text
  import opened Dates

  type Id = nat

  /** A typed value of the event document, as `HashReader#each_typed` yields it. */
  datatype Value = Str(text: string) | DateValue(date: Date) | List(items: seq<string>)

  datatype Entry = Entry(key: string, value: Value)

  /** The values stored in the attribute map. */
  datatype Attr = IdAttr(id: Id) | DateAttr(date: Date) | IdsAttr(ids: seq<Id>) | TextAttr(text: string) | BoolAttr(flag: bool)

  type Attribs = map<string, Attr>

  /** The `find_by_key` tables of leagues, seasons, grounds and teams. */
  datatype Lookups = Lookups(leagues: map<string, Id>, seasons: map<string, Id>, grounds: map<string, Id>, teams: map<string, Id>)

  datatype ReadError =
    | LeagueMissing(key: string)  // logged, then `exit 1`
    | SeasonMissing(key: string)  // logged, then `exit 1`
    | BadDate(text: string)       // `strptime` raises
    | NotAList(key: string)       // `each` on a value that is not an array raises
    | TeamMissing(key: string)    // logged, then `exit 1`

  /** `value.to_s`. */
  function ToS(v: Value): string
  {
    match v
    case Str(s) => s
    case DateValue(d) => Format(d)
    case List(xs) => Inspect(xs)
  }

  /** A date value is taken as it is; any other value is stripped and parsed as `%Y-%m-%d`. */
  function DateOf(v: Value): Option<Date>
  {
    if v.DateValue? then Some(v.date) else ParseYmd(Strip(ToS(v)))
  }

  // ---------------------------------------------------------------------------
  // Ground and team keys

  /** The ids of the ground keys that resolve, in order; the others are skipped. */
  function GroundIds(items: seq<string>, grounds: map<string, Id>): seq<Id>
  {
    if items == [] then []
    else
      var ids := GroundIds(items[..|items| - 1], grounds);
      var key := Strip(items[|items| - 1]);
      if key in grounds then ids + [grounds[key]] else ids
  }

  predicate AllResolve(items: seq<string>, table: map<string, Id>)
  {
    forall i :: 0 <= i < |items| ==> Strip(items[i]) in table
  }

  /** Resolving grounds works item by item: the ids of a concatenation are the concatenation of the ids. */
  lemma {:induction false} GroundIdsConcat(a: seq<string>, b: seq<string>, grounds: map<string, Id>)
    ensures GroundIds(a + b, grounds) == GroundIds(a, grounds) + GroundIds(b, grounds)
    decreases |b|
  {
    if b == [] {
      assert a + b == a;
    } else {
      var ab := a + b;
      assert ab[..|ab| - 1] == a + b[..|b| - 1];
      assert ab[|ab| - 1] == b[|b| - 1];
      GroundIdsConcat(a, b[..|b| - 1], grounds);
    }
  }

  /** At most one id per key, and one for every key exactly when every key resolves, each the id of its key. */
  lemma {:induction false} GroundIdsOfResolved(items: seq<string>, grounds: map<string, Id>)
    ensures |GroundIds(items, grounds)| <= |items|
    ensures |GroundIds(items, grounds)| == |items| <==> AllResolve(items, grounds)
    ensures AllResolve(items, grounds) ==>
      forall i :: 0 <= i < |items| ==> GroundIds(items, grounds)[i] == grounds[Strip(items[i])]
    ensures (forall i :: 0 <= i < |items| ==> Strip(items[i]) !in grounds) ==> GroundIds(items, grounds) == []
  {
    if items != [] {
      var init := items[..|items| - 1];
      GroundIdsOfResolved(init, grounds);
      assert forall i :: 0 <= i < |init| ==> init[i] == items[i];
      if !AllResolve(init, grounds) {
        var i :| 0 <= i < |init| && Strip(init[i]) !in grounds;
        assert Strip(items[i]) !in grounds;
      }
    }
  }

  /** A ground key that does not resolve is dropped and changes nothing else. */
  lemma UnresolvedGroundIsDropped(a: seq<string>, key: string, b: seq<string>, grounds: map<string, Id>)
    requires Strip(key) !in grounds
    ensures GroundIds(a + [key] + b, grounds) == GroundIds(a + b, grounds)
  {
    GroundIdsConcat(a + [key], b, grounds);
    GroundIdsConcat(a, [key], grounds);
    GroundIdsConcat(a, b, grounds);
    assert [key][..0] == [];
  }

  datatype TeamIdsResult = AllFound(ids: seq<Id>) | Unresolved(key: string)

  /** The ids of the team keys in order, or the first key that does not resolve. */
  function TeamIds(items: seq<string>, teams: map<string, Id>): TeamIdsResult
  {
    if items == [] then AllFound([])
    else
      match TeamIds(items[..|items| - 1], teams)
      case Unresolved(key) => Unresolved(key)
      case AllFound(ids) =>
        var key := Strip(items[|items| - 1]);
        if key in teams then AllFound(ids + [teams[key]]) else Unresolved(key)
  }

  /** Either every team key resolves and the ids line up with the keys, or the first unresolved key is reported. */
  lemma {:induction false} TeamIdsAllOrNothing(items: seq<string>, teams: map<string, Id>)
    ensures TeamIds(items, teams).AllFound? <==> AllResolve(items, teams)
    ensures TeamIds(items, teams).AllFound? ==>
      var ids := TeamIds(items, teams).ids;
      |ids| == |items| && forall i :: 0 <= i < |items| ==> ids[i] == teams[Strip(items[i])]
    ensures TeamIds(items, teams).Unresolved? ==>
      exists i :: 0 <= i < |items| && TeamIds(items, teams).key == Strip(items[i]) && Strip(items[i]) !in teams
        && AllResolve(items[..i], teams)
  {
    if items != [] {
      var init := items[..|items| - 1];
      TeamIdsAllOrNothing(init, teams);
      assert forall i :: 0 <= i < |init| ==> init[i] == items[i];
      assert items[..|items| - 1] == init;
      if TeamIds(init, teams).Unresolved? {
        var i :| 0 <= i < |init| && TeamIds(init, teams).key == Strip(init[i]) && Strip(init[i]) !in teams
          && AllResolve(init[..i], teams);
        assert init[..i] == items[..i];
      }
    }
  }

  /** Once a key in the first `n` items fails to resolve, later items do not change the answer. */
  lemma {:induction false} TeamIdsStopsAtFirstMiss(items: seq<string>, n: nat, teams: map<string, Id>)
    requires n <= |items| && TeamIds(items[..n], teams).Unresolved?
    ensures TeamIds(items, teams) == TeamIds(items[..n], teams)
    decreases |items| - n
  {
    if n < |items| {
      assert items[..n + 1][..n] == items[..n];
      TeamIdsStopsAtFirstMiss(items, n + 1, teams);
    } else {
      assert items[..n] == items;
    }
  }

  /** The `grounds` loop: append the id of each key that resolves, warn about and skip the rest. */
  method CollectGroundIds(items: seq<string>, grounds: map<string, Id>) returns (ids: seq<Id>)
    ensures ids == GroundIds(items, grounds)
  {
    ids := [];
    var i := 0;
    while i < |items|
      invariant 0 <= i <= |items|
      invariant ids == GroundIds(items[..i], grounds)
    {
      assert items[..i + 1][..i] == items[..i];
      var key := Strip(items[i]);
      if key in grounds {
        ids := ids + [grounds[key]];
      }
      i := i + 1;
    }
    assert items[..i] == items;
  }

  /** The `teams` loop: append the id of each key, stopping at the first key that does not resolve. */
  method CollectTeamIds(items: seq<string>, teams: map<string, Id>) returns (r: TeamIdsResult)
    ensures r == TeamIds(items, teams)
  {
    var ids := [];
    var i := 0;
    while i < |items|
      invariant 0 <= i <= |items|
      invariant TeamIds(items[..i], teams) == AllFound(ids)
    {
      assert items[..i + 1][..i] == items[..i];
      var key := Strip(items[i]);
      if key !in teams {
        TeamIdsStopsAtFirstMiss(items, i + 1, teams);
        return Unresolved(key);
      }
      ids := ids + [teams[key]];
      i := i + 1;
    }
    assert items[..i] == items;
    r := AllFound(ids);
  }

  // ---------------------------------------------------------------------------
  // One entry

  /** The attribute map and the fixture list while `read` walks the entries. */
  datatype State = State(attribs: Attribs, fixtures: seq<string>)

  datatype StepResult = Next(state: State) | Abort(error: ReadError)

  predicate IsDateKey(key: string) { key == "start_at" || key == "begin_at" || key == "end_at" || key == "stop_at" }

  predicate IsGroundKey(key: string) { key == "grounds" || key == "stadiums" || key == "venues" }

  predicate IsFixturesKey(key: string) { key == "fixtures" || key == "sources" }

  /** The attribute an entry key writes; `""` for a key `read` does not know. */
  function Target(key: string): string
  {
    if key == "league" then "league_id"
    else if key == "season" then "season_id"
    else if key == "start_at" || key == "begin_at" then "start_at"
    else if key == "end_at" || key == "stop_at" then "end_at"
    else if IsGroundKey(key) then "ground_ids"
    else if key == "teams" then "team_ids"
    else if key == "team3" then "team3"
    else if IsFixturesKey(key) then "sources"
    else ""
  }

  /** The `sources` text of a `fixtures`/`sources` value: the items joined by `,`, or the value's string form. */
  function SourcesText(v: Value): string
  {
    if v.List? then Join(v.items, ",") else ToS(v)
  }

  /** What a `fixtures`/`sources` value adds to the fixture list. */
  function FixtureItems(v: Value): seq<string>
  {
    if v.List? then v.items else [ToS(v)]
  }

  /**
   * The value an entry writes into its target attribute, or the error that
   * stops `read` there; `None` for an unknown key, which is only logged.
   */
  function Written(e: Entry, db: Lookups): Option<Result>
  {
    var key, v := e.key, e.value;
    if key == "league" then
      var k := Strip(ToS(v));
      Some(if k in db.leagues then Stored(IdAttr(db.leagues[k])) else Error(LeagueMissing(k)))
    else if key == "season" then
      var k := Strip(ToS(v));
      Some(if k in db.seasons then Stored(IdAttr(db.seasons[k])) else Error(SeasonMissing(k)))
    else if IsDateKey(key) then
      Some(match DateOf(v) case Some(d) => Stored(DateAttr(d)) case None => Error(BadDate(Strip(ToS(v)))))
    else if IsGroundKey(key) then
      Some(if v.List? then Stored(IdsAttr(GroundIds(v.items, db.grounds))) else Error(NotAList(key)))
    else if key == "teams" then
      Some(if !v.List? then Error(NotAList(key))
           else match TeamIds(v.items, db.teams)
                case AllFound(ids) => Stored(IdsAttr(ids))
                case Unresolved(k) => Error(TeamMissing(k)))
    else if key == "team3" then Some(Stored(BoolAttr(false)))
    else if IsFixturesKey(key) then Some(Stored(TextAttr(SourcesText(v))))
    else None
  }

  datatype Result = Stored(attr: Attr) | Error(error: ReadError)

  /** One pass of the `each_typed` loop body. */
  function Apply(st: State, e: Entry, db: Lookups): StepResult
  {
    match Written(e, db)
    case None => Next(st)
    case Some(Error(err)) => Abort(err)
    case Some(Stored(a)) =>
      var fixtures := if IsFixturesKey(e.key) then st.fixtures + FixtureItems(e.value) else st.fixtures;
      Next(State(st.attribs[Target(e.key) := a], fixtures))
  }

  function Lookup(a: Attribs, name: string): Option<Attr>
  {
    if name in a then Some(a[name]) else None
  }

  /** An entry changes only the attribute its key targets, and an unknown key changes nothing. */
  lemma ApplyTouchesOnlyItsTarget(st: State, e: Entry, db: Lookups, name: string)
    requires Apply(st, e, db).Next? && name != Target(e.key)
    ensures Lookup(Apply(st, e, db).state.attribs, name) == Lookup(st.attribs, name)
    ensures !IsFixturesKey(e.key) ==> Apply(st, e, db).state.fixtures == st.fixtures
  {
  }

  /** The body of the `each_typed` loop on one entry: the new attributes and fixtures, or the error that ends `read`. */
  method ReadEntry(st: State, e: Entry, db: Lookups) returns (r: StepResult)
    ensures r == Apply(st, e, db)
  {
    var key, value := e.key, e.value;
    var attribs, fixtures := st.attribs, st.fixtures;
    var error: Option<ReadError> := None;
    if key == "league" {
      var k := Strip(ToS(value));
      if k in db.leagues {
        attribs := attribs["league_id" := IdAttr(db.leagues[k])];
      } else {
        error := Some(LeagueMissing(k));
      }
    } else if key == "season" {
      var k := Strip(ToS(value));
      if k in db.seasons {
        attribs := attribs["season_id" := IdAttr(db.seasons[k])];
      } else {
        error := Some(SeasonMissing(k));
      }
    } else if key == "start_at" || key == "begin_at" || key == "end_at" || key == "stop_at" {
      var date := DateOf(value);
      if date.Some? {
        attribs := attribs[Target(key) := DateAttr(date.value)];
      } else {
        error := Some(BadDate(Strip(ToS(value))));
      }
    } else if key == "grounds" || key == "stadiums" || key == "venues" {
      if value.List? {
        var ids := CollectGroundIds(value.items, db.grounds);
        attribs := attribs["ground_ids" := IdsAttr(ids)];
      } else {
        error := Some(NotAList(key));
      }
    } else if key == "teams" {
      if value.List? {
        var found := CollectTeamIds(value.items, db.teams);
        if found.AllFound? {
          attribs := attribs["team_ids" := IdsAttr(found.ids)];
        } else {
          error := Some(TeamMissing(found.key));
        }
      } else {
        error := Some(NotAList(key));
      }
    } else if key == "team3" {
      attribs := attribs["team3" := BoolAttr(false)];
    } else if key == "fixtures" || key == "sources" {
      if value.List? {
        attribs := attribs["sources" := TextAttr(Join(value.items, ","))];
        fixtures := fixtures + value.items;
      } else {
        attribs := attribs["sources" := TextAttr(ToS(value))];
        fixtures := fixtures + [ToS(value)];
      }
    }
    if error.Some? {
      return Abort(error.value);
    }
    r := Next(State(attribs, fixtures));
  }

  /** Only a `fixtures`/`sources` entry adds to the fixture list, and it adds its items at the end. */
  lemma ApplyAddsFixtures(st: State, e: Entry, db: Lookups)
    requires Apply(st, e, db).Next?
    ensures Apply(st, e, db).state.fixtures == st.fixtures + (if IsFixturesKey(e.key) then FixtureItems(e.value) else [])
  {
  }

  /** `start_at` and `begin_at` are one key; so are `end_at` and `stop_at`. A date is stored as it is. */
  lemma DateKeysAreAliases(st: State, v: Value, db: Lookups)
    ensures Apply(st, Entry("start_at", v), db) == Apply(st, Entry("begin_at", v), db)
    ensures Apply(st, Entry("end_at", v), db) == Apply(st, Entry("stop_at", v), db)
    ensures v.DateValue? ==> Apply(st, Entry("start_at", v), db) == Next(st.(attribs := st.attribs["start_at" := DateAttr(v.date)]))
    ensures Apply(st, Entry("start_at", v), db) ==
      match DateOf(v)
      case Some(d) => Next(st.(attribs := st.attribs["start_at" := DateAttr(d)]))
      case None => Abort(BadDate(Strip(ToS(v))))
    ensures v.Str? ==> (Apply(st, Entry("end_at", v), db) ==
      match ParseYmd(Strip(v.text))
      case Some(d) => Next(st.(attribs := st.attribs["end_at" := DateAttr(d)]))
      case None => Abort(BadDate(Strip(v.text))))
  {
  }

  /** `league` and `season` store the id of the stripped key, or abort when it does not resolve. */
  lemma LeagueSeasonStep(st: State, key: string, text: string, db: Lookups)
    requires key == "league" || key == "season"
    ensures var k := Strip(text);
      var table := if key == "league" then db.leagues else db.seasons;
      Apply(st, Entry(key, Str(text)), db) ==
        if k in table then Next(st.(attribs := st.attribs[Target(key) := IdAttr(table[k])]))
        else Abort(if key == "league" then LeagueMissing(k) else SeasonMissing(k))
  {
  }

  /** `team3` stores false whatever its value. */
  lemma Team3IsAlwaysFalse(st: State, v: Value, db: Lookups)
    ensures Apply(st, Entry("team3", v), db) == Next(st.(attribs := st.attribs["team3" := BoolAttr(false)]))
  {
  }

  /** A `teams` array whose keys all resolve stores their ids; one that does not aborts with the first missing key. */
  lemma TeamsStep(st: State, items: seq<string>, db: Lookups)
    ensures Apply(st, Entry("teams", List(items)), db) ==
      match TeamIds(items, db.teams)
      case AllFound(ids) => Next(st.(attribs := st.attribs["team_ids" := IdsAttr(ids)]))
      case Unresolved(k) => Abort(TeamMissing(k))
  {
  }

  /** A key `read` does not know leaves the attributes and the fixture list as they are. */
  lemma UnknownKeyIsSkipped(st: State, e: Entry, db: Lookups)
    requires Target(e.key) == ""
    ensures Apply(st, e, db) == Next(st)
  {
  }

  /** An array of fixtures is joined into `sources` and appended whole; any other value once, as its string. */
  lemma FixturesValue(st: State, key: string, v: Value, db: Lookups)
    requires IsFixturesKey(key)
    ensures Apply(st, Entry(key, v), db) == Next(State(st.attribs["sources" := TextAttr(SourcesText(v))], st.fixtures + FixtureItems(v)))
    ensures v.List? ==> SourcesText(v) == Join(v.items, ",") && FixtureItems(v) == v.items
    ensures !v.List? ==> SourcesText(v) == ToS(v) && FixtureItems(v) == [ToS(v)]
  {
    assert Written(Entry(key, v), db) == Some(Stored(TextAttr(SourcesText(v)))) && Target(key) == "sources" by {
      if key == "fixtures" {
      } else {
      }
    }
  }

  // ---------------------------------------------------------------------------
  // The whole document

  datatype Progress = Going(state: State) | Stopped(state: State, error: ReadError)

  /** The attribute map `read` starts from: `sources` and `config` preset. */
  function Initial(sourcesDefault: string, config: string): State
  {
    State(map["sources" := TextAttr(sourcesDefault), "config" := TextAttr(config)], [])
  }

  /** The `each_typed` loop over `entries`; it stops at the first entry that aborts. */
  function Resolve(entries: seq<Entry>, init: State, db: Lookups): Progress
  {
    if entries == [] then Going(init)
    else
      match Resolve(entries[..|entries| - 1], init, db)
      case Stopped(st, err) => Stopped(st, err)
      case Going(st) =>
        match Apply(st, entries[|entries| - 1], db)
        case Next(st') => Going(st')
        case Abort(err) => Stopped(st, err)
  }

  /** One more entry is applied to the state the entries before it reached. */
  lemma ResolveExtends(prefix: seq<Entry>, e: Entry, init: State, db: Lookups, st: State)
    requires Resolve(prefix, init, db) == Going(st)
    ensures Resolve(prefix + [e], init, db) ==
      match Apply(st, e, db)
      case Next(st') => Going(st')
      case Abort(err) => Stopped(st, err)
  {
    assert (prefix + [e])[..|prefix|] == prefix;
  }

  /** The last entry is applied to the state the entries before it reached, unless they stopped. */
  lemma ResolveStep(entries: seq<Entry>, init: State, db: Lookups)
    requires entries != []
    ensures var p := Resolve(entries[..|entries| - 1], init, db);
      Resolve(entries, init, db) ==
        if p.Stopped? then p
        else match Apply(p.state, entries[|entries| - 1], db)
          case Next(st') => Going(st')
          case Abort(err) => Stopped(p.state, err)
  {
  }

  /** After an abort, later entries are not looked at. */
  lemma {:induction false} ResolveStopsAtFirstAbort(entries: seq<Entry>, n: nat, init: State, db: Lookups)
    requires n <= |entries| && Resolve(entries[..n], init, db).Stopped?
    ensures Resolve(entries, init, db) == Resolve(entries[..n], init, db)
    decreases |entries| - n
  {
    if n < |entries| {
      assert entries[..n + 1][..n] == entries[..n];
      ResolveStopsAtFirstAbort(entries, n + 1, init, db);
    } else {
      assert entries[..n] == entries;
    }
  }

  /** The fixture names all `fixtures`/`sources` entries contribute, in order. */
  function Contributions(entries: seq<Entry>): seq<string>
  {
    if entries == [] then []
    else
      var e := entries[|entries| - 1];
      Contributions(entries[..|entries| - 1]) + (if IsFixturesKey(e.key) then FixtureItems(e.value) else [])
  }

  /** The fixture list accumulates over repeated `fixtures`/`sources` keys; nothing else adds to it. */
  lemma {:induction false} FixturesAccumulate(entries: seq<Entry>, init: State, db: Lookups)
    requires Resolve(entries, init, db).Going?
    ensures Resolve(entries, init, db).state.fixtures == init.fixtures + Contributions(entries)
  {
    if entries != [] {
      var prefix, last := entries[..|entries| - 1], entries[|entries| - 1];
      ResolveStep(entries, init, db);
      FixturesAccumulate(prefix, init, db);
      var st := Resolve(prefix, init, db).state;
      ApplyAddsFixtures(st, last, db);
      assert init.fixtures + Contributions(prefix) + (if IsFixturesKey(last.key) then FixtureItems(last.value) else [])
        == init.fixtures + Contributions(entries);
    }
  }

  /** An attribute no entry targets keeps its initial value (or stays absent). */
  lemma {:induction false} UntargetedAttributeKeepsInitial(entries: seq<Entry>, init: State, db: Lookups, name: string)
    requires Resolve(entries, init, db).Going?
    requires forall j :: 0 <= j < |entries| ==> Target(entries[j].key) != name
    ensures Lookup(Resolve(entries, init, db).state.attribs, name) == Lookup(init.attribs, name)
  {
    if entries != [] {
      var prefix := entries[..|entries| - 1];
      assert forall j :: 0 <= j < |prefix| ==> prefix[j] == entries[j];
      UntargetedAttributeKeepsInitial(prefix, init, db, name);
      ApplyTouchesOnlyItsTarget(Resolve(prefix, init, db).state, entries[|entries| - 1], db, name);
    }
  }

  /**
   * Last write wins: an attribute holds what the last entry targeting it wrote.
   * This covers `league`/`season` (the last key wins), `sources`, `ground_ids`
   * (a later ground key replaces earlier ids) and `team3`.
   */
  lemma {:induction false} LastWriteWins(entries: seq<Entry>, init: State, db: Lookups, i: nat)
    requires Resolve(entries, init, db).Going? && i < |entries| && Target(entries[i].key) != ""
    requires forall j :: i < j < |entries| ==> Target(entries[j].key) != Target(entries[i].key)
    ensures Written(entries[i], db).Some? && Written(entries[i], db).value.Stored?
    ensures Lookup(Resolve(entries, init, db).state.attribs, Target(entries[i].key)) == Some(Written(entries[i], db).value.attr)
  {
    var prefix := entries[..|entries| - 1];
    var last := entries[|entries| - 1];
    if i == |entries| - 1 {
      assert Resolve(prefix, init, db).Going?;
    } else {
      assert forall j :: i < j < |prefix| ==> prefix[j] == entries[j];
      assert prefix[i] == entries[i];
      LastWriteWins(prefix, init, db, i);
      ApplyTouchesOnlyItsTarget(Resolve(prefix, init, db).state, last, db, Target(entries[i].key));
    }
  }

  /** A document without `fixtures`/`sources` keeps `sources` at its default and adds no fixture. */
  lemma DefaultSources(entries: seq<Entry>, sourcesDefault: string, config: string, db: Lookups)
    requires Resolve(entries, Initial(sourcesDefault, config), db).Going?
    requires forall j :: 0 <= j < |entries| ==> !IsFixturesKey(entries[j].key)
    ensures var st := Resolve(entries, Initial(sourcesDefault, config), db).state;
      && Lookup(st.attribs, "sources") == Some(TextAttr(sourcesDefault))
      && Lookup(st.attribs, "config") == Some(TextAttr(config))
      && st.fixtures == []
  {
    var init := Initial(sourcesDefault, config);
    forall j | 0 <= j < |entries|
      ensures Target(entries[j].key) != "sources" && Target(entries[j].key) != "config"
    {
      OnlyFixtureKeysTargetSources(entries[j].key);
    }
    UntargetedAttributeKeepsInitial(entries, init, db, "sources");
    UntargetedAttributeKeepsInitial(entries, init, db, "config");
    FixturesAccumulate(entries, init, db);
    NoFixturesContributeNothing(entries);
  }

  /** `sources` is written only by `fixtures`/`sources` keys, and `config` by no key. */
  lemma OnlyFixtureKeysTargetSources(key: string)
    ensures Target(key) == "sources" <==> IsFixturesKey(key)
    ensures Target(key) != "config"
  {
  }

  lemma {:induction false} NoFixturesContributeNothing(entries: seq<Entry>)
    requires forall j :: 0 <= j < |entries| ==> !IsFixturesKey(entries[j].key)
    ensures Contributions(entries) == []
  {
    if entries != [] {
      NoFixturesContributeNothing(entries[..|entries| - 1]);
    }
  }

  /** The text `2013-08-01` of a `start_at` entry is the calendar date 2013-08-01. */
  lemma StartDateText()
    ensures DateOf(Str("2013-08-01")) == Some(Date(2013, 8, 1))
  {
    StripKeepsTrimmed("2013-08-01");
    assert "2013" + "-" + ("08" + "-" + "01") == "2013-08-01";
    var y, m, d := "2013", "08", "01";
    assert y[..3] == "201" && y[..3][..2] == "20" && y[..3][..2][..1] == "2" && y[..3][..2][..1][..0] == [];
    assert DigitsValue("2") == 2 && DigitsValue("20") == 20 && DigitsValue("201") == 201;
    assert DigitsValue(y) == 2013;
    assert m[..1] == "0" && m[..1][..0] == [] && d[..1] == "0";
    assert DigitsValue(m) == 8 && DigitsValue(d) == 1;
    ParseYmdOfFields("2013", "08", "01");
  }

  /**
   * A document naming a league, a season, a start date and teams, every key
   * resolvable and the date well formed, gives the league and season ids,
   * the date, and the team ids in input order; `sources` keeps its default
   * and no fixture is collected.
   */
  lemma FourKeyDocument(league: string, season: string, start: Value, teams: seq<string>, config: string, db: Lookups)
    requires Strip(league) in db.leagues && Strip(season) in db.seasons
    requires DateOf(start).Some? && AllResolve(teams, db.teams)
    ensures
      var entries := [Entry("league", Str(league)), Entry("season", Str(season)), Entry("start_at", start), Entry("teams", List(teams))];
      var p := Resolve(entries, Initial(config, config), db);
      && p.Going?
      && Lookup(p.state.attribs, "league_id") == Some(IdAttr(db.leagues[Strip(league)]))
      && Lookup(p.state.attribs, "season_id") == Some(IdAttr(db.seasons[Strip(season)]))
      && Lookup(p.state.attribs, "start_at") == Some(DateAttr(DateOf(start).value))
      && p.state.attribs.Keys == {"sources", "config", "league_id", "season_id", "start_at", "team_ids"}
      && p.state.attribs["team_ids"].IdsAttr?
      && |p.state.attribs["team_ids"].ids| == |teams|
      && (forall i :: 0 <= i < |teams| ==> p.state.attribs["team_ids"].ids[i] == db.teams[Strip(teams[i])])
      && Lookup(p.state.attribs, "sources") == Some(TextAttr(config))
      && p.state.fixtures == []
  {
    TeamIdsAllOrNothing(teams, db.teams);
    var ids := TeamIds(teams, db.teams).ids;
    FourKeySteps(league, season, start, teams, config, db, ids);
    FourKeyAttribs(config, IdAttr(db.leagues[Strip(league)]), IdAttr(db.seasons[Strip(season)]), DateAttr(DateOf(start).value), IdsAttr(ids));
  }

  /** The first two entries of `FourKeyDocument`: a resolvable league, then a resolvable season. */
  lemma LeagueThenSeason(league: string, season: string, config: string, db: Lookups)
    requires Strip(league) in db.leagues && Strip(season) in db.seasons
    ensures Resolve([Entry("league", Str(league)), Entry("season", Str(season))], Initial(config, config), db) ==
      Going(State(Initial(config, config).attribs
        ["league_id" := IdAttr(db.leagues[Strip(league)])]
        ["season_id" := IdAttr(db.seasons[Strip(season)])], []))
  {
    var e0, e1 := Entry("league", Str(league)), Entry("season", Str(season));
    var st0 := Initial(config, config);
    var st1 := State(st0.attribs["league_id" := IdAttr(db.leagues[Strip(league)])], []);
    var st2 := State(st1.attribs["season_id" := IdAttr(db.seasons[Strip(season)])], []);
    assert Resolve([e0], st0, db) == Going(st1) by {
      LeagueSeasonStep(st0, "league", league, db);
      ResolveExtends([], e0, st0, db, st0);
      assert [] + [e0] == [e0];
    }
    assert Resolve([e0, e1], st0, db) == Going(st2) by {
      LeagueSeasonStep(st1, "season", season, db);
      ResolveExtends([e0], e1, st0, db, st1);
      assert [e0] + [e1] == [e0, e1];
    }
  }

  /** The attribute map the four entries build, key by key. */
  lemma FourKeyAttribs(config: string, league: Attr, season: Attr, start: Attr, teams: Attr)
    ensures var a := Initial(config, config).attribs["league_id" := league]["season_id" := season]["start_at" := start]["team_ids" := teams];
      && a.Keys == {"sources", "config", "league_id", "season_id", "start_at", "team_ids"}
      && Lookup(a, "league_id") == Some(league)
      && Lookup(a, "season_id") == Some(season)
      && Lookup(a, "start_at") == Some(start)
      && a["team_ids"] == teams
      && Lookup(a, "sources") == Some(TextAttr(config))
  {
  }

  /** The four entries of `FourKeyDocument`, one `ResolveExtends` at a time. */
  lemma FourKeySteps(league: string, season: string, start: Value, teams: seq<string>, config: string, db: Lookups, ids: seq<Id>)
    requires Strip(league) in db.leagues && Strip(season) in db.seasons
    requires DateOf(start).Some? && TeamIds(teams, db.teams) == AllFound(ids)
    ensures
      var entries := [Entry("league", Str(league)), Entry("season", Str(season)), Entry("start_at", start), Entry("teams", List(teams))];
      Resolve(entries, Initial(config, config), db) ==
        Going(State(Initial(config, config).attribs
          ["league_id" := IdAttr(db.leagues[Strip(league)])]
          ["season_id" := IdAttr(db.seasons[Strip(season)])]
          ["start_at" := DateAttr(DateOf(start).value)]
          ["team_ids" := IdsAttr(ids)], []))
  {
    var e0, e1, e2, e3 := Entry("league", Str(league)), Entry("season", Str(season)), Entry("start_at", start), Entry("teams", List(teams));
    var st0 := Initial(config, config);
    var st1 := State(st0.attribs["league_id" := IdAttr(db.leagues[Strip(league)])], []);
    var st2 := State(st1.attribs["season_id" := IdAttr(db.seasons[Strip(season)])], []);
    var st3 := State(st2.attribs["start_at" := DateAttr(DateOf(start).value)], []);
    var st4 := State(st3.attribs["team_ids" := IdsAttr(ids)], []);
    LeagueThenSeason(league, season, config, db);
    assert Resolve([e0, e1, e2], st0, db) == Going(st3) by {
      DateKeysAreAliases(st2, start, db);
      ResolveExtends([e0, e1], e2, st0, db, st2);
      assert [e0, e1] + [e2] == [e0, e1, e2];
    }
    assert Resolve([e0, e1, e2, e3], st0, db) == Going(st4) by {
      TeamsStep(st3, teams, db);
      ResolveExtends([e0, e1, e2], e3, st0, db, st3);
      assert [e0, e1, e2] + [e3] == [e0, e1, e2, e3];
    }
  }

  // ---------------------------------------------------------------------------
  // The event table

  /** The natural key of an event: (league id, season id), either possibly nil. */
  type EventKey = (Option<Id>, Option<Id>)

  datatype EventRow = EventRow(id: Id, attribs: Attribs)

  /** The events, one row per natural key, and the id the next created event gets. */
  datatype EventTable = EventTable(rows: map<EventKey, EventRow>, nextId: Id)

  function IdOf(a: Attribs, name: string): Option<Id>
  {
    if name in a && a[name].IdAttr? then Some(a[name].id) else None
  }

  function NaturalKey(a: Attribs): EventKey
  {
    (IdOf(a, "league_id"), IdOf(a, "season_id"))
  }

  /** Each row is filed under its own league and season, ids are distinct, and below `nextId`. */
  ghost predicate ValidTable(t: EventTable)
  {
    && (forall k :: k in t.rows ==> t.rows[k].id < t.nextId && NaturalKey(t.rows[k].attribs) == k)
    && (forall k1, k2 :: k1 in t.rows && k2 in t.rows && t.rows[k1].id == t.rows[k2].id ==> k1 == k2)
  }

  /** Find the event by (league_id, season_id) and update its attributes, or create it with them. */
  function Upsert(t: EventTable, attribs: Attribs): (r: (EventTable, Id))
    ensures NaturalKey(attribs) in r.0.rows && r.0.rows[NaturalKey(attribs)].id == r.1
    ensures r.0.rows.Keys == t.rows.Keys + {NaturalKey(attribs)}
    ensures NaturalKey(attribs) in t.rows <==> r.0.nextId == t.nextId
  {
    var key := NaturalKey(attribs);
    if key in t.rows then
      var row := t.rows[key];
      (t.(rows := t.rows[key := EventRow(row.id, row.attribs + attribs)]), row.id)
    else
      (EventTable(t.rows[key := EventRow(t.nextId, attribs)], t.nextId + 1), t.nextId)
  }

  /**
   * Find-or-create: afterwards the natural key has a row whose id is the one
   * returned and which holds every given attribute; an existing row keeps its
   * id, a new one gets a fresh id; other rows are untouched.
   */
  lemma UpsertFindsOrCreates(t: EventTable, attribs: Attribs)
    requires ValidTable(t)
    ensures var (t', id) := Upsert(t, attribs); var key := NaturalKey(attribs);
      && key in t'.rows && t'.rows[key].id == id
      && t'.rows.Keys == t.rows.Keys + {key}
      && (forall a :: a in attribs ==> a in t'.rows[key].attribs && t'.rows[key].attribs[a] == attribs[a])
      && (forall k :: k in t.rows && k != key ==> t'.rows[k] == t.rows[k])
      && (key in t.rows ==> id == t.rows[key].id)
      && (key !in t.rows ==> forall k :: k in t.rows ==> t.rows[k].id != id)
  {
  }

  /** Upserting keeps each row under its own natural key and the ids distinct, so exactly one row has the returned id. */
  lemma UpsertKeepsTableValid(t: EventTable, attribs: Attribs)
    requires ValidTable(t)
    ensures var (t', id) := Upsert(t, attribs);
      && ValidTable(t')
      && (forall k :: k in t'.rows && t'.rows[k].id == id ==> k == NaturalKey(attribs))
  {
    var key := NaturalKey(attribs);
    if key in t.rows {
      var row := t.rows[key];
      var merged := row.attribs + attribs;
      assert IdOf(merged, "league_id") == key.0;
      assert IdOf(merged, "season_id") == key.1;
    }
  }

  /** Upserting the same attributes twice leaves the table as upserting once, with the same id. */
  lemma UpsertIdempotent(t: EventTable, attribs: Attribs)
    ensures var (t1, id1) := Upsert(t, attribs); Upsert(t1, attribs) == (t1, id1)
  {
    var key := NaturalKey(attribs);
    var (t1, id1) := Upsert(t, attribs);
    var row := t1.rows[key];
    assert row.attribs + attribs == row.attribs;
    assert t1.rows[key := EventRow(row.id, row.attribs + attribs)] == t1.rows;
  }

  // ---------------------------------------------------------------------------
  // The reader

  datatype ReadOutcome = Saved(table: EventTable, id: Id) | Aborted(error: ReadError)

  class EventReader {
    /** The entries `HashReader#each_typed` yields for the document text. */
    const entries: seq<Entry>
    /** The document's basename. */
    const config: string
    const sourcesDefault: string
    /** The event stored by the last `read`. */
    var event: Option<Id>
    /** The fixture names the last `read` collected. */
    var fixtures: seq<string>

    constructor(entries: seq<Entry>, config: string)
      ensures this.entries == entries && this.config == config && sourcesDefault == config
      ensures event == None && fixtures == []
    {
      this.entries := entries;
      this.config := config;
      sourcesDefault := config;
      event := None;
      fixtures := [];
    }

    /**
     * `EventReader#read`: resolve the entries into attributes, then upsert the
     * event by its natural key. When an entry aborts the read, `event` stays
     * nil and `fixtures` holds what earlier entries contributed.
     */
    method Read(db: Lookups, table: EventTable) returns (outcome: ReadOutcome)
      modifies this
      ensures var p := Resolve(entries, Initial(sourcesDefault, config), db);
        && fixtures == p.state.fixtures
        && (p.Stopped? ==> outcome == Aborted(p.error) && event == None)
        && (p.Going? ==> var (t', id) := Upsert(table, p.state.attribs); outcome == Saved(t', id) && event == Some(id))
    {
      fixtures := [];
      event := None;
      var init := Initial(sourcesDefault, config);
      var attribs: Attribs := init.attribs;
      var i := 0;
      while i < |entries|
        invariant 0 <= i <= |entries|
        invariant Resolve(entries[..i], init, db) == Going(State(attribs, fixtures))
        invariant event == None
      {
        assert entries[..i] + [entries[i]] == entries[..i + 1];
        var step := ReadEntry(State(attribs, fixtures), entries[i], db);
        ResolveExtends(entries[..i], entries[i], init, db, State(attribs, fixtures));
        if step.Abort? {
          ResolveStopsAtFirstAbort(entries, i + 1, init, db);
          outcome := Aborted(step.error);
          return;
        }
        attribs, fixtures := step.state.attribs, step.state.fixtures;
        i := i + 1;
      }
      assert entries[..i] == entries;
      var (t', id) := Upsert(table, attribs);
      outcome := Saved(t', id);
      event := Some(id);
    }
  }
}

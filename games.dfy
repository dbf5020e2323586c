/**
 * The games endpoint of the Go back end: the `sport` and `days` query
 * parameters of `handleListGames`, and `fetchESPNGames`, which merges the
 * provider's per-day scoreboards into one game per event id, lists them and
 * sorts them by start time with an in-place insertion sort.
 *
 * The network is a parameter (each day's response is given), and so is the
 * time library: `parse` stands for `parseESPNTime` (a timestamp, or none),
 * `rfc3339` and `display` for the two `Format` layouts.
 */
module Games {
  import opened Wrappers
  import opened Text
  import opened Numbers

  datatype GameDTO = GameDTO(id: string, sport: string, start: string, home: string, away: string, labelText: string)

  datatype GamesError = MissingSport | UnsupportedSport | NoParseableData

  /* ---------- query parameters ---------- */

  const Sports: set<string> := {"NBA", "NFL", "NHL", "MLB"}

  /**
   * The sport parameter, trimmed and upper-cased: blank is "missing sport", the
   * four supported leagues give their provider path and label, anything else is
   * unsupported.
   */
  function SportRoute(raw: string): (r: Result<(string, string), GamesError>)
    ensures Upper(Trim(raw)) == "" <==> r == Err(MissingSport)
    ensures r.Ok? <==> Upper(Trim(raw)) in Sports
    ensures r.Ok? ==> r.value.1 == Upper(Trim(raw))
  {
    var sport := Upper(Trim(raw));
    if sport == "" then Err(MissingSport)
    else if sport == "NBA" then Ok(("basketball/nba", "NBA"))
    else if sport == "NFL" then Ok(("football/nfl", "NFL"))
    else if sport == "NHL" then Ok(("hockey/nhl", "NHL"))
    else if sport == "MLB" then Ok(("baseball/mlb", "MLB"))
    else Err(UnsupportedSport)
  }

  /** The four leagues have four different provider paths. */
  lemma SportPathsDistinct(a: string, b: string)
    requires SportRoute(a).Ok? && SportRoute(b).Ok?
    ensures SportRoute(a).value.0 == SportRoute(b).value.0 <==> Upper(Trim(a)) == Upper(Trim(b))
  {
  }

  /** The window length: 7 days unless the trimmed parameter is an integer in [1, 30]. */
  function ParseDays(raw: string): (d: int)
    ensures 1 <= d <= 30
    ensures Trim(raw) == "" ==> d == 7
    ensures d != 7 ==> Atoi(Trim(raw)) == Some(d)
    ensures Atoi(Trim(raw)).Some? && 1 <= Atoi(Trim(raw)).value <= 30 ==> d == Atoi(Trim(raw)).value
  {
    var v := Trim(raw);
    if v != "" then
      match Atoi(v)
      case Some(n) => if 1 <= n <= 30 then n else 7
      case None => 7
    else 7
  }

  /** Every accepted window length reads back from its decimal text. */
  lemma ParseDaysOfDecimal(n: int)
    requires 1 <= n <= 30
    ensures ParseDays(IntToDecimal(n)) == n
  {
    DecimalNoSpace(n);
    TrimNoSpace(IntToDecimal(n));
    AtoiOfDecimal(n);
  }

  /** Out-of-range and malformed window lengths fall back to 7. */
  lemma ParseDaysOutOfRange(n: int)
    requires MinInt64 <= n <= MaxInt64 && (n < 1 || n > 30)
    ensures ParseDays(IntToDecimal(n)) == 7
  {
    DecimalNoSpace(n);
    TrimNoSpace(IntToDecimal(n));
    AtoiOfDecimal(n);
  }

  datatype Response = BadRequest(message: string) | BadGateway(message: string) | GamesOk(games: seq<GameDTO>)

  /**
   * `handleListGames`: the sport is checked before anything is fetched; a failed
   * fetch is a bad gateway. `fetch` stands for `fetchESPNGames` over the window
   * of `days` days.
   */
  function ListGames(rawSport: string, rawDays: string,
                     fetch: (string, string, int) -> Result<seq<GameDTO>, GamesError>): (r: Response)
    ensures Upper(Trim(rawSport)) == "" ==> r == BadRequest("missing sport")
    ensures Upper(Trim(rawSport)) != "" && Upper(Trim(rawSport)) !in Sports ==>
      r == BadRequest("unsupported sport (use NBA, NFL, NHL, MLB)")
    ensures r.GamesOk? <==>
      (SportRoute(rawSport).Ok? &&
       fetch(SportRoute(rawSport).value.0, SportRoute(rawSport).value.1, ParseDays(rawDays)).Ok?)
    ensures r.GamesOk? ==>
      r.games == fetch(SportRoute(rawSport).value.0, SportRoute(rawSport).value.1, ParseDays(rawDays)).value
  {
    match SportRoute(rawSport)
    case Err(MissingSport) => BadRequest("missing sport")
    case Err(_) => BadRequest("unsupported sport (use NBA, NFL, NHL, MLB)")
    case Ok((path, sportLabel)) =>
      match fetch(path, sportLabel, ParseDays(rawDays))
      case Ok(out) => GamesOk(out)
      case Err(_) => BadGateway("failed to fetch games")
  }

  /* ---------- provider data ---------- */

  datatype Team = Team(displayName: string, shortDisplayName: string)
  datatype Competitor = Competitor(homeAway: string, team: Team)
  datatype Competition = Competition(date: string, competitors: seq<Competitor>)
  datatype Event = Event(id: string, date: string, competitions: seq<Competition>)

  /** One day's request: it failed, got a non-2xx status, did not decode, or gave a scoreboard. */
  datatype DayResult = RequestFailed | BadStatus | DecodeFailed | Scoreboard(events: seq<Event>)

  /** What the fetch needs besides the responses: the label, the window start and the time library. */
  datatype Env = Env(sportLabel: string, start: int,
                     parse: string -> Option<int>, rfc3339: int -> string, display: int -> string)

  /** A competitor's name: the display name, or the short name when it is empty. */
  function NameOf(c: Competitor): (n: string)
    ensures c.team.displayName != "" ==> n == c.team.displayName
    ensures c.team.displayName == "" ==> n == c.team.shortDisplayName
  {
    if c.team.displayName == "" then c.team.shortDisplayName else c.team.displayName
  }

  predicate IsHome(c: Competitor) {
    Lower(c.homeAway) == "home"
  }

  /**
   * The name the competitor loop leaves in `home` (isHome) or `away` (not isHome):
   * the name of the last competitor on that side, or "" when there is none.
   */
  function LastName(cs: seq<Competitor>, isHome: bool): (n: string)
    ensures n == "" || exists c :: c in cs && n == NameOf(c)
  {
    if cs == [] then ""
    else if IsHome(cs[|cs| - 1]) == isHome then NameOf(cs[|cs| - 1])
    else LastName(cs[..|cs| - 1], isHome)
  }

  /** A later competitor on the same side overrides an earlier one; no competitor on a side
      leaves it empty. */
  lemma {:induction false} LastNameIsLast(cs: seq<Competitor>, isHome: bool)
    ensures (forall k :: 0 <= k < |cs| ==> IsHome(cs[k]) != isHome) ==> LastName(cs, isHome) == ""
    ensures (exists k :: 0 <= k < |cs| && IsHome(cs[k]) == isHome) ==>
      exists k :: 0 <= k < |cs| && IsHome(cs[k]) == isHome && LastName(cs, isHome) == NameOf(cs[k])
        && forall l :: k < l < |cs| ==> IsHome(cs[l]) != isHome
  {
    if cs != [] {
      var init := cs[..|cs| - 1];
      LastNameIsLast(init, isHome);
      if IsHome(cs[|cs| - 1]) != isHome {
        if exists k :: 0 <= k < |cs| && IsHome(cs[k]) == isHome {
          var k0 :| 0 <= k0 < |cs| && IsHome(cs[k0]) == isHome;
          assert init[k0] == cs[k0];
          var k :| 0 <= k < |init| && IsHome(init[k]) == isHome && LastName(init, isHome) == NameOf(init[k])
            && forall l :: k < l < |init| ==> IsHome(init[l]) != isHome;
          assert cs[k] == init[k];
          forall l | k < l < |cs| ensures IsHome(cs[l]) != isHome {
            if l < |init| { assert cs[l] == init[l]; }
          }
        } else {
          forall k | 0 <= k < |init| ensures IsHome(init[k]) != isHome {
            assert init[k] == cs[k];
          }
        }
      }
    }
  }

  /** The competitors that decide home and away: those of the first competition. */
  function CompetitorsOf(ev: Event): seq<Competitor> {
    if |ev.competitions| > 0 then ev.competitions[0].competitors else []
  }

  /** The home/away loop over the first competition's competitors. */
  method HomeAway(ev: Event) returns (home: string, away: string)
    ensures home == LastName(CompetitorsOf(ev), true)
    ensures away == LastName(CompetitorsOf(ev), false)
  {
    home := "";
    away := "";
    if |ev.competitions| > 0 {
      var cs := ev.competitions[0].competitors;
      for i := 0 to |cs|
        invariant home == LastName(cs[..i], true) && away == LastName(cs[..i], false)
      {
        assert cs[..i + 1][..i] == cs[..i];
        var name := NameOf(cs[i]);
        if Lower(cs[i].homeAway) == "home" {
          home := name;
        } else {
          away := name;
        }
      }
      assert cs[..|cs|] == cs;
    }
  }

  /** The event's start: its own date, else its first competition's date. */
  function EventTime(ev: Event, parse: string -> Option<int>): (t: Option<int>)
    ensures parse(ev.date).Some? ==> t == parse(ev.date)
    ensures parse(ev.date).None? && |ev.competitions| == 0 ==> t.None?
    ensures parse(ev.date).None? && |ev.competitions| > 0 ==> t == parse(ev.competitions[0].date)
  {
    var t := parse(ev.date);
    if t.None? && |ev.competitions| > 0 then parse(ev.competitions[0].date) else t
  }

  /** The game an event yields: none when its time does not parse or is before the window start. */
  function EventGame(ev: Event, env: Env): (g: Option<GameDTO>)
    ensures g.Some? <==> EventTime(ev, env.parse).Some? && EventTime(ev, env.parse).value >= env.start
    ensures g.Some? ==>
      && g.value.id == ev.id && g.value.sport == env.sportLabel
      && g.value.start == env.rfc3339(EventTime(ev, env.parse).value)
      && g.value.home == LastName(CompetitorsOf(ev), true)
      && g.value.away == LastName(CompetitorsOf(ev), false)
  {
    var t := EventTime(ev, env.parse);
    if t.None? || t.value < env.start then None
    else
      var home := LastName(CompetitorsOf(ev), true);
      var away := LastName(CompetitorsOf(ev), false);
      Some(GameDTO(ev.id, env.sportLabel, env.rfc3339(t.value), home, away,
                   away + " @ " + home + " — " + env.display(t.value)))
  }

  /** `byID` after the events, in order: each accepted event (re)places the game under its id. */
  function AddEvents(m: map<string, GameDTO>, evs: seq<Event>, env: Env): map<string, GameDTO>
  {
    if evs == [] then m
    else
      var m1 := AddEvents(m, evs[..|evs| - 1], env);
      match EventGame(evs[|evs| - 1], env)
      case Some(g) => m1[g.id := g]
      case None => m1
  }

  /** `byID` after every day's scoreboard. */
  function AddDays(m: map<string, GameDTO>, days: seq<DayResult>, env: Env): map<string, GameDTO>
  {
    if days == [] then m
    else
      var m1 := AddDays(m, days[..|days| - 1], env);
      match days[|days| - 1]
      case Scoreboard(evs) => AddEvents(m1, evs, env)
      case _ => m1
  }

  /** Some event's time did not parse. */
  predicate EventsHadErr(evs: seq<Event>, env: Env) {
    evs != [] && (EventsHadErr(evs[..|evs| - 1], env) || EventTime(evs[|evs| - 1], env.parse).None?)
  }

  /** Some day failed, or held an event whose time did not parse. */
  predicate HadErr(days: seq<DayResult>, env: Env) {
    days != [] &&
      (HadErr(days[..|days| - 1], env) || !days[|days| - 1].Scoreboard? || EventsHadErr(days[|days| - 1].events, env))
  }

  lemma {:induction false} EventsHadErrMeans(evs: seq<Event>, env: Env)
    ensures EventsHadErr(evs, env) <==> exists e :: 0 <= e < |evs| && EventTime(evs[e], env.parse).None?
  {
    if evs != [] {
      var init := evs[..|evs| - 1];
      EventsHadErrMeans(init, env);
      if exists e :: 0 <= e < |evs| && EventTime(evs[e], env.parse).None? {
        var e :| 0 <= e < |evs| && EventTime(evs[e], env.parse).None?;
        if e < |init| { assert init[e] == evs[e]; }
      }
      if EventsHadErr(init, env) {
        var e :| 0 <= e < |init| && EventTime(init[e], env.parse).None?;
        assert init[e] == evs[e];
      }
    }
  }

  /** The error flag is set exactly when some day failed or held an event whose time did
      not parse. */
  lemma {:induction false} HadErrMeans(days: seq<DayResult>, env: Env)
    ensures HadErr(days, env) <==>
      exists d :: 0 <= d < |days| && (!days[d].Scoreboard? || EventsHadErr(days[d].events, env))
  {
    if days != [] {
      var init := days[..|days| - 1];
      HadErrMeans(init, env);
      if exists d :: 0 <= d < |days| && (!days[d].Scoreboard? || EventsHadErr(days[d].events, env)) {
        var d :| 0 <= d < |days| && (!days[d].Scoreboard? || EventsHadErr(days[d].events, env));
        if d < |init| { assert init[d] == days[d]; }
      }
      if HadErr(init, env) {
        var d :| 0 <= d < |init| && (!init[d].Scoreboard? || EventsHadErr(init[d].events, env));
        assert init[d] == days[d];
      }
    }
  }

  /** Every game sits under its own id. */
  predicate KeyedById(m: map<string, GameDTO>) {
    forall id :: id in m ==> m[id].id == id
  }

  lemma {:induction false} AddEventsKeyed(m: map<string, GameDTO>, evs: seq<Event>, env: Env)
    requires KeyedById(m)
    ensures KeyedById(AddEvents(m, evs, env))
  {
    if evs != [] {
      AddEventsKeyed(m, evs[..|evs| - 1], env);
    }
  }

  lemma {:induction false} AddDaysKeyed(m: map<string, GameDTO>, days: seq<DayResult>, env: Env)
    requires KeyedById(m)
    ensures KeyedById(AddDays(m, days, env))
  {
    if days != [] {
      AddDaysKeyed(m, days[..|days| - 1], env);
      if days[|days| - 1].Scoreboard? {
        AddEventsKeyed(AddDays(m, days[..|days| - 1], env), days[|days| - 1].events, env);
      }
    }
  }

  /** Events that yield no game under the id leave its entry as it was. */
  lemma {:induction false} AddEventsOther(m: map<string, GameDTO>, evs: seq<Event>, env: Env, id: string)
    requires forall j :: 0 <= j < |evs| && EventGame(evs[j], env).Some? ==> evs[j].id != id
    ensures id in AddEvents(m, evs, env) <==> id in m
    ensures id in m ==> AddEvents(m, evs, env)[id] == m[id]
  {
    if evs != [] {
      var init := evs[..|evs| - 1];
      assert forall j :: 0 <= j < |init| ==> init[j] == evs[j];
      AddEventsOther(m, init, env, id);
    }
  }

  /** The events never drop an id already in the map. */
  lemma {:induction false} AddEventsGrows(m: map<string, GameDTO>, evs: seq<Event>, env: Env)
    ensures m.Keys <= AddEvents(m, evs, env).Keys
  {
    if evs != [] {
      AddEventsGrows(m, evs[..|evs| - 1], env);
    }
  }

  /** The game kept under an id is the one the last accepted event with that id yields: a
      later occurrence of an id replaces an earlier one. */
  lemma {:induction false} LaterEventWins(m: map<string, GameDTO>, evs: seq<Event>, k: nat, env: Env)
    requires k < |evs| && EventGame(evs[k], env).Some?
    requires forall j :: k < j < |evs| && EventGame(evs[j], env).Some? ==> evs[j].id != evs[k].id
    ensures evs[k].id in AddEvents(m, evs, env)
    ensures AddEvents(m, evs, env)[evs[k].id] == EventGame(evs[k], env).value
  {
    var init := evs[..|evs| - 1];
    var m1 := AddEvents(m, init, env);
    if k < |init| {
      assert forall j :: 0 <= j < |init| ==> init[j] == evs[j];
      LaterEventWins(m, init, k, env);
      var last := EventGame(evs[|evs| - 1], env);
      assert last.Some? ==> last.value.id != evs[k].id;
    }
  }

  /** Every accepted event's id is in the map after the events. */
  lemma {:induction false} AddEventsReaches(m: map<string, GameDTO>, evs: seq<Event>, k: nat, env: Env)
    requires k < |evs| && EventGame(evs[k], env).Some?
    ensures evs[k].id in AddEvents(m, evs, env)
  {
    var init := evs[..|evs| - 1];
    if k < |init| {
      assert init[k] == evs[k];
      AddEventsReaches(m, init, k, env);
    }
  }

  /** Over all days, the game kept under an id is the one the last accepted event with that
      id yields, in day order and then in event order. */
  lemma {:induction false} LaterDayEventWins(m: map<string, GameDTO>, days: seq<DayResult>, d: nat, e: nat, env: Env)
    requires d < |days| && days[d].Scoreboard? && e < |days[d].events|
    requires EventGame(days[d].events[e], env).Some?
    requires forall j :: e < j < |days[d].events| && EventGame(days[d].events[j], env).Some? ==>
      days[d].events[j].id != days[d].events[e].id
    requires forall d2, j ::
      (d < d2 < |days| && days[d2].Scoreboard? && 0 <= j < |days[d2].events|
       && EventGame(days[d2].events[j], env).Some?) ==> days[d2].events[j].id != days[d].events[e].id
    ensures days[d].events[e].id in AddDays(m, days, env)
    ensures AddDays(m, days, env)[days[d].events[e].id] == EventGame(days[d].events[e], env).value
  {
    var init := days[..|days| - 1];
    var m1 := AddDays(m, init, env);
    if d == |days| - 1 {
      LaterEventWins(m1, days[d].events, e, env);
    } else {
      var id := days[d].events[e].id;
      assert forall d2 :: 0 <= d2 < |init| ==> init[d2] == days[d2];
      LaterDayEventWins(m, init, d, e, env);
      var last := days[|days| - 1];
      if last.Scoreboard? {
        AddEventsOther(m1, last.events, env, id);
      }
    }
  }

  /** Every accepted event of every scoreboard has its id in the map. */
  lemma {:induction false} AddDaysReaches(m: map<string, GameDTO>, days: seq<DayResult>, d: nat, e: nat, env: Env)
    requires d < |days| && days[d].Scoreboard? && e < |days[d].events|
    requires EventGame(days[d].events[e], env).Some?
    ensures days[d].events[e].id in AddDays(m, days, env)
  {
    var init := days[..|days| - 1];
    var m1 := AddDays(m, init, env);
    if d == |days| - 1 {
      AddEventsReaches(m1, days[d].events, e, env);
    } else {
      assert init[d] == days[d];
      AddDaysReaches(m, init, d, e, env);
      var last := days[|days| - 1];
      if last.Scoreboard? {
        AddEventsGrows(m1, last.events, env);
      }
    }
  }

  /** Every game collected comes from an accepted event of some scoreboard. */
  ghost predicate FromScoreboards(g: GameDTO, days: seq<DayResult>, env: Env) {
    exists d, e :: 0 <= d < |days| && days[d].Scoreboard? && 0 <= e < |days[d].events|
      && EventGame(days[d].events[e], env) == Some(g)
  }

  lemma {:induction false} AddEventsFrom(m: map<string, GameDTO>, evs: seq<Event>, env: Env, id: string)
    requires id in AddEvents(m, evs, env)
    ensures (id in m && AddEvents(m, evs, env)[id] == m[id])
      || exists e :: 0 <= e < |evs| && EventGame(evs[e], env) == Some(AddEvents(m, evs, env)[id])
  {
    if evs != [] {
      var init := evs[..|evs| - 1];
      var m1 := AddEvents(m, init, env);
      var last := EventGame(evs[|evs| - 1], env);
      if last.Some? && last.value.id == id {
      } else {
        AddEventsFrom(m, init, env, id);
        if id !in m || AddEvents(m, evs, env)[id] != m[id] {
          var e :| 0 <= e < |init| && EventGame(init[e], env) == Some(m1[id]);
          assert evs[e] == init[e];
        }
      }
    }
  }

  lemma {:induction false} AddDaysFrom(days: seq<DayResult>, env: Env, id: string)
    requires id in AddDays(map[], days, env)
    ensures FromScoreboards(AddDays(map[], days, env)[id], days, env)
  {
    var init := days[..|days| - 1];
    var m1 := AddDays(map[], init, env);
    var g := AddDays(map[], days, env)[id];
    var last := days[|days| - 1];
    if last.Scoreboard? {
      AddEventsFrom(m1, last.events, env, id);
      if id in m1 && g == m1[id] {
        AddDaysFrom(init, env, id);
        var d, e :| 0 <= d < |init| && init[d].Scoreboard? && 0 <= e < |init[d].events|
          && EventGame(init[d].events[e], env) == Some(g);
        assert days[d] == init[d];
      } else {
        var e :| 0 <= e < |last.events| && EventGame(last.events[e], env) == Some(g);
        assert days[|days| - 1] == last;
      }
    } else {
      AddDaysFrom(init, env, id);
      var d, e :| 0 <= d < |init| && init[d].Scoreboard? && 0 <= e < |init[d].events|
        && EventGame(init[d].events[e], env) == Some(g);
      assert days[d] == init[d];
    }
  }

  /** So every collected game comes from a parsed event not before the window start. */
  lemma CollectedInWindow(days: seq<DayResult>, env: Env, id: string)
    requires id in AddDays(map[], days, env)
    ensures exists d, e ::
      && 0 <= d < |days| && days[d].Scoreboard? && 0 <= e < |days[d].events|
      && EventTime(days[d].events[e], env.parse).Some?
      && EventTime(days[d].events[e], env.parse).value >= env.start
      && AddDays(map[], days, env)[id].start == env.rfc3339(EventTime(days[d].events[e], env.parse).value)
  {
    AddDaysFrom(days, env, id);
  }

  /* ---------- the fetch loop ---------- */

  /** The event loop of one scoreboard. */
  method CollectDay(byID0: map<string, GameDTO>, hadErr0: bool, evs: seq<Event>, env: Env)
    returns (byID: map<string, GameDTO>, hadErr: bool)
    ensures byID == AddEvents(byID0, evs, env)
    ensures hadErr <==> hadErr0 || EventsHadErr(evs, env)
  {
    byID, hadErr := byID0, hadErr0;
    for e := 0 to |evs|
      invariant byID == AddEvents(byID0, evs[..e], env)
      invariant hadErr <==> hadErr0 || EventsHadErr(evs[..e], env)
    {
      assert evs[..e + 1][..e] == evs[..e];
      var ev := evs[e];
      var home, away := HomeAway(ev);
      var t := env.parse(ev.date);
      if t.None? && |ev.competitions| > 0 {
        t := env.parse(ev.competitions[0].date);
      }
      assert t == EventTime(ev, env.parse);
      if t.None? {
        hadErr := true;
      } else if t.value < env.start {
      } else {
        var labelText := away + " @ " + home + " — " + env.display(t.value);
        byID := byID[ev.id := GameDTO(ev.id, env.sportLabel, env.rfc3339(t.value), home, away, labelText)];
      }
    }
    assert evs[..|evs|] == evs;
  }

  /**
   * The day loop of `fetchESPNGames`: `byID` collects the accepted games and
   * `hadErr` records whether any day or event failed.
   */
  method CollectGames(days: seq<DayResult>, env: Env) returns (byID: map<string, GameDTO>, hadErr: bool)
    ensures byID == AddDays(map[], days, env)
    ensures hadErr <==> HadErr(days, env)
  {
    byID := map[];
    hadErr := false;
    for d := 0 to |days|
      invariant byID == AddDays(map[], days[..d], env)
      invariant hadErr <==> HadErr(days[..d], env)
    {
      assert days[..d + 1][..d] == days[..d];
      var day := days[d];
      if day.Scoreboard? {
        byID, hadErr := CollectDay(byID, hadErr, day.events, env);
      } else {
        hadErr := true;
      }
    }
    assert days[..|days|] == days;
  }

  /** The games of a list, by id, each appearing once. */
  predicate DistinctIds(gs: seq<GameDTO>) {
    forall a, b :: 0 <= a < b < |gs| ==> gs[a].id != gs[b].id
  }

  /** Lists the collected games in an unspecified order (the map's iteration order). */
  method ListById(byID: map<string, GameDTO>) returns (out: seq<GameDTO>)
    requires KeyedById(byID)
    ensures |out| == |byID|
    ensures DistinctIds(out)
    ensures forall g :: g in out <==> g in byID.Values
  {
    out := [];
    var keys := byID.Keys;
    while keys != {}
      invariant keys <= byID.Keys
      invariant |out| + |keys| == |byID|
      invariant DistinctIds(out)
      invariant forall n :: 0 <= n < |out| ==> out[n].id in byID && out[n].id !in keys && byID[out[n].id] == out[n]
      invariant forall id :: id in byID && id !in keys ==> byID[id] in out
      decreases |keys|
    {
      var id :| id in keys;
      var g := byID[id];
      out := out + [g];
      keys := keys - {id};
    }
    forall g | g in byID.Values ensures g in out {
      var id :| id in byID && byID[id] == g;
    }
  }

  /**
   * `fetchESPNGames` after the requests: the games collected, listed and sorted by
   * start; an error only when something failed and no game was collected.
   */
  method FetchGames(days: seq<DayResult>, env: Env) returns (r: Result<seq<GameDTO>, GamesError>)
    ensures r.Err? <==> HadErr(days, env) && |AddDays(map[], days, env)| == 0
    ensures r.Err? ==> r.error == NoParseableData
    ensures r.Ok? ==>
      && |r.value| == |AddDays(map[], days, env)|
      && DistinctIds(r.value)
      && SortedByStart(r.value)
      && forall g :: g in r.value <==> g in AddDays(map[], days, env).Values
  {
    var byID, hadErr := CollectGames(days, env);
    AddDaysKeyed(map[], days, env);
    var listed := ListById(byID);
    var a := new GameDTO[|listed|](n requires 0 <= n < |listed| => listed[n]);
    assert a[..] == listed;
    SortGames(a);
    var out := a[..];
    SortByStartSorted(listed);
    SortByStartPermutes(listed);
    SortByStartDistinct(listed);
    forall g ensures g in out <==> g in listed {
      assert g in out <==> g in multiset(out);
    }
    if hadErr && |out| == 0 {
      return Err(NoParseableData);
    }
    r := Ok(out);
  }

  lemma {:induction false} InsertMembers(s: seq<GameDTO>, x: GameDTO)
    ensures forall g :: g in InsertByStart(s, x) <==> g in s || g == x
  {
    if s != [] && Less(x.start, s[|s| - 1].start) {
      InsertMembers(s[..|s| - 1], x);
      assert s == s[..|s| - 1] + [s[|s| - 1]];
    }
  }

  lemma {:induction false} InsertDistinct(s: seq<GameDTO>, x: GameDTO)
    requires DistinctIds(s) && forall g :: g in s ==> g.id != x.id
    ensures DistinctIds(InsertByStart(s, x))
  {
    if s != [] && Less(x.start, s[|s| - 1].start) {
      var init := s[..|s| - 1];
      var last := s[|s| - 1];
      assert forall g :: g in init ==> g in s;
      InsertDistinct(init, x);
      InsertMembers(init, x);
      var r := InsertByStart(init, x);
      forall g | g in r ensures g.id != last.id {
        if g != x {
          var a :| 0 <= a < |init| && init[a] == g;
        }
      }
    }
  }

  /** Sorting keeps every id once. */
  lemma {:induction false} SortByStartDistinct(s: seq<GameDTO>)
    requires DistinctIds(s)
    ensures DistinctIds(SortByStart(s))
  {
    if s != [] {
      var init := s[..|s| - 1];
      SortByStartDistinct(init);
      SortByStartPermutes(init);
      forall g | g in SortByStart(init) ensures g.id != s[|s| - 1].id {
        assert g in multiset(SortByStart(init));
        var a :| 0 <= a < |init| && init[a] == g;
      }
      InsertDistinct(SortByStart(init), s[|s| - 1]);
    }
  }

  /* ---------- insertion sort by start ---------- */

  predicate SortedByStart(gs: seq<GameDTO>) {
    forall a, b :: 0 <= a < b < |gs| ==> LessEq(gs[a].start, gs[b].start)
  }

  /** Moves x left past the games that start strictly later, as the swap loop does. */
  function InsertByStart(s: seq<GameDTO>, x: GameDTO): (r: seq<GameDTO>)
    ensures |r| == |s| + 1
  {
    if s == [] || !Less(x.start, s[|s| - 1].start) then s + [x]
    else InsertByStart(s[..|s| - 1], x) + [s[|s| - 1]]
  }

  /** The insertion sort of the source, as a function: insert each game in turn. */
  function SortByStart(s: seq<GameDTO>): (r: seq<GameDTO>)
    ensures |r| == |s|
  {
    if s == [] then [] else InsertByStart(SortByStart(s[..|s| - 1]), s[|s| - 1])
  }

  lemma {:induction false} InsertSorted(s: seq<GameDTO>, x: GameDTO)
    requires SortedByStart(s)
    ensures SortedByStart(InsertByStart(s, x))
    ensures forall g :: g in InsertByStart(s, x) <==> g in s || g == x
  {
    if s == [] || !Less(x.start, s[|s| - 1].start) {
      if s != [] {
        LessTotal(x.start, s[|s| - 1].start);
        forall a | 0 <= a < |s| ensures LessEq(s[a].start, x.start) {
          if a < |s| - 1 && s[a].start != s[|s| - 1].start && x.start != s[|s| - 1].start {
            LessTransitive(s[a].start, s[|s| - 1].start, x.start);
          }
        }
      }
    } else {
      var init := s[..|s| - 1];
      var last := s[|s| - 1];
      InsertSorted(init, x);
      var r := InsertByStart(init, x);
      forall g | g in r ensures LessEq(g.start, last.start) {
        if g == x {
        } else {
          var a :| 0 <= a < |init| && init[a] == g;
        }
      }
      assert InsertByStart(s, x) == r + [last];
    }
  }

  lemma {:induction false} SortByStartSorted(s: seq<GameDTO>)
    ensures SortedByStart(SortByStart(s))
  {
    if s != [] {
      SortByStartSorted(s[..|s| - 1]);
      InsertSorted(SortByStart(s[..|s| - 1]), s[|s| - 1]);
    }
  }

  lemma {:induction false} InsertPermutes(s: seq<GameDTO>, x: GameDTO)
    ensures multiset(InsertByStart(s, x)) == multiset(s) + multiset{x}
  {
    if s != [] && Less(x.start, s[|s| - 1].start) {
      InsertPermutes(s[..|s| - 1], x);
      assert s == s[..|s| - 1] + [s[|s| - 1]];
    }
  }

  /** The sort is a permutation of its input. */
  lemma {:induction false} SortByStartPermutes(s: seq<GameDTO>)
    ensures multiset(SortByStart(s)) == multiset(s)
  {
    if s != [] {
      SortByStartPermutes(s[..|s| - 1]);
      InsertPermutes(SortByStart(s[..|s| - 1]), s[|s| - 1]);
      assert s == s[..|s| - 1] + [s[|s| - 1]];
    }
  }

  /** The games of a list that start at `key`, in list order. */
  function StartingAt(s: seq<GameDTO>, key: string): (r: seq<GameDTO>)
    ensures |r| <= |s|
  {
    if s == [] then []
    else StartingAt(s[..|s| - 1], key) + (if s[|s| - 1].start == key then [s[|s| - 1]] else [])
  }

  lemma {:induction false} InsertStable(s: seq<GameDTO>, x: GameDTO, key: string)
    ensures StartingAt(InsertByStart(s, x), key) == StartingAt(s, key) + StartingAt([x], key)
  {
    var r := InsertByStart(s, x);
    if s == [] || !Less(x.start, s[|s| - 1].start) {
      assert r[..|r| - 1] == s;
      assert StartingAt([x], key) == (if x.start == key then [x] else []) by {
        assert [x][..0] == [];
      }
    } else {
      var init := s[..|s| - 1];
      var last := s[|s| - 1];
      InsertStable(init, x, key);
      assert r[..|r| - 1] == InsertByStart(init, x);
      LessIrreflexive(x.start);
      assert x.start != last.start;
      assert StartingAt([x], key) == (if x.start == key then [x] else []) by {
        assert [x][..0] == [];
      }
    }
  }

  /** The sort is stable: the games with any one start keep their relative order. */
  lemma {:induction false} SortByStartStable(s: seq<GameDTO>, key: string)
    ensures StartingAt(SortByStart(s), key) == StartingAt(s, key)
  {
    if s != [] {
      var init := s[..|s| - 1];
      SortByStartStable(init, key);
      InsertStable(SortByStart(init), s[|s| - 1], key);
      assert StartingAt([s[|s| - 1]], key) == (if s[|s| - 1].start == key then [s[|s| - 1]] else []) by {
        assert [s[|s| - 1]][..0] == [];
      }
    }
  }

  /** One swap of the inner loop keeps the insertion it is heading for. */
  lemma SwapStep(s: seq<GameDTO>, j: nat, i: nat, x: GameDTO)
    requires 0 < j <= i < |s| && s[j] == x && Less(x.start, s[j - 1].start)
    ensures var t := s[j := s[j - 1]][j - 1 := x];
      && InsertByStart(s[..j], x) + s[j + 1..i + 1] == InsertByStart(t[..j - 1], x) + t[j..i + 1]
      && t[i + 1..] == s[i + 1..]
  {
    var t := s[j := s[j - 1]][j - 1 := x];
    var p := s[..j - 1];
    assert s[..j] == p + [s[j - 1]];
    assert (p + [s[j - 1]])[..|p|] == p;
    assert t[..j - 1] == p;
    assert t[j..i + 1] == [s[j - 1]] + s[j + 1..i + 1];
  }

  /** The inner loop of the insertion sort: the game at `i` swaps left into the sorted prefix. */
  method InsertAt(a: array<GameDTO>, i: nat)
    requires 0 < i < a.Length
    modifies a
    ensures a[..i + 1] == InsertByStart(old(a[..i]), old(a[i]))
    ensures a[i + 1..] == old(a[i + 1..])
  {
    ghost var x := a[i];
    ghost var target := InsertByStart(a[..i], x);
    assert a[..][i + 1..i + 1] == [];
    var j := i;
    while j > 0 && Less(a[j].start, a[j - 1].start)
      invariant 0 <= j <= i && a[j] == x
      invariant target == InsertByStart(a[..][..j], x) + a[..][j + 1..i + 1]
      invariant a[..][i + 1..] == old(a[..])[i + 1..]
    {
      SwapStep(a[..], j, i, x);
      a[j], a[j - 1] := a[j - 1], a[j];
      j := j - 1;
    }
    assert a[..][..i + 1] == a[..][..j] + [x] + a[..][j + 1..i + 1];
  }

  /** The in-place insertion sort of `fetchESPNGames`: swap each game left while it starts
      strictly before its left neighbour. */
  method SortGames(a: array<GameDTO>)
    modifies a
    ensures a[..] == SortByStart(old(a[..]))
  {
    ghost var orig := a[..];
    var i := 1;
    while i < a.Length
      invariant 1 <= i && (a.Length > 0 ==> i <= a.Length)
      invariant a.Length > 0 ==> a[..i] == SortByStart(orig[..i]) && a[i..] == orig[i..]
    {
      assert orig[..i + 1][..i] == orig[..i];
      assert a[i] == a[i..][0] == orig[i];
      assert a[i + 1..] == a[i..][1..] == orig[i + 1..];
      InsertAt(a, i);
      i := i + 1;
    }
    if a.Length > 0 {
      assert a[..] == a[..i] && orig == orig[..i];
    }
  }
}

/**
 * The records the Riot API returns (league entries, mini-series, match
 * detail) as typed datatypes, the dictionaries pydantic's `.dict()` makes of
 * them, and the projections of a match into the game and per-participant
 * records the pipeline loads.
 */
module LeagueObjects {
  import opened Wrappers
  import opened PyText

  /** A cell of a dictionary the pipeline builds: the JSON-like values `.dict()` produces. */
  datatype Value = Str(s: string) | Int(i: int) | Bool(b: bool) | Dict(entries: map<string, Value>)

  /** A game's floating-point number (a timestamp or a duration), carried as its IEEE-754 bits and never computed with. */
  datatype Float = Float(bits: bv64)

  // ---------------------------------------------------------------- league entries

  datatype MiniSeries = MiniSeries(losses: int, progress: string, target: int, wins: int)

  /** What a league entry holds when the API sends no `miniSeries`. */
  const DefaultMiniSeries := MiniSeries(0, "NNNNN", 0, 0)

  /** The fields of `MiniSeriesDTO`, in declaration order. */
  const MiniSeriesFields: seq<string> := ["losses", "progress", "target", "wins"]

  /** The fields of `LeagueEntryDTO`, in declaration order. */
  const LeagueEntryFields: seq<string> :=
    ["leagueId", "summonerId", "summonerName", "queueType", "tier", "rank", "leaguePoints",
     "wins", "losses", "hotStreak", "veteran", "freshBlood", "inactive", "miniSeries"]

  /** A league entry as decoded from the API's JSON, before validation: `miniSeries` may be missing. */
  datatype RawLeagueEntry = RawLeagueEntry(
    leagueId: string, summonerId: string, summonerName: string, queueType: string,
    tier: string, rank: string, leaguePoints: int, wins: int, losses: int,
    hotStreak: bool, veteran: bool, freshBlood: bool, inactive: bool,
    miniSeries: Option<MiniSeries>)

  /** `LeagueEntryDTO`: a validated league entry, whose `miniSeries` is always present. */
  datatype LeagueEntry = LeagueEntry(
    leagueId: string, summonerId: string, summonerName: string, queueType: string,
    tier: string, rank: string, leaguePoints: int, wins: int, losses: int,
    hotStreak: bool, veteran: bool, freshBlood: bool, inactive: bool,
    miniSeries: MiniSeries)

  /** `LeagueEntryDTO(**summoner)`: every field is copied and a missing `miniSeries` takes the default. */
  function Validate(raw: RawLeagueEntry): (e: LeagueEntry)
    ensures raw.miniSeries.Some? ==> e.miniSeries == raw.miniSeries.value
    ensures raw.miniSeries.None? ==>
      e.miniSeries.target == 0 && e.miniSeries.wins == 0 && e.miniSeries.losses == 0 &&
      e.miniSeries.progress == "NNNNN"
    ensures Forget(e) == raw.(miniSeries := Some(e.miniSeries))
  {
    LeagueEntry(raw.leagueId, raw.summonerId, raw.summonerName, raw.queueType, raw.tier,
                raw.rank, raw.leaguePoints, raw.wins, raw.losses, raw.hotStreak, raw.veteran,
                raw.freshBlood, raw.inactive,
                match raw.miniSeries case Some(m) => m case None => DefaultMiniSeries)
  }

  /** The JSON form of a validated entry, with its mini-series written out. */
  function Forget(e: LeagueEntry): RawLeagueEntry {
    RawLeagueEntry(e.leagueId, e.summonerId, e.summonerName, e.queueType, e.tier, e.rank,
                   e.leaguePoints, e.wins, e.losses, e.hotStreak, e.veteran, e.freshBlood,
                   e.inactive, Some(e.miniSeries))
  }

  /** Validation keeps a validated entry as it is, and a missing mini-series means the same as an explicit default. */
  lemma ValidateForget(e: LeagueEntry, raw: RawLeagueEntry)
    ensures Validate(Forget(e)) == e
    ensures raw.miniSeries == None ==>
      Validate(raw) == Validate(raw.(miniSeries := Some(DefaultMiniSeries)))
  {
  }

  /** `MiniSeriesDTO.dict()`. */
  function MiniSeriesDict(m: MiniSeries): (d: map<string, Value>)
    ensures d.Keys == set f | f in MiniSeriesFields
  {
    map["losses" := Int(m.losses), "progress" := Str(m.progress),
        "target" := Int(m.target), "wins" := Int(m.wins)]
  }

  /** `MiniSeriesDTO(**d)`: every field must be present with a value of its type; other keys are ignored. */
  function MiniSeriesFromDict(d: map<string, Value>): (r: Option<MiniSeries>)
    ensures r.Some? <==>
      && "losses" in d && d["losses"].Int? && "progress" in d && d["progress"].Str?
      && "target" in d && d["target"].Int? && "wins" in d && d["wins"].Int?
    ensures r.Some? ==> forall f :: f in MiniSeriesFields ==> MiniSeriesDict(r.value)[f] == d[f]
  {
    if && "losses" in d && d["losses"].Int? && "progress" in d && d["progress"].Str?
       && "target" in d && d["target"].Int? && "wins" in d && d["wins"].Int?
    then Some(MiniSeries(d["losses"].i, d["progress"].s, d["target"].i, d["wins"].i))
    else None
  }

  /** Rebuilding a mini-series from its own dictionary gives it back. */
  lemma MiniSeriesDictRoundTrip(m: MiniSeries)
    ensures MiniSeriesFromDict(MiniSeriesDict(m)) == Some(m)
  {
  }

  /** The value `.dict()` puts under field `f` of a league entry. */
  function EntryField(e: LeagueEntry, f: string): Value
    requires f in LeagueEntryFields
  {
    if f == "miniSeries" then Dict(MiniSeriesDict(e.miniSeries))
    else if f == "leagueId" then Str(e.leagueId)
    else if f == "summonerId" then Str(e.summonerId)
    else if f == "summonerName" then Str(e.summonerName)
    else if f == "queueType" then Str(e.queueType)
    else if f == "tier" then Str(e.tier)
    else if f == "rank" then Str(e.rank)
    else if f == "leaguePoints" then Int(e.leaguePoints)
    else if f == "wins" then Int(e.wins)
    else if f == "losses" then Int(e.losses)
    else if f == "hotStreak" then Bool(e.hotStreak)
    else if f == "veteran" then Bool(e.veteran)
    else if f == "freshBlood" then Bool(e.freshBlood)
    else Bool(e.inactive)
  }

  /** `LeagueEntryDTO.dict()`: one key per field, the mini-series as a nested dictionary. */
  function LeagueEntryDict(e: LeagueEntry): (d: map<string, Value>)
    ensures d.Keys == set f | f in LeagueEntryFields
    ensures d["miniSeries"] == Dict(MiniSeriesDict(e.miniSeries))
    ensures d["summonerId"] == Str(e.summonerId) && d["leaguePoints"] == Int(e.leaguePoints)
  {
    map f | f in LeagueEntryFields :: EntryField(e, f)
  }

  // ---------------------------------------------------------------- full_dict

  /** `str(self.miniSeries.dict())`: Python's rendering of the mini-series dictionary. */
  function RenderMiniSeries(m: MiniSeries): string {
    "{'losses': " + (IntStr(m.losses) + (", 'progress': " + (StrRepr(m.progress) +
    (", 'target': " + (IntStr(m.target) + (", 'wins': " + (IntStr(m.wins) + "}")))))))
  }

  /** Consumes the literal `lit` at the front of `s`. */
  function Expect(lit: string, s: string): (r: Option<string>)
    ensures r.Some? <==> lit <= s
    ensures r.Some? ==> s == lit + r.value
  {
    if lit <= s then Some(s[|lit|..]) else None
  }

  /** Reads the literal `lit` and then an integer. */
  function IntField(lit: string, s: string): Option<(int, string)> {
    var a :- Expect(lit, s);
    ParseInt(a)
  }

  /** Reads the literal `lit` and then a quoted string. */
  function StrField(lit: string, s: string): Option<(string, string)> {
    var a :- Expect(lit, s);
    ParseStrLit(a)
  }

  /** Reads back a rendered mini-series; the whole text must be consumed. */
  function ParseMiniSeries(s: string): Option<MiniSeries> {
    var losses :- IntField("{'losses': ", s);
    var progress :- StrField(", 'progress': ", losses.1);
    var target :- IntField(", 'target': ", progress.1);
    var wins :- IntField(", 'wins': ", target.1);
    if wins.1 == "}" then Some(MiniSeries(losses.0, progress.0, target.0, wins.0)) else None
  }

  lemma IntFieldRead(lit: string, n: int, rest: string)
    requires rest == [] || !IsDigit(rest[0])
    ensures IntField(lit, lit + (IntStr(n) + rest)) == Some((n, rest))
  {
    var s := lit + (IntStr(n) + rest);
    assert s[|lit|..] == IntStr(n) + rest;
    IntStrRoundTrip(n, rest);
  }

  lemma StrFieldRead(lit: string, t: string, rest: string)
    ensures StrField(lit, lit + (StrRepr(t) + rest)) == Some((t, rest))
  {
    var s := lit + (StrRepr(t) + rest);
    assert s[|lit|..] == StrRepr(t) + rest;
    StrReprRoundTrip(t, rest);
  }

  /** The rendering of a mini-series determines it: reading it back gives the mini-series. */
  lemma RenderMiniSeriesRoundTrip(m: MiniSeries)
    ensures ParseMiniSeries(RenderMiniSeries(m)) == Some(m)
  {
    var t4 := "}";
    var t3 := ", 'wins': " + (IntStr(m.wins) + t4);
    var t2 := ", 'target': " + (IntStr(m.target) + t3);
    var t1 := ", 'progress': " + (StrRepr(m.progress) + t2);
    IntFieldRead("{'losses': ", m.losses, t1);
    StrFieldRead(", 'progress': ", m.progress, t2);
    IntFieldRead(", 'target': ", m.target, t3);
    IntFieldRead(", 'wins': ", m.wins, t4);
  }

  /** The record `LeagueEntryDTO.full_dict(puuid)` returns. */
  datatype SummonerRecord = SummonerRecord(
    leagueId: string, summonerId: string, summonerName: string, queueType: string,
    tier: string, rank: string, leaguePoints: int, wins: int, losses: int,
    hotStreak: bool, veteran: bool, freshBlood: bool, inactive: bool,
    miniSeries: string, puuid: string)

  /** `full_dict(puuid)`: the thirteen scalar fields, the mini-series rendered as text, and the player's puuid. */
  function FullDict(e: LeagueEntry, puuid: string): (r: SummonerRecord)
    ensures r.puuid == puuid
    ensures ParseMiniSeries(r.miniSeries) == Some(e.miniSeries)
  {
    RenderMiniSeriesRoundTrip(e.miniSeries);
    SummonerRecord(e.leagueId, e.summonerId, e.summonerName, e.queueType, e.tier, e.rank,
                   e.leaguePoints, e.wins, e.losses, e.hotStreak, e.veteran, e.freshBlood,
                   e.inactive, RenderMiniSeries(e.miniSeries), puuid)
  }

  /** Recovers the entry and the puuid from a summoner record, reading the mini-series back from its text. */
  function FromSummonerRecord(r: SummonerRecord): Option<(LeagueEntry, string)> {
    var m :- ParseMiniSeries(r.miniSeries);
    Some((LeagueEntry(r.leagueId, r.summonerId, r.summonerName, r.queueType, r.tier, r.rank,
                      r.leaguePoints, r.wins, r.losses, r.hotStreak, r.veteran, r.freshBlood,
                      r.inactive, m), r.puuid))
  }

  /** `full_dict` loses nothing: the entry and the puuid can be read back from its record. */
  lemma FullDictRoundTrip(e: LeagueEntry, puuid: string)
    ensures FromSummonerRecord(FullDict(e, puuid)) == Some((e, puuid))
  {
  }

  /** Hence two entries (or two puuids) that differ give records that differ. */
  lemma FullDictInjective(e1: LeagueEntry, p1: string, e2: LeagueEntry, p2: string)
    requires FullDict(e1, p1) == FullDict(e2, p2)
    ensures e1 == e2 && p1 == p2
  {
    FullDictRoundTrip(e1, p1);
    FullDictRoundTrip(e2, p2);
  }

  // ---------------------------------------------------------------- match detail

  datatype Metadata = Metadata(dataVersion: string, matchId: string, participants: seq<string>)

  /** `PartecipantDto`, restricted to the fields the projections read (and `teamPosition`, which they do not). */
  datatype Participant = Participant(
    assists: int, champLevel: int, championId: int, deaths: int,
    gameEndedInEarlySurrender: bool, gameEndedInSurrender: bool,
    individualPosition: string, killingSprees: int, kills: int, lane: string,
    longestTimeSpentLiving: int, objectivesStolen: int, puuid: string, role: string,
    summoner1Id: int, summoner2Id: int, teamId: int, teamPosition: string,
    totalTimeSpentDead: int, visionScore: int, win: bool)

  datatype Ban = Ban(championId: int, pickTurn: int)
  datatype Objective = Objective(first: bool, kills: int)
  datatype Objectives = Objectives(
    baron: Objective, champion: Objective, dragon: Objective,
    inhibitor: Objective, riftHerald: Objective, tower: Objective)
  datatype Team = Team(bans: seq<Ban>, objectives: Objectives, teamId: int, win: bool)

  datatype Info = Info(
    gameCreation: Float, gameDuration: Float, gameEndTimestamp: Float, gameId: Float,
    gameMode: string, gameName: string, gameStartTimestamp: Float, gameType: string,
    gameVersion: string, mapId: int, participants: seq<Participant>, platformId: string,
    queueId: int, teams: seq<Team>, tournamentCode: string)

  datatype Match = Match(metadata: Metadata, info: Info)

  /** `players_list()`: the puuids the match metadata lists, in its order. */
  function PlayersList(m: Match): (players: seq<string>)
    ensures |players| == |m.metadata.participants|
    ensures forall i :: 0 <= i < |players| ==> players[i] == m.metadata.participants[i]
  {
    m.metadata.participants
  }

  /** The record `get_game_dict()` returns. */
  datatype GameRecord = GameRecord(
    gameCreation: Float, gameDuration: Float, matchId: string, gameMode: string, queueId: int,
    gameEndedInEarlySurrender: bool, gameEndedInSurrender: bool,
    team100Win: bool, team200Win: bool)

  predicate HasTeam(teams: seq<Team>, id: int) {
    exists i :: 0 <= i < |teams| && teams[i].teamId == id
  }

  /** `w` is the `win` of the last team with this id: what a loop that assigns on every such team leaves behind. */
  predicate IsLastWin(teams: seq<Team>, id: int, w: bool) {
    exists i :: 0 <= i < |teams| && teams[i].teamId == id && teams[i].win == w &&
      forall j :: i < j < |teams| ==> teams[j].teamId != id
  }

  /** There is one such value only. */
  lemma LastWinUnique(teams: seq<Team>, id: int, w1: bool, w2: bool)
    requires IsLastWin(teams, id, w1) && IsLastWin(teams, id, w2)
    ensures w1 == w2
  {
    var i1 :| 0 <= i1 < |teams| && teams[i1].teamId == id && teams[i1].win == w1 &&
      forall j :: i1 < j < |teams| ==> teams[j].teamId != id;
    var i2 :| 0 <= i2 < |teams| && teams[i2].teamId == id && teams[i2].win == w2 &&
      forall j :: i2 < j < |teams| ==> teams[j].teamId != id;
    assert i1 == i2;
  }

  /**
   * `get_game_dict()`. The surrender flags come from the first participant, so
   * there must be one; `team100Win` and `team200Win` are only bound when teams
   * with id 100 and 200 exist.
   */
  method GetGameDict(m: Match) returns (r: GameRecord)
    requires |m.info.participants| > 0
    requires HasTeam(m.info.teams, 100) && HasTeam(m.info.teams, 200)
    ensures r.matchId == m.metadata.matchId
    ensures r.gameCreation == m.info.gameCreation && r.gameDuration == m.info.gameDuration
    ensures r.gameMode == m.info.gameMode && r.queueId == m.info.queueId
    ensures r.gameEndedInEarlySurrender == m.info.participants[0].gameEndedInEarlySurrender
    ensures r.gameEndedInSurrender == m.info.participants[0].gameEndedInSurrender
    ensures IsLastWin(m.info.teams, 100, r.team100Win)
    ensures IsLastWin(m.info.teams, 200, r.team200Win)
  {
    var teams := m.info.teams;
    var team100Win: Option<bool> := None;
    var team200Win: Option<bool> := None;
    for i := 0 to |teams|
      invariant team100Win.Some? <==> HasTeam(teams[..i], 100)
      invariant team100Win.Some? ==> IsLastWin(teams[..i], 100, team100Win.value)
      invariant team200Win.Some? <==> HasTeam(teams[..i], 200)
      invariant team200Win.Some? ==> IsLastWin(teams[..i], 200, team200Win.value)
    {
      assert teams[..i + 1][i] == teams[i];
      if teams[i].teamId == 100 {
        team100Win := Some(teams[i].win);
      }
      if teams[i].teamId == 200 {
        team200Win := Some(teams[i].win);
      }
      PrefixStep(teams, i, 100, team100Win);
      PrefixStep(teams, i, 200, team200Win);
    }
    assert teams[..|teams|] == teams;
    r := GameRecord(m.info.gameCreation, m.info.gameDuration, m.metadata.matchId,
                    m.info.gameMode, m.info.queueId,
                    m.info.participants[0].gameEndedInEarlySurrender,
                    m.info.participants[0].gameEndedInSurrender,
                    team100Win.value, team200Win.value);
  }

  /** One step of the team loop: the last win seen so far, after looking at team `i`. */
  lemma PrefixStep(teams: seq<Team>, i: nat, id: int, w: Option<bool>)
    requires i < |teams|
    requires teams[i].teamId == id ==> w == Some(teams[i].win)
    requires teams[i].teamId != id ==>
      (w.Some? <==> HasTeam(teams[..i], id)) && (w.Some? ==> IsLastWin(teams[..i], id, w.value))
    ensures w.Some? <==> HasTeam(teams[..i + 1], id)
    ensures w.Some? ==> IsLastWin(teams[..i + 1], id, w.value)
  {
    var p, q := teams[..i], teams[..i + 1];
    assert q == p + [teams[i]];
    if teams[i].teamId == id {
      assert q[i].teamId == id && q[i].win == w.value;
    } else {
      if HasTeam(q, id) {
        var k :| 0 <= k < |q| && q[k].teamId == id;
        assert p[k].teamId == id;
      }
      if w.Some? {
        var k :| 0 <= k < |p| && p[k].teamId == id && p[k].win == w.value &&
          forall j :: k < j < |p| ==> p[j].teamId != id;
        assert q[k].teamId == id && q[k].win == w.value;
      }
    }
  }

  /** The record `get_game_summoner_dict()` makes for each participant. */
  datatype ParticipantRecord = ParticipantRecord(
    matchId: string, puuid: string, championLevel: int, kills: int, assists: int, deaths: int,
    individualPosition: string, teamPosition: string, killingSprees: int, lane: string,
    longestTimeSpentLiving: int, objectivesStolen: int, role: string, summoner1Id: int,
    summoner2Id: int, visionScore: int, totalTimeSpentDead: int, championId: int, win: bool)

  /** `r` takes its match id from the match and every statistic from participant `p`; its `teamPosition` is `p.role`. */
  predicate DrawnFrom(r: ParticipantRecord, matchId: string, p: Participant) {
    && r.matchId == matchId && r.puuid == p.puuid && r.championLevel == p.champLevel
    && r.kills == p.kills && r.assists == p.assists && r.deaths == p.deaths
    && r.individualPosition == p.individualPosition && r.teamPosition == p.role
    && r.killingSprees == p.killingSprees && r.lane == p.lane
    && r.longestTimeSpentLiving == p.longestTimeSpentLiving
    && r.objectivesStolen == p.objectivesStolen && r.role == p.role
    && r.summoner1Id == p.summoner1Id && r.summoner2Id == p.summoner2Id
    && r.visionScore == p.visionScore && r.totalTimeSpentDead == p.totalTimeSpentDead
    && r.championId == p.championId && r.win == p.win
  }

  /** The metadata lists the players in the same order as the detailed participants. */
  predicate RosterAligned(m: Match) {
    |m.info.participants| >= |m.metadata.participants| &&
    forall i :: 0 <= i < |m.metadata.participants| ==> m.info.participants[i].puuid == m.metadata.participants[i]
  }

  /**
   * `get_game_summoner_dict()`: one record per player of `players_list()`, in
   * its order; record `i` reads participant `i` of the detail, so there must be
   * at least as many detailed participants as listed players.
   */
  method GetGameSummonerDict(m: Match) returns (records: seq<ParticipantRecord>)
    requires |m.info.participants| >= |m.metadata.participants|
    ensures |records| == |PlayersList(m)|
    ensures forall i :: 0 <= i < |records| ==> DrawnFrom(records[i], m.metadata.matchId, m.info.participants[i])
    ensures forall i :: 0 <= i < |records| ==> records[i].teamPosition == records[i].role
    ensures RosterAligned(m) ==> forall i :: 0 <= i < |records| ==> records[i].puuid == PlayersList(m)[i]
  {
    var players := PlayersList(m);
    var matchId := m.metadata.matchId;
    records := [];
    for i := 0 to |players|
      invariant |records| == i
      invariant forall k :: 0 <= k < i ==> DrawnFrom(records[k], matchId, m.info.participants[k])
    {
      var p := m.info.participants[i];
      var stats := ParticipantRecord(
        matchId, p.puuid, p.champLevel, p.kills, p.assists, p.deaths, p.individualPosition,
        p.role, p.killingSprees, p.lane, p.longestTimeSpentLiving, p.objectivesStolen, p.role,
        p.summoner1Id, p.summoner2Id, p.visionScore, p.totalTimeSpentDead, p.championId, p.win);
      records := records + [stats];
    }
  }
}

/**
 * Readers of the Riot API: the list of league pages to request, the request
 * loop that retries a failed call a bounded number of times, and the
 * column-oriented tables built from the league entries the pages return.
 *
 * `requests.get` is not run: the answer to the `a`-th attempt of a request is
 * given as `net(a)`, so the model covers every way the network can behave.
 * `time.sleep` is not run either: the model counts the seconds it would sleep.
 */
module RiotApiReaders {
  import opened Wrappers
  import opened PyText
  import opened LeagueObjects

  newtype byte = b: int | 0 <= b < 256

  type Bytes = seq<byte>

  type Headers = map<string, string>

  // ---------------------------------------------------------------- league links

  /** The `summoners_reader` section of the configuration. */
  datatype SummonersReaderConfig = SummonersReaderConfig(
    basePath: string, queueType: string, tiers: seq<string>, divisions: seq<string>)

  /** The keyword arguments of one `load_summoners_from_riot_api` call. */
  datatype LeagueLink = LeagueLink(
    baseLink: string, queueType: string, tier: string, division: string, page: int,
    headers: Headers, verbose: bool)

  function LinkFor(cfg: SummonersReaderConfig, headers: Headers, verbose: bool,
                   tier: string, division: string): LeagueLink
  {
    LeagueLink(cfg.basePath, cfg.queueType, tier, division, 1, headers, verbose)
  }

  /** The links of one tier, one per division, in the configured order of divisions. */
  function DivisionRow(cfg: SummonersReaderConfig, headers: Headers, verbose: bool,
                       tier: string, divisions: seq<string>): seq<LeagueLink>
  {
    if divisions == [] then []
    else DivisionRow(cfg, headers, verbose, tier, divisions[..|divisions| - 1])
         + [LinkFor(cfg, headers, verbose, tier, divisions[|divisions| - 1])]
  }

  /** The links of the given tiers, tier after tier, each crossed with every configured division. */
  function TierRows(cfg: SummonersReaderConfig, headers: Headers, verbose: bool,
                    tiers: seq<string>): seq<LeagueLink>
  {
    if tiers == [] then []
    else TierRows(cfg, headers, verbose, tiers[..|tiers| - 1])
         + DivisionRow(cfg, headers, verbose, tiers[|tiers| - 1], cfg.divisions)
  }

  /** The apex tiers (the first three) are requested once, with the first division; every other tier with each division. */
  predicate LinkableConfig(cfg: SummonersReaderConfig) {
    |cfg.tiers| >= 3 && |cfg.divisions| >= 1
  }

  /** The list `build_summoners_links_per_division` returns. */
  function LeagueLinks(cfg: SummonersReaderConfig, headers: Headers, verbose: bool): seq<LeagueLink>
    requires LinkableConfig(cfg)
  {
    var d0 := cfg.divisions[0];
    [LinkFor(cfg, headers, verbose, cfg.tiers[0], d0),
     LinkFor(cfg, headers, verbose, cfg.tiers[1], d0),
     LinkFor(cfg, headers, verbose, cfg.tiers[2], d0)]
    + TierRows(cfg, headers, verbose, cfg.tiers[3..])
  }

  lemma {:induction false} DivisionRowAt(cfg: SummonersReaderConfig, headers: Headers, verbose: bool,
                                         tier: string, divisions: seq<string>, j: nat)
    requires j < |divisions|
    ensures |DivisionRow(cfg, headers, verbose, tier, divisions)| == |divisions|
    ensures DivisionRow(cfg, headers, verbose, tier, divisions)[j] == LinkFor(cfg, headers, verbose, tier, divisions[j])
    decreases |divisions|
  {
    var n := |divisions|;
    var init := divisions[..n - 1];
    DivisionRowLength(cfg, headers, verbose, tier, init);
    if j < n - 1 {
      DivisionRowAt(cfg, headers, verbose, tier, init, j);
    }
  }

  lemma {:induction false} DivisionRowLength(cfg: SummonersReaderConfig, headers: Headers, verbose: bool,
                                             tier: string, divisions: seq<string>)
    ensures |DivisionRow(cfg, headers, verbose, tier, divisions)| == |divisions|
    decreases |divisions|
  {
    if divisions != [] {
      DivisionRowLength(cfg, headers, verbose, tier, divisions[..|divisions| - 1]);
    }
  }

  lemma {:induction false} TierRowsLength(cfg: SummonersReaderConfig, headers: Headers, verbose: bool,
                                          tiers: seq<string>)
    ensures |TierRows(cfg, headers, verbose, tiers)| == |tiers| * |cfg.divisions|
    decreases |tiers|
  {
    if tiers != [] {
      var n := |tiers|;
      TierRowsLength(cfg, headers, verbose, tiers[..n - 1]);
      DivisionRowLength(cfg, headers, verbose, tiers[n - 1], cfg.divisions);
      MulSucc(n - 1, |cfg.divisions|);
    }
  }

  lemma MulSucc(m: nat, d: nat)
    ensures m * d + d == (m + 1) * d
  {
  }

  lemma MulBound(i: nat, j: nat, n: nat, d: nat)
    requires i < n && j < d
    ensures i * d + j < n * d
  {
    assert i * d <= (n - 1) * d by {
      MulMonotone(i, n - 1, d);
    }
  }

  lemma {:induction false} MulMonotone(a: nat, b: nat, d: nat)
    requires a <= b
    ensures a * d <= b * d
    decreases b - a
  {
    if a < b {
      MulMonotone(a, b - 1, d);
      assert b * d == (b - 1) * d + d;
    }
  }

  lemma DivBound(k: nat, n: nat, d: nat)
    requires d > 0 && k < n * d
    ensures k / d < n && k % d < d && k == (k / d) * d + k % d
  {
    if k / d >= n {
      MulMonotone(n, k / d, d);
    }
  }

  /** Position `i * |divisions| + j` of the rows holds tier `i` with division `j`. */
  lemma {:induction false} TierRowsAt(cfg: SummonersReaderConfig, headers: Headers, verbose: bool,
                                      tiers: seq<string>, i: nat, j: nat)
    requires i < |tiers| && j < |cfg.divisions|
    ensures i * |cfg.divisions| + j < |TierRows(cfg, headers, verbose, tiers)|
    ensures TierRows(cfg, headers, verbose, tiers)[i * |cfg.divisions| + j]
            == LinkFor(cfg, headers, verbose, tiers[i], cfg.divisions[j])
    decreases |tiers|
  {
    var n, d := |tiers|, |cfg.divisions|;
    var init := tiers[..n - 1];
    var k := i * d + j;
    TierRowsLength(cfg, headers, verbose, tiers);
    TierRowsLength(cfg, headers, verbose, init);
    MulBound(i, j, n, d);
    var front := TierRows(cfg, headers, verbose, init);
    var row := DivisionRow(cfg, headers, verbose, tiers[n - 1], cfg.divisions);
    assert TierRows(cfg, headers, verbose, tiers) == front + row;
    if i < n - 1 {
      MulBound(i, j, n - 1, d);
      TierRowsAt(cfg, headers, verbose, init, i, j);
      assert init[i] == tiers[i];
    } else {
      DivisionRowAt(cfg, headers, verbose, tiers[n - 1], cfg.divisions, j);
      assert k == |front| + j;
    }
  }

  /** Every position of the rows holds some tier and some division, the tier-major position of that pair. */
  lemma {:induction false} TierRowsCover(cfg: SummonersReaderConfig, headers: Headers, verbose: bool,
                      tiers: seq<string>, k: nat)
    requires k < |TierRows(cfg, headers, verbose, tiers)|
    ensures |cfg.divisions| > 0
    ensures k / |cfg.divisions| < |tiers|
    ensures TierRows(cfg, headers, verbose, tiers)[k]
            == LinkFor(cfg, headers, verbose, tiers[k / |cfg.divisions|], cfg.divisions[k % |cfg.divisions|])
  {
    var d := |cfg.divisions|;
    TierRowsLength(cfg, headers, verbose, tiers);
    DivBound(k, |tiers|, d);
    TierRowsAt(cfg, headers, verbose, tiers, k / d, k % d);
  }

  /** Position `k` (past the three apex links) pairs tier `3 + (k - 3) / |divisions|` with division `(k - 3) % |divisions|`. */
  predicate TierMajorAt(cfg: SummonersReaderConfig, headers: Headers, verbose: bool, links: seq<LeagueLink>, k: nat)
    requires |cfg.divisions| > 0 && 3 <= k < |links|
  {
    3 + (k - 3) / |cfg.divisions| < |cfg.tiers| &&
    links[k] == LinkFor(cfg, headers, verbose, cfg.tiers[3 + (k - 3) / |cfg.divisions|],
                        cfg.divisions[(k - 3) % |cfg.divisions|])
  }

  /** Position `k` past the apex links holds the tier and division of position `k - 3` of the rows. */
  lemma LeagueLinksCover(cfg: SummonersReaderConfig, headers: Headers, verbose: bool, k: nat)
    requires LinkableConfig(cfg)
    requires 3 <= k < |LeagueLinks(cfg, headers, verbose)|
    ensures 3 + (k - 3) / |cfg.divisions| < |cfg.tiers|
    ensures LeagueLinks(cfg, headers, verbose)[k] ==
      LinkFor(cfg, headers, verbose, cfg.tiers[3 + (k - 3) / |cfg.divisions|],
              cfg.divisions[(k - 3) % |cfg.divisions|])
  {
    var rest := cfg.tiers[3..];
    var d0 := cfg.divisions[0];
    var apex := [LinkFor(cfg, headers, verbose, cfg.tiers[0], d0),
                 LinkFor(cfg, headers, verbose, cfg.tiers[1], d0),
                 LinkFor(cfg, headers, verbose, cfg.tiers[2], d0)];
    var rows := TierRows(cfg, headers, verbose, rest);
    assert LeagueLinks(cfg, headers, verbose) == apex + rows;
    assert (apex + rows)[k] == rows[k - 3];
    TierRowsCover(cfg, headers, verbose, rest, k - 3);
    var i, j := (k - 3) / |cfg.divisions|, (k - 3) % |cfg.divisions|;
    assert rows[k - 3] == LinkFor(cfg, headers, verbose, rest[i], cfg.divisions[j]);
    assert rest[i] == cfg.tiers[3 + i];
  }

  lemma LeagueLinksLength(cfg: SummonersReaderConfig, headers: Headers, verbose: bool)
    requires LinkableConfig(cfg)
    ensures |LeagueLinks(cfg, headers, verbose)| == 3 + (|cfg.tiers| - 3) * |cfg.divisions|
  {
    TierRowsLength(cfg, headers, verbose, cfg.tiers[3..]);
  }

  /**
   * The shape of the link list: three apex links with the first division, then
   * every further tier crossed with every division, tier-major.
   */
  lemma LeagueLinksShape(cfg: SummonersReaderConfig, headers: Headers, verbose: bool)
    requires LinkableConfig(cfg)
    ensures |LeagueLinks(cfg, headers, verbose)| == 3 + (|cfg.tiers| - 3) * |cfg.divisions|
    ensures LeagueLinks(cfg, headers, verbose)[..3] ==
      [LinkFor(cfg, headers, verbose, cfg.tiers[0], cfg.divisions[0]),
       LinkFor(cfg, headers, verbose, cfg.tiers[1], cfg.divisions[0]),
       LinkFor(cfg, headers, verbose, cfg.tiers[2], cfg.divisions[0])]
    ensures forall k :: 3 <= k < |LeagueLinks(cfg, headers, verbose)| ==>
      TierMajorAt(cfg, headers, verbose, LeagueLinks(cfg, headers, verbose), k)
  {
    var links := LeagueLinks(cfg, headers, verbose);
    LeagueLinksLength(cfg, headers, verbose);
    forall k | 3 <= k < |links|
      ensures TierMajorAt(cfg, headers, verbose, links, k)
    {
      LeagueLinksCover(cfg, headers, verbose, k);
    }
  }

  /** Tier `3 + i` with division `j` sits at position `3 + i * |divisions| + j`. */
  lemma LeagueLinksAt(cfg: SummonersReaderConfig, headers: Headers, verbose: bool, i: nat, j: nat)
    requires LinkableConfig(cfg)
    requires 3 + i < |cfg.tiers| && j < |cfg.divisions|
    ensures 3 + i * |cfg.divisions| + j < |LeagueLinks(cfg, headers, verbose)|
    ensures LeagueLinks(cfg, headers, verbose)[3 + i * |cfg.divisions| + j]
            == LinkFor(cfg, headers, verbose, cfg.tiers[3 + i], cfg.divisions[j])
  {
    TierRowsAt(cfg, headers, verbose, cfg.tiers[3..], i, j);
  }

  /** Every link asks for page 1 and carries the configured base path and queue type, the headers and the verbosity. */
  lemma LeagueLinksUniform(cfg: SummonersReaderConfig, headers: Headers, verbose: bool)
    requires LinkableConfig(cfg)
    ensures forall l :: l in LeagueLinks(cfg, headers, verbose) ==>
      l.page == 1 && l.baseLink == cfg.basePath && l.queueType == cfg.queueType &&
      l.headers == headers && l.verbose == verbose
  {
    var links := LeagueLinks(cfg, headers, verbose);
    forall l | l in links
      ensures l.page == 1 && l.baseLink == cfg.basePath && l.queueType == cfg.queueType &&
              l.headers == headers && l.verbose == verbose
    {
      var k :| 0 <= k < |links| && links[k] == l;
      if k >= 3 {
        LeagueLinksCover(cfg, headers, verbose, k);
      }
    }
  }

  lemma DivisionRowSnoc(cfg: SummonersReaderConfig, headers: Headers, verbose: bool,
                        tier: string, divisions: seq<string>, j: nat)
    requires j < |divisions|
    ensures DivisionRow(cfg, headers, verbose, tier, divisions[..j + 1])
            == DivisionRow(cfg, headers, verbose, tier, divisions[..j]) + [LinkFor(cfg, headers, verbose, tier, divisions[j])]
  {
    assert divisions[..j + 1][..j] == divisions[..j];
  }

  lemma TierRowsSnoc(cfg: SummonersReaderConfig, headers: Headers, verbose: bool,
                     tiers: seq<string>, i: nat)
    requires i < |tiers|
    ensures TierRows(cfg, headers, verbose, tiers[..i + 1])
            == TierRows(cfg, headers, verbose, tiers[..i]) + DivisionRow(cfg, headers, verbose, tiers[i], cfg.divisions)
  {
    assert tiers[..i + 1][..i] == tiers[..i];
  }

  /**
   * `build_summoners_links_per_division`. Reading `tiers[2]` and
   * `divisions[0]` fails unless there are three tiers and a division.
   */
  method BuildSummonersLinksPerDivision(cfg: SummonersReaderConfig, headers: Headers, verbose: bool)
    returns (links: seq<LeagueLink>)
    requires LinkableConfig(cfg)
    ensures links == LeagueLinks(cfg, headers, verbose)
    ensures |links| == 3 + (|cfg.tiers| - 3) * |cfg.divisions|
  {
    var challenger := LeagueLink(cfg.basePath, cfg.queueType, cfg.tiers[0], cfg.divisions[0], 1, headers, verbose);
    var grandmaster := LeagueLink(cfg.basePath, cfg.queueType, cfg.tiers[1], cfg.divisions[0], 1, headers, verbose);
    var master := LeagueLink(cfg.basePath, cfg.queueType, cfg.tiers[2], cfg.divisions[0], 1, headers, verbose);
    links := [challenger, grandmaster, master];
    ghost var apex := links;
    var others := cfg.tiers[3..];
    for i := 0 to |others|
      invariant links == apex + TierRows(cfg, headers, verbose, others[..i])
    {
      var tier := others[i];
      ghost var before := links;
      for j := 0 to |cfg.divisions|
        invariant links == before + DivisionRow(cfg, headers, verbose, tier, cfg.divisions[..j])
      {
        var division := cfg.divisions[j];
        ghost var row := DivisionRow(cfg, headers, verbose, tier, cfg.divisions[..j]);
        var link := LeagueLink(cfg.basePath, cfg.queueType, tier, division, 1, headers, verbose);
        links := links + [link];
        DivisionRowSnoc(cfg, headers, verbose, tier, cfg.divisions, j);
        assert before + row + [link] == before + (row + [link]);
      }
      assert cfg.divisions[..|cfg.divisions|] == cfg.divisions;
      TierRowsSnoc(cfg, headers, verbose, others, i);
      ghost var rows := TierRows(cfg, headers, verbose, others[..i]);
      ghost var row := DivisionRow(cfg, headers, verbose, tier, cfg.divisions);
      assert apex + rows + row == apex + (rows + row);
    }
    assert others[..|others|] == others;
    LeagueLinksLength(cfg, headers, verbose);
  }

  // ---------------------------------------------------------------- requests with retry

  /** A call is tried at most this many times. */
  const MaxAttempts: nat := 5

  /** Seconds slept after a response whose status is not 200, for the rate limit to reset. */
  const CooldownSeconds: nat := 120

  const StatusOk := 200

  /** What one `requests.get` call does: answer with a status and a body, or raise. */
  datatype Response = Answered(statusCode: int, content: Bytes) | Raised

  /** A `requests.get` call as issued: the URL and the headers. */
  datatype Request = Request(url: string, headers: Headers)

  predicate IsOk(r: Response) {
    r.Answered? && r.statusCode == StatusOk
  }

  /** What the retry loop ends with: the content it returns (`None` when it gives up), the attempts made and the sleeps taken. */
  datatype Fetch = Fetch(content: Option<Bytes>, attempts: nat, sleeps: nat)

  /** The retry loop from attempt `a` on. */
  function RetryFrom(net: nat -> Response, a: nat): Fetch
    requires a <= MaxAttempts
    decreases MaxAttempts - a
  {
    if a == MaxAttempts then Fetch(None, a, 0)
    else match net(a)
      case Raised => RetryFrom(net, a + 1)
      case Answered(status, body) =>
        if status == StatusOk then Fetch(Some(body), a + 1, 0)
        else var f := RetryFrom(net, a + 1); f.(sleeps := f.sleeps + 1)
  }

  /** The whole retry loop, given the outcome `net(a)` of each attempt `a`. */
  function Retry(net: nat -> Response): Fetch {
    RetryFrom(net, 0)
  }

  /** The number of attempts before `n` that got an answer other than 200 (an exception is not one). */
  function Rejections(net: nat -> Response, n: nat): nat {
    if n == 0 then 0
    else Rejections(net, n - 1) + if net(n - 1).Answered? && !IsOk(net(n - 1)) then 1 else 0
  }

  lemma {:induction false} RetryFromFacts(net: nat -> Response, a: nat)
    requires a <= MaxAttempts
    ensures var f := RetryFrom(net, a);
      && a <= f.attempts <= MaxAttempts
      && (f.content.Some? ==>
            IsOk(net(f.attempts - 1)) && f.content.value == net(f.attempts - 1).content &&
            forall j :: a <= j < f.attempts - 1 ==> !IsOk(net(j)))
      && (f.content.None? ==> f.attempts == MaxAttempts && forall j :: a <= j < MaxAttempts ==> !IsOk(net(j)))
      && Rejections(net, a) + f.sleeps == Rejections(net, f.attempts)
    decreases MaxAttempts - a
  {
    if a < MaxAttempts {
      RetryFromFacts(net, a + 1);
    }
  }

  /**
   * The retry loop returns the content of the first status-200 answer among the
   * first five attempts and tries no more after it; it returns nothing when none
   * of the five is a 200. It sleeps once per non-200 answer; an exception uses up
   * an attempt without a sleep.
   */
  lemma RetrySpec(net: nat -> Response)
    ensures var f := Retry(net);
      && 1 <= f.attempts <= MaxAttempts
      && (f.content.Some? <==> exists k :: 0 <= k < MaxAttempts && IsOk(net(k)))
      && (forall k :: 0 <= k < MaxAttempts && IsOk(net(k)) && (forall j :: 0 <= j < k ==> !IsOk(net(j))) ==>
            f.content == Some(net(k).content) && f.attempts == k + 1)
      && (f.content.None? ==> f.attempts == MaxAttempts)
      && f.sleeps == Rejections(net, f.attempts)
  {
    RetryFromFacts(net, 0);
    var f := Retry(net);
    forall k | 0 <= k < MaxAttempts && IsOk(net(k)) && (forall j :: 0 <= j < k ==> !IsOk(net(j)))
      ensures f.content == Some(net(k).content) && f.attempts == k + 1
    {
      assert f.content.Some?;
      assert f.attempts - 1 == k;
    }
  }

  /** Three 503 answers and then a 200: the 200's content, after four attempts and three sleeps of two minutes each. */
  lemma ThreeRejectionsThenOk(body: Bytes)
    ensures var f := Retry(a => if a < 3 then Answered(503, []) else Answered(StatusOk, body));
      f == Fetch(Some(body), 4, 3)
  {
  }

  /** Five exceptions: nothing, after five attempts and no sleep. */
  lemma AllRaised()
    ensures Retry(a => Raised) == Fetch(None, MaxAttempts, 0)
  {
  }

  /**
   * The loop written once for `load_summoners_from_riot_api` and
   * `load_puuid_for_summoner`: it returns what `Retry` says, issues one request
   * to `url` per attempt, and sleeps `CooldownSeconds` per non-200 answer.
   */
  method RequestWithRetry(url: string, headers: Headers, verbose: bool, net: nat -> Response)
    returns (content: Option<Bytes>, requests: seq<Request>, slept: nat)
    ensures Retry(net) == Fetch(content, |requests|, slept / CooldownSeconds)
    ensures slept % CooldownSeconds == 0
    ensures forall r :: r in requests ==> r == Request(url, headers)
  {
    var problemsAtPreviousIteration := true;
    var iteration: nat := 0;
    content, requests, slept := None, [], 0;
    while problemsAtPreviousIteration && iteration < MaxAttempts
      invariant iteration <= MaxAttempts && |requests| == iteration
      invariant forall r :: r in requests ==> r == Request(url, headers)
      invariant slept % CooldownSeconds == 0
      invariant var f := RetryFrom(net, iteration);
        Retry(net) == f.(sleeps := f.sleeps + slept / CooldownSeconds)
      decreases MaxAttempts - iteration
    {
      requests := requests + [Request(url, headers)];
      match net(iteration)
      case Raised =>
        iteration := iteration + 1;
      case Answered(statusCode, body) =>
        if statusCode == StatusOk {
          problemsAtPreviousIteration := false;
          content := Some(body);
          return;
        } else {
          slept := slept + CooldownSeconds;
          iteration := iteration + 1;
        }
    }
  }

  /** `f"{base_link}{queue_type}/{tier}/{division}?page={page}"`. */
  function SummonersUrl(baseLink: string, queueType: string, tier: string, division: string, page: int): string {
    baseLink + queueType + "/" + tier + "/" + division + "?page=" + IntStr(page)
  }

  /** `load_summoners_from_riot_api`: the retry loop on the league page of a tier and division. */
  method LoadSummonersFromRiotApi(baseLink: string, queueType: string, tier: string, division: string,
                                  page: int, headers: Headers, verbose: bool, net: nat -> Response)
    returns (content: Option<Bytes>, requests: seq<Request>, slept: nat)
    ensures Retry(net) == Fetch(content, |requests|, slept / CooldownSeconds)
    ensures slept % CooldownSeconds == 0
    ensures forall r :: r in requests ==>
      r.headers == headers &&
      r.url == baseLink + queueType + "/" + tier + "/" + division + "?page=" + IntStr(page)
  {
    var linkForRequest := SummonersUrl(baseLink, queueType, tier, division, page);
    content, requests, slept := RequestWithRetry(linkForRequest, headers, verbose, net);
  }

  const SummonerV4Base := "https://euw1.api.riotgames.com/lol/summoner/v4/summoners/"

  /** `load_puuid_for_summoner`: the retry loop on a summoner's profile, by its encrypted id. */
  method LoadPuuidForSummoner(summoner: string, header: Headers, verbose: bool, net: nat -> Response)
    returns (content: Option<Bytes>, requests: seq<Request>, slept: nat)
    ensures Retry(net) == Fetch(content, |requests|, slept / CooldownSeconds)
    ensures slept % CooldownSeconds == 0
    ensures forall r :: r in requests ==> r.headers == header && r.url == SummonerV4Base + summoner
  {
    var linkForRequest := SummonerV4Base + summoner;
    content, requests, slept := RequestWithRetry(linkForRequest, header, verbose, net);
  }

  // ---------------------------------------------------------------- tables of summoners

  /** A column-oriented table: column name to the column's cells. */
  type Table = map<string, seq<Value>>

  const MiniSeriesPrefix := "mini_series_"

  predicate HasFields(rows: seq<map<string, Value>>, names: set<string>) {
    forall i :: 0 <= i < |rows| ==> names <= rows[i].Keys
  }

  /**
   * `table` has one column `prefix + f` per name `f`, every column as long as
   * `rows`, and cell `i` of column `prefix + f` is field `f` of row `i`.
   */
  ghost predicate Tabulates(table: Table, names: set<string>, prefix: string, rows: seq<map<string, Value>>)
    requires HasFields(rows, names)
  {
    && table.Keys == (set f | f in names :: prefix + f)
    && forall f :: f in names ==>
         prefix + f in table && |table[prefix + f]| == |rows| &&
         forall i :: 0 <= i < |rows| ==> table[prefix + f][i] == rows[i][f]
  }

  lemma PrefixInjective(prefix: string, f: string, g: string)
    requires prefix + f == prefix + g
    ensures f == g
  {
    assert f == (prefix + f)[|prefix|..];
    assert g == (prefix + g)[|prefix|..];
  }

  /** Appends field `f` of `row` to column `prefix + f`, for every name `f`, as the source's inner `for key` loops do. */
  method AppendRow(table: Table, names: set<string>, prefix: string, row: map<string, Value>,
                   ghost rows: seq<map<string, Value>>)
    returns (result: Table)
    requires HasFields(rows, names) && names <= row.Keys
    requires Tabulates(table, names, prefix, rows)
    ensures HasFields(rows + [row], names)
    ensures Tabulates(result, names, prefix, rows + [row])
  {
    result := table;
    var remaining := names;
    while remaining != {}
      invariant remaining <= names
      invariant result.Keys == table.Keys
      invariant forall f :: f in names - remaining ==> result[prefix + f] == table[prefix + f] + [row[f]]
      invariant forall f :: f in remaining ==> result[prefix + f] == table[prefix + f]
      decreases remaining
    {
      var key :| key in remaining;
      result := result[prefix + key := result[prefix + key] + [row[key]]];
      remaining := remaining - {key};
      forall f | f in names && prefix + f == prefix + key
        ensures f == key
      {
        PrefixInjective(prefix, f, key);
      }
    }
    var all := rows + [row];
    assert forall i :: 0 <= i < |rows| ==> all[i] == rows[i];
    assert all[|rows|] == row;
  }

  /** One table row per league entry: its `.dict()`. */
  function EntryRows(entries: seq<LeagueEntry>): (rows: seq<map<string, Value>>) {
    seq(|entries|, i requires 0 <= i < |entries| => LeagueEntryDict(entries[i]))
  }

  /** One mini-series row per league entry: the `.dict()` of its mini-series. */
  function MiniSeriesRows(entries: seq<LeagueEntry>): (rows: seq<map<string, Value>>) {
    seq(|entries|, i requires 0 <= i < |entries| => MiniSeriesDict(entries[i].miniSeries))
  }

  const EntryFieldSet: set<string> := set f | f in LeagueEntryFields
  const MiniSeriesFieldSet: set<string> := set f | f in MiniSeriesFields

  /** `LeagueEntryDTO(**raw)` for each decoded entry, in order. */
  function ValidateAll(raws: seq<RawLeagueEntry>): seq<LeagueEntry> {
    seq(|raws|, i requires 0 <= i < |raws| => Validate(raws[i]))
  }

  /** What the retry loop gives for each league page `k`, whose attempts are answered by `network(k)`. */
  function PageContents(network: nat -> nat -> Response): nat -> Option<Bytes> {
    (k: nat) => Retry(network(k)).content
  }

  /**
   * The entries of the first `n` league pages, in link order, where `pages(k)` is
   * what fetching page `k` gave (`PageContents` of the network) and `decode` reads
   * a page; `Failure(k)` when link `k` is the first whose fetch gave up.
   */
  function Harvest(pages: nat -> Option<Bytes>, decode: Bytes -> seq<RawLeagueEntry>, n: nat)
    : Result<seq<LeagueEntry>, nat>
  {
    if n == 0 then Success([]) else HarvestPage(pages(n - 1), decode, Harvest(pages, decode, n - 1), n - 1)
  }

  /** Adds page `k`, whose fetch gave `content`, to the harvest of the pages before it. */
  function HarvestPage(content: Option<Bytes>, decode: Bytes -> seq<RawLeagueEntry>,
                       earlier: Result<seq<LeagueEntry>, nat>, k: nat): Result<seq<LeagueEntry>, nat>
  {
    match earlier
    case Failure(_) => earlier
    case Success(entries) =>
      match content
      case None => Failure(k)
      case Some(body) => Success(entries + ValidateAll(decode(body)))
  }

  /** A harvest fails exactly when some page's fetch gives up, and then at the first such page. */
  lemma {:induction false} HarvestFails(pages: nat -> Option<Bytes>, decode: Bytes -> seq<RawLeagueEntry>, n: nat)
    ensures Harvest(pages, decode, n).Failure? <==> exists k :: 0 <= k < n && pages(k).None?
    ensures Harvest(pages, decode, n).Failure? ==>
      var k := Harvest(pages, decode, n).error;
      k < n && pages(k).None? && forall j :: 0 <= j < k ==> pages(j).Some?
  {
    if n > 0 {
      HarvestFails(pages, decode, n - 1);
    }
  }

  /** The summoner table and the mini-series table `load_list_of_summoners` returns. */
  ghost predicate SummonerTables(summoners: Table, miniSeries: Table, entries: seq<LeagueEntry>) {
    && Tabulates(summoners, EntryFieldSet, "", EntryRows(entries))
    && Tabulates(miniSeries, MiniSeriesFieldSet, MiniSeriesPrefix, MiniSeriesRows(entries))
  }

  /** Every entry row carries every entry field, and every mini-series row every mini-series field. */
  lemma RowsHaveFields(entries: seq<LeagueEntry>)
    ensures HasFields(EntryRows(entries), EntryFieldSet)
    ensures HasFields(MiniSeriesRows(entries), MiniSeriesFieldSet)
  {
  }

  /** Every column of a table that tabulates `rows` holds one cell per row. */
  lemma TabulatesColumns(table: Table, names: set<string>, prefix: string, rows: seq<map<string, Value>>)
    requires HasFields(rows, names) && Tabulates(table, names, prefix, rows)
    ensures forall c :: c in table ==> |table[c]| == |rows|
  {
    forall c | c in table
      ensures |table[c]| == |rows|
    {
      var f :| f in names && c == prefix + f;
    }
  }

  /** The tables have one column per field, named after the field (with `mini_series_` in front for the mini-series), and as many cells as entries. */
  lemma SummonerTablesShape(summoners: Table, miniSeries: Table, entries: seq<LeagueEntry>)
    requires SummonerTables(summoners, miniSeries, entries)
    ensures summoners.Keys == set f | f in LeagueEntryFields
    ensures miniSeries.Keys == set f | f in MiniSeriesFields :: MiniSeriesPrefix + f
    ensures forall c :: c in summoners ==> |summoners[c]| == |entries|
    ensures forall c :: c in miniSeries ==> |miniSeries[c]| == |entries|
  {
    RowsHaveFields(entries);
    TabulatesColumns(summoners, EntryFieldSet, "", EntryRows(entries));
    TabulatesColumns(miniSeries, MiniSeriesFieldSet, MiniSeriesPrefix, MiniSeriesRows(entries));
    forall c | c in summoners
      ensures c in LeagueEntryFields
    {
      var f :| f in EntryFieldSet && c == "" + f;
      assert "" + f == f;
    }
    forall f | f in LeagueEntryFields
      ensures f in summoners
    {
      assert "" + f == f;
    }
  }

  /** An entry sent without a mini-series shows target 0, wins 0, losses 0 and progress "NNNNN" in the mini-series table. */
  lemma AbsentMiniSeriesRow(raw: RawLeagueEntry)
    requires raw.miniSeries.None?
    ensures MiniSeriesDict(Validate(raw).miniSeries) ==
      map["losses" := Int(0), "progress" := Str("NNNNN"), "target" := Int(0), "wins" := Int(0)]
  {
  }

  /** The entry rows of a longer list extend those of a shorter one. */
  lemma RowsSnoc(entries: seq<LeagueEntry>, e: LeagueEntry)
    ensures EntryRows(entries + [e]) == EntryRows(entries) + [LeagueEntryDict(e)]
    ensures MiniSeriesRows(entries + [e]) == MiniSeriesRows(entries) + [MiniSeriesDict(e.miniSeries)]
  {
    assert (entries + [e])[..|entries|] == entries;
  }

  lemma ValidateAllSnoc(raws: seq<RawLeagueEntry>, j: nat)
    requires j < |raws|
    ensures ValidateAll(raws[..j + 1]) == ValidateAll(raws[..j]) + [Validate(raws[j])]
  {
    var longer, shorter := ValidateAll(raws[..j + 1]), ValidateAll(raws[..j]);
    assert forall i :: 0 <= i < j ==> longer[i] == shorter[i];
  }

  lemma EmptyScaffold(names: set<string>, prefix: string, table: Table)
    requires table.Keys == set f | f in names :: prefix + f
    requires forall c :: c in table ==> table[c] == []
    ensures Tabulates(table, names, prefix, [])
  {
  }

  /** One empty column `prefix + f` per name `f`, as the source's scaffold loops build them. */
  method EmptyColumns(names: seq<string>, prefix: string) returns (table: Table)
    ensures table.Keys == set f | f in names :: prefix + f
    ensures forall c :: c in table ==> table[c] == []
  {
    table := map[];
    for c := 0 to |names|
      invariant forall i :: 0 <= i < c ==> prefix + names[i] in table
      invariant forall k :: k in table ==> exists i :: 0 <= i < c && k == prefix + names[i]
      invariant forall k :: k in table ==> table[k] == []
    {
      table := table[prefix + names[c] := []];
    }
    forall k | k in set f | f in names :: prefix + f
      ensures k in table
    {
      var f :| f in names && k == prefix + f;
      var i :| 0 <= i < |names| && names[i] == f;
    }
  }

  /** The two empty tables `load_list_of_summoners` starts from: one column per field of each DTO. */
  method EmptySummonerTables() returns (summoners: Table, miniSeries: Table)
    ensures SummonerTables(summoners, miniSeries, [])
  {
    summoners := EmptyColumns(LeagueEntryFields, "");
    miniSeries := EmptyColumns(MiniSeriesFields, MiniSeriesPrefix);
    assert summoners.Keys == set f | f in EntryFieldSet :: "" + f;
    assert miniSeries.Keys == set f | f in MiniSeriesFieldSet :: MiniSeriesPrefix + f;
    EmptyScaffold(EntryFieldSet, "", summoners);
    EmptyScaffold(MiniSeriesFieldSet, MiniSeriesPrefix, miniSeries);
  }

  /** One pass of the inner loop: validate one decoded entry and append it to both tables. */
  method AppendEntry(summoners: Table, miniSeries: Table, summoner: RawLeagueEntry, ghost entries: seq<LeagueEntry>)
    returns (summoners': Table, miniSeries': Table)
    requires SummonerTables(summoners, miniSeries, entries)
    ensures SummonerTables(summoners', miniSeries', entries + [Validate(summoner)])
  {
    var entry := Validate(summoner);
    var leagueEntry := LeagueEntryDict(entry);
    MiniSeriesDictRoundTrip(entry.miniSeries);
    var miniSeriesEntry := MiniSeriesDict(MiniSeriesFromDict(leagueEntry["miniSeries"].entries).value);
    RowsSnoc(entries, entry);
    RowsHaveFields(entries);
    summoners' := AppendRow(summoners, EntryFieldSet, "", leagueEntry, EntryRows(entries));
    miniSeries' := AppendRow(miniSeries, MiniSeriesFieldSet, MiniSeriesPrefix, miniSeriesEntry,
                             MiniSeriesRows(entries));
  }

  /** The inner loop over the entries of one page. */
  method AppendPage(summoners: Table, miniSeries: Table, page: seq<RawLeagueEntry>, ghost entries: seq<LeagueEntry>)
    returns (summoners': Table, miniSeries': Table)
    requires SummonerTables(summoners, miniSeries, entries)
    ensures SummonerTables(summoners', miniSeries', entries + ValidateAll(page))
  {
    summoners', miniSeries' := summoners, miniSeries;
    for j := 0 to |page|
      invariant SummonerTables(summoners', miniSeries', entries + ValidateAll(page[..j]))
    {
      ghost var seen := entries + ValidateAll(page[..j]);
      summoners', miniSeries' := AppendEntry(summoners', miniSeries', page[j], seen);
      ValidateAllSnoc(page, j);
      assert seen + [Validate(page[j])] == entries + ValidateAll(page[..j + 1]);
    }
    assert page[..|page|] == page;
  }

  /** The URL `load_summoners_from_riot_api` requests for a link. */
  function LinkUrl(l: LeagueLink): string {
    SummonersUrl(l.baseLink, l.queueType, l.tier, l.division, l.page)
  }

  /** `reqs` are the requests the retry loop issues for link `l` when its attempts are answered by `net`. */
  predicate RequestedFrom(reqs: seq<Request>, l: LeagueLink, net: nat -> Response) {
    |reqs| == Retry(net).attempts && forall r :: r in reqs ==> r == Request(LinkUrl(l), l.headers)
  }

  /** `load_summoners_from_riot_api(**summoners)` for one link: what the retry loop returns, and the requests it issues. */
  method LoadLeaguePage(summoners: LeagueLink, net: nat -> Response)
    returns (content: Option<Bytes>, requests: seq<Request>)
    ensures content == Retry(net).content
    ensures RequestedFrom(requests, summoners, net)
  {
    var slept;
    content, requests, slept := LoadSummonersFromRiotApi(
      summoners.baseLink, summoners.queueType, summoners.tier, summoners.division,
      summoners.page, summoners.headers, summoners.verbose, net);
  }

  /**
   * `load_list_of_summoners`. Every league page is fetched in link order and its
   * entries are appended, entry by entry, to both tables. A page whose fetch
   * gives up yields `None`, and reading it then fails: `Failure(k)` for link `k`.
   */
  method LoadListOfSummoners(cfg: SummonersReaderConfig, header: Headers, verbose: bool,
                             network: nat -> nat -> Response, decode: Bytes -> seq<RawLeagueEntry>)
    returns (result: Result<(Table, Table), nat>, requested: seq<seq<Request>>)
    requires LinkableConfig(cfg)
    ensures var links := LeagueLinks(cfg, header, verbose);
      forall k :: 0 <= k < |requested| ==> k < |links| && RequestedFrom(requested[k], links[k], network(k))
    ensures var links := LeagueLinks(cfg, header, verbose);
      match Harvest(PageContents(network), decode, |links|)
      case Failure(k) => result == Failure(k) && |requested| == k + 1
      case Success(entries) =>
        result.Success? && SummonerTables(result.value.0, result.value.1, entries) && |requested| == |links|
  {
    var tableStructureSummoners, tableStructureMiniSeries := EmptySummonerTables();
    var linksPerDivision := BuildSummonersLinksPerDivision(cfg, header, verbose);
    ghost var entries: seq<LeagueEntry> := [];
    requested := [];
    for k := 0 to |linksPerDivision|
      invariant Harvest(PageContents(network), decode, k) == Success(entries)
      invariant SummonerTables(tableStructureSummoners, tableStructureMiniSeries, entries)
      invariant |requested| == k
      invariant forall j :: 0 <= j < k ==> RequestedFrom(requested[j], linksPerDivision[j], network(j))
    {
      var content, requests := LoadLeaguePage(linksPerDivision[k], network(k));
      requested := requested + [requests];
      if content.None? {
        result := Failure(k);
        HarvestStops(PageContents(network), decode, k, |linksPerDivision|);
        return;
      }
      var page := decode(content.value);
      tableStructureSummoners, tableStructureMiniSeries :=
        AppendPage(tableStructureSummoners, tableStructureMiniSeries, page, entries);
      entries := entries + ValidateAll(page);
    }
    result := Success((tableStructureSummoners, tableStructureMiniSeries));
  }

  /** Once the harvest fails at page `k`, it fails there however many pages follow. */
  lemma {:induction false} HarvestStops(pages: nat -> Option<Bytes>, decode: Bytes -> seq<RawLeagueEntry>, k: nat, n: nat)
    requires k < n
    requires Harvest(pages, decode, k).Success? && pages(k).None?
    ensures Harvest(pages, decode, n) == Failure(k)
    decreases n - k
  {
    if n > k + 1 {
      HarvestStops(pages, decode, k, n - 1);
      assert HarvestPage(pages(n - 1), decode, Failure(k), n - 1) == Failure(k);
    } else {
      var earlier := Harvest(pages, decode, k);
      assert HarvestPage(None, decode, earlier, k) == Failure(k);
    }
  }
}

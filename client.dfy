/**
 * The FACR registry client, `facrApi` in src/services/facr/facrApi.ts: five read
 * operations issued through the caching transport, plus `clearCache`. Every failure
 * is turned into an `Error` by `handleApiError`; a resolved call yields the payload
 * or a projection of it. Response bodies are the records of src/services/facr/types.ts
 * that the projections look into.
 */
module FacrClient {
  import opened Wrappers
  import opened Text
  import opened Json
  import opened Errors
  import opened Caching
  import opened Transport

  datatype Match = Match(
    dateTime: string, home: string, homeId: string, homeLogoUrl: string,
    away: string, awayId: string, awayLogoUrl: string,
    score: string, venue: string, matchId: string, reportUrl: string)

  /** A competition of a club; `matches` is optional in the registry's answer. */
  datatype Competition = Competition(
    id: string, code: string, name: string, teamCount: string, matchesLink: string,
    matches: Option<seq<Match>>)

  /** A club's detail; a body without a `competitions` field is read as having none. */
  datatype ClubInfo = ClubInfo(
    name: string, clubId: string, clubType: string, clubInternalId: string,
    url: string, logoUrl: string, address: string, category: string,
    competitions: Option<seq<Competition>>)

  datatype SearchResult = SearchResult(
    name: string, clubId: string, clubType: string, url: string, logoUrl: string,
    category: Option<string>, address: Option<string>)

  datatype SearchResponse = SearchResponse(query: string, count: int, results: seq<SearchResult>)

  /** A response payload as the cache holds it: the search answer or a club record. */
  datatype Body = SearchBody(search: SearchResponse) | ClubBody(club: ClubInfo)

  /** `'football' | 'futsal'`. */
  datatype ClubType = Football | Futsal

  function TypeName(t: ClubType): string
  {
    match t
    case Football => "football"
    case Futsal => "futsal"
  }

  /** The default parameter `clubType = 'football'`. */
  function ResolveType(t: Option<ClubType>): ClubType
  {
    t.GetOr(Football)
  }

  // ---------------------------------------------------------------------------
  // Requests

  /** `apiClient.get('/club/search', {params: {q: query}})`. */
  function SearchConfig(query: string): Config
  {
    Config(Some("get"), "/club/search", Some([("q", query)]))
  }

  /** `apiClient.get(`/club/${clubType}/${clubId}`)`. */
  function ClubConfig(clubType: string, clubId: string): Config
  {
    Config(Some("get"), "/club/" + clubType + "/" + clubId, None)
  }

  /** `apiClient.get(`/club/${clubType}/${clubId}/table`)`. */
  function TableConfig(clubType: string, clubId: string): Config
  {
    Config(Some("get"), "/club/" + clubType + "/" + clubId + "/table", None)
  }

  /**
   * `const [type, id] = competitionId.split('/')`: the first two pieces, a missing second
   * piece interpolating as "undefined"; pieces past the second are dropped.
   */
  function SplitCompetitionId(competitionId: string): (string, string)
  {
    var parts := Split(competitionId, '/');
    (parts[0], if |parts| >= 2 then parts[1] else "undefined")
  }

  /** The club request `getCompetitionMatches` issues for a composite id. */
  function CompetitionConfig(competitionId: string): Config
  {
    var (clubType, clubId) := SplitCompetitionId(competitionId);
    ClubConfig(clubType, clubId)
  }

  // ---------------------------------------------------------------------------
  // Response projections

  /** How a call settles: the payload, or the message of the `Error` `handleApiError` throws. */
  function Settle(o: Outcome<Body>): Result<Body, string>
  {
    match o
    case Delivered(r) => Ok(r.data)
    case Rejected(f) => Err(HandleApiError(f))
  }

  /** `clubInfo.competitions || []`. */
  function CompetitionsOf(b: Body): seq<Competition>
  {
    match b
    case ClubBody(info) => info.competitions.GetOr([])
    case SearchBody(_) => []
  }

  /**
   * How `getClubCompetitions` settles once its inner `getClub` has: the competitions of the
   * club, or, when `getClub` rejected, its `Error` caught a second time. That `Error` has
   * neither `response` nor `request`, so `handleApiError` treats it as a setup failure.
   */
  function CompetitionsResult(o: Outcome<Body>): Result<seq<Competition>, string>
  {
    match Settle(o)
    case Ok(b) => Ok(CompetitionsOf(b))
    case Err(m) => Err(HandleApiError(RequestSetupFailed(m)))
  }

  /** The position of the first competition with that id, or `|cs|` when there is none. */
  function FirstWithId(cs: seq<Competition>, id: string): (k: nat)
    ensures k <= |cs|
    ensures k < |cs| ==> cs[k].id == id
    ensures forall j :: 0 <= j < k ==> cs[j].id != id
    decreases |cs|
  {
    if |cs| == 0 then 0
    else if cs[0].id == id then 0
    else 1 + FirstWithId(cs[1..], id)
  }

  /** `competitions.find(c => c.id === id)`: the first competition with that id. */
  function FindCompetition(cs: seq<Competition>, id: string): (r: Option<Competition>)
    ensures r.None? <==> forall i :: 0 <= i < |cs| ==> cs[i].id != id
    ensures r.Some? ==> r.value.id == id && r.value == cs[FirstWithId(cs, id)]
  {
    var k := FirstWithId(cs, id);
    if k < |cs| then Some(cs[k]) else None
  }

  /** `competition?.matches || []` for the competition found by id. */
  function MatchesOf(b: Body, competitionId: string): seq<Match>
  {
    match FindCompetition(CompetitionsOf(b), competitionId)
    case None => []
    case Some(c) => c.matches.GetOr([])
  }

  // ---------------------------------------------------------------------------
  // The client over the shared store

  /** `searchClubs(query)`. */
  method SearchClubs(store: CacheStore<Body>, query: string, now: nat, ttl: int, reply: Reply<Body>, at: nat)
    returns (r: Result<Body, string>)
    modifies store
    ensures var (e, o) := Exchange(old(store.entries), SearchConfig(query), now, ttl, reply, at);
            store.entries == e && r == Settle(o)
  {
    var o := Send(store, SearchConfig(query), now, ttl, reply, at);
    r := Settle(o);
  }

  /** `getClub(clubId, clubType)`. */
  method GetClub(store: CacheStore<Body>, clubId: string, clubType: Option<ClubType>,
                 now: nat, ttl: int, reply: Reply<Body>, at: nat)
    returns (r: Result<Body, string>)
    modifies store
    ensures var (e, o) := Exchange(old(store.entries), ClubConfig(TypeName(ResolveType(clubType)), clubId),
                                   now, ttl, reply, at);
            store.entries == e && r == Settle(o)
  {
    var o := Send(store, ClubConfig(TypeName(ResolveType(clubType)), clubId), now, ttl, reply, at);
    r := Settle(o);
  }

  /** `getClubTable(clubId, clubType)`. */
  method GetClubTable(store: CacheStore<Body>, clubId: string, clubType: Option<ClubType>,
                      now: nat, ttl: int, reply: Reply<Body>, at: nat)
    returns (r: Result<Body, string>)
    modifies store
    ensures var (e, o) := Exchange(old(store.entries), TableConfig(TypeName(ResolveType(clubType)), clubId),
                                   now, ttl, reply, at);
            store.entries == e && r == Settle(o)
  {
    var o := Send(store, TableConfig(TypeName(ResolveType(clubType)), clubId), now, ttl, reply, at);
    r := Settle(o);
  }

  /** `clearCache()`. */
  method ClearCache(store: CacheStore<Body>)
    modifies store
    ensures store.entries == map[]
  {
    store.Clear();
  }

  /**
   * `getClubCompetitions(clubId, clubType)`: the club's competitions, none when the field is
   * absent. A failure of the inner `getClub` arrives as a plain `Error` and is wrapped again.
   */
  method GetClubCompetitions(store: CacheStore<Body>, clubId: string, clubType: Option<ClubType>,
                             now: nat, ttl: int, reply: Reply<Body>, at: nat)
    returns (r: Result<seq<Competition>, string>)
    modifies store
    ensures var (e, o) := Exchange(old(store.entries), ClubConfig(TypeName(ResolveType(clubType)), clubId),
                                   now, ttl, reply, at);
            store.entries == e && r == CompetitionsResult(o)
  {
    var club := GetClub(store, clubId, clubType, now, ttl, reply, at);
    match club
    case Ok(b) =>
      r := Ok(CompetitionsOf(b));
    case Err(m) =>
      r := Err(HandleApiError(RequestSetupFailed(m)));
  }

  /** `getCompetitionMatches(competitionId)`: the matches of that competition in its club's record. */
  method GetCompetitionMatches(store: CacheStore<Body>, competitionId: string,
                               now: nat, ttl: int, reply: Reply<Body>, at: nat)
    returns (r: Result<seq<Match>, string>)
    modifies store
    ensures var (e, o) := Exchange(old(store.entries), CompetitionConfig(competitionId), now, ttl, reply, at);
            store.entries == e
            && r == match o
                    case Delivered(resp) => Ok(MatchesOf(resp.data, competitionId))
                    case Rejected(f) => Err(HandleApiError(f))
  {
    var o := Send(store, CompetitionConfig(competitionId), now, ttl, reply, at);
    match o
    case Delivered(resp) =>
      r := Ok(MatchesOf(resp.data, competitionId));
    case Rejected(f) =>
      r := Err(HandleApiError(f));
  }

  // ---------------------------------------------------------------------------
  // Properties

  /**
   * A failure seen through `getClubCompetitions` reads differently from the same failure
   * seen through `getClub`: the message `getClub` rejects with gets the setup prefix a second
   * time. So a server that cannot be reached is not reported with the no-response text, and
   * a rejection without a server message reads "API request failed: API request failed".
   */
  lemma {:induction false} CompetitionsFailureWrappedTwice(f: ApiFailure)
    ensures Settle(Rejected(f)) == Err(HandleApiError(f))
    ensures CompetitionsResult(Rejected(f)) == Err(SetupPrefix + HandleApiError(f))
    ensures CompetitionsResult(Rejected(f)).error != Settle(Rejected(f)).error
    ensures f == Unreachable ==> CompetitionsResult(Rejected(f)).error != NoResponseMessage
    ensures f == RemoteRejected(None) ==> CompetitionsResult(Rejected(f)).error == SetupPrefix + DefaultMessage
  {
    var inner := HandleApiError(f);
    assert |SetupPrefix + inner| > |inner|;
    if f == Unreachable {
      assert |SetupPrefix + inner| > |NoResponseMessage|;
    }
  }

  /** A composite id `type/id` routes to the same club request as `getClub(id, type)`. */
  lemma CompetitionRoutedThroughClub(clubType: ClubType, clubId: string)
    requires '/' !in clubId
    ensures SplitCompetitionId(TypeName(clubType) + "/" + clubId) == (TypeName(clubType), clubId)
    ensures CompetitionConfig(TypeName(clubType) + "/" + clubId) == ClubConfig(TypeName(clubType), clubId)
  {
    var t := TypeName(clubType);
    assert '/' !in t;
    assert t + "/" + clubId == t + ['/'] + clubId;
    SplitAfterHead(t, '/', clubId);
    SplitWithoutSeparator(clubId, '/');
  }

  /**
   * The pieces of a composite id: the part before the first '/', then the part up to the
   * next one, or "undefined" when there is no '/'.
   */
  lemma SplitCompetitionIdParts(competitionId: string)
    ensures '/' !in SplitCompetitionId(competitionId).0
    ensures '/' !in competitionId ==> SplitCompetitionId(competitionId) == (competitionId, "undefined")
    ensures '/' in competitionId ==> '/' !in SplitCompetitionId(competitionId).1
    ensures '/' in competitionId ==>
      exists rest :: competitionId == SplitCompetitionId(competitionId).0 + ['/'] + rest
  {
    var parts := Split(competitionId, '/');
    SplitPiecesAreSeparatorFree(competitionId, '/');
    if '/' !in competitionId {
      SplitWithoutSeparator(competitionId, '/');
    } else {
      JoinSplit(competitionId, '/');
      assert competitionId == parts[0] + ['/'] + Join(parts[1..], '/');
    }
  }

  /**
   * The matches of a competition: those of the first competition of the club whose id is
   * `competitionId`, or none when there is no such competition or it lists no matches.
   */
  lemma MatchesOfFirstWithId(b: Body, competitionId: string)
    ensures (forall i :: 0 <= i < |CompetitionsOf(b)| ==> CompetitionsOf(b)[i].id != competitionId)
            ==> MatchesOf(b, competitionId) == []
    ensures forall i :: (0 <= i < |CompetitionsOf(b)| && CompetitionsOf(b)[i].id == competitionId
                         && (forall j :: 0 <= j < i ==> CompetitionsOf(b)[j].id != competitionId))
                        ==> MatchesOf(b, competitionId) == CompetitionsOf(b)[i].matches.GetOr([])
  {
    var cs := CompetitionsOf(b);
    forall i | 0 <= i < |cs| && cs[i].id == competitionId && (forall j :: 0 <= j < i ==> cs[j].id != competitionId)
      ensures MatchesOf(b, competitionId) == cs[i].matches.GetOr([])
    {
      var k := FirstWithId(cs, competitionId);
    }
  }

  /** A club record without a `competitions` field, and any search answer, has an empty competition list. */
  lemma CompetitionsDefaultToEmpty(b: Body)
    ensures b.SearchBody? ==> CompetitionsOf(b) == []
    ensures b.ClubBody? && b.club.competitions.None? ==> CompetitionsOf(b) == []
    ensures b.ClubBody? && b.club.competitions.Some? ==> CompetitionsOf(b) == b.club.competitions.value
  {
  }

  /** The key of a request made with `apiClient.get`: "get", the URL and the serialized parameters. */
  lemma GetKey(url: string, params: Option<seq<Param>>)
    ensures CacheKey(Config(Some("get"), url, params)) == "get" + [':'] + url + [':'] + Stringify(params)
  {
    LowerOfGet();
  }

  /** The key of a search request, spelled out. */
  lemma SearchKeyExample()
    ensures CacheKey(SearchConfig("Sparta")) == "get" + ":" + "/club/search" + ":" + "{\"" + "q" + "\":\"" + "Sparta" + "\"}"
  {
    GetKey("/club/search", Some([("q", "Sparta")]));
    StringifyPlainParam("q", "Sparta");
  }

  /** The key of a club request, spelled out: a request without parameters ends in `undefined`. */
  lemma ClubKeyExample()
    ensures CacheKey(ClubConfig("football", "123")) == "get" + ":" + "/club/football/123" + ":" + "undefined"
  {
    GetKey("/club/football/123", None);
  }

  /** Searches for different queries never share a cache entry. */
  lemma SearchKeysDistinct(q1: string, q2: string)
    requires q1 != q2
    ensures CacheKey(SearchConfig(q1)) != CacheKey(SearchConfig(q2))
  {
    KeyDistinguishesParams(SearchConfig(q1), SearchConfig(q2));
    assert [("q", q1)] != [("q", q2)] by { assert [("q", q1)][0] != [("q", q2)][0]; }
  }

  /**
   * A search made twice well within the TTL is fetched once: the second call settles with
   * the same payload without consulting the network. After `clearCache` the same search
   * goes to the network again.
   */
  lemma {:induction false} SearchTwiceThenClear(entries: map<string, Entry<Body>>, query: string, ttl: int,
                                                payload: Body, now: nat, reply2: Reply<Body>, reply3: Reply<Body>)
    requires Intercept(entries, SearchConfig(query), now, ttl).Network? && ttl > 0
    ensures var c := SearchConfig(query);
            var (e1, o1) := Exchange(entries, c, now, ttl, Answered(payload, 200, "OK"), now);
            var (e2, o2) := Exchange(e1, c, now, ttl, reply2, now);
            Settle(o1) == Ok(payload) && Settle(o2) == Ok(payload) && e2 == e1
            && Intercept<Body>(map[], c, now, ttl) == Network(c)
  {
    var c := SearchConfig(query);
    LowerOfGet();
    assert IsGet(c);
    RepeatedGetIsServed(entries, c, now, ttl, payload, 200, "OK", now, now, reply2, now);
    ClearedStoreMisses<Body>(c, now, ttl);
  }
}

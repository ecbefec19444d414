/**
 * The provider's public-key cache, pubKeys (pkg/service/api_server.go:28-34,
 * 122-182). The cache holds a map from key ID to PEM string, the max-age the
 * provider last announced and the time of the last successful refresh. A
 * lookup refreshes first when the cache is older than max-age; a refresh
 * merges the freshly decoded keys into the map, takes max-age from the
 * Cache-Control header and stamps the refresh time.
 *
 * Times are integers: nanoseconds since Go's zero time.Time, so that the
 * zero value of the refreshedAt field is 0. The HTTP fetch and the JSON
 * decode are one abstract outcome (Fetch).
 */
module KeyCache {
  import opened Wrappers
  import opened CacheControl

  const NanosPerSecond: int := 1_000_000_000

  /** A snapshot of the three pieces of state the cache keeps. */
  datatype CacheState = CacheState(keys: map<string, string>, maxAge: int, refreshedAt: int)

  /** The cache as grabPubKeys allocates it, before its first refresh. */
  const EmptyCache: CacheState := CacheState(map[], 0, 0)

  /** What the GET of the key endpoint and the decode of its body produce. */
  datatype Fetch =
    | FetchFailed                                                   // client.Get returned an error
    | DecodeFailed                                                  // the body is not a JSON object of strings
    | Fetched(keys: map<string, string>, cacheControl: seq<string>) // decoded entries and the Cache-Control values

  /** The errors refresh returns. */
  datatype CacheError = FetchError | DecodeError | MaxAgeRangeError

  datatype RefreshResult = RefreshResult(cache: CacheState, err: Option<CacheError>)

  datatype GetResult = GetResult(cache: CacheState, pem: string)

  /** The invariant the cache keeps: max-age is a value Atoi produced, or the initial 0. */
  predicate ValidCache(s: CacheState) {
    0 <= s.maxAge <= MaxInt
  }

  /**
   * int(now.Sub(refreshedAt).Seconds()): the age of the cache in whole
   * seconds, truncated toward zero (also when the clock went backwards).
   */
  function AgeSeconds(now: int, refreshedAt: int): (age: int)
    ensures 0 <= now - refreshedAt ==>
              0 <= age && age * NanosPerSecond <= now - refreshedAt < (age + 1) * NanosPerSecond
    ensures now - refreshedAt < 0 ==>
              age <= 0 && (age - 1) * NanosPerSecond < now - refreshedAt <= age * NanosPerSecond
  {
    var d := now - refreshedAt;
    if 0 <= d then d / NanosPerSecond else -((-d) / NanosPerSecond)
  }

  /** The staleness test of get: the age strictly exceeds max-age. */
  predicate IsStale(s: CacheState, now: int) {
    AgeSeconds(now, s.refreshedAt) > s.maxAge
  }

  /** k.keys[ID]: a missing key reads as Go's zero string. */
  function Lookup(keys: map<string, string>, id: string): string {
    if id in keys then keys[id] else ""
  }

  /** What refresh does to the cache, and the error it returns. */
  function RefreshOutcome(s: CacheState, f: Fetch, completedAt: int): RefreshResult {
    match f
    case FetchFailed => RefreshResult(s, Some(FetchError))
    case DecodeFailed => RefreshResult(s, Some(DecodeError))
    case Fetched(decoded, cacheControl) =>
      var merged := s.keys + decoded;
      match ScanMaxAge(cacheControl)
      case NoHint => RefreshResult(CacheState(merged, s.maxAge, completedAt), None)
      case Hint(n) => RefreshResult(CacheState(merged, n, completedAt), None)
      case HintOutOfRange => RefreshResult(CacheState(merged, s.maxAge, s.refreshedAt), Some(MaxAgeRangeError))
  }

  /** What get does to the cache, and the PEM string it answers (its error is always nil). */
  function GetOutcome(s: CacheState, id: string, now: int, f: Fetch, completedAt: int): GetResult {
    var after := if IsStale(s, now) then RefreshOutcome(s, f, completedAt).cache else s;
    GetResult(after, Lookup(after.keys, id))
  }

  // ---------------------------------------------------------------------
  // Staleness

  /**
   * With a non-negative max-age, the cache is stale exactly when a full
   * second beyond max-age has elapsed since the last refresh; in particular
   * an age of exactly max-age seconds is still fresh, and a clock that went
   * backwards never makes it stale.
   */
  lemma StaleIffMaxAgeExceeded(s: CacheState, now: int)
    requires 0 <= s.maxAge
    ensures IsStale(s, now) <==> now - s.refreshedAt >= (s.maxAge + 1) * NanosPerSecond
    ensures AgeSeconds(now, s.refreshedAt) == s.maxAge ==> !IsStale(s, now)
  {
    var age := AgeSeconds(now, s.refreshedAt);
    if now - s.refreshedAt >= (s.maxAge + 1) * NanosPerSecond {
      assert age >= s.maxAge + 1;
    } else if 0 <= now - s.refreshedAt {
      assert age <= s.maxAge;
    }
  }

  /** A fresh cache answers from its map and is left as it was, whatever the fetch would return. */
  lemma FreshGetKeepsCache(s: CacheState, id: string, now: int, f: Fetch, completedAt: int)
    requires !IsStale(s, now)
    ensures GetOutcome(s, id, now, f, completedAt) == GetResult(s, Lookup(s.keys, id))
  {
  }

  /** A stale cache is refreshed first and answers from the refreshed map, even when the refresh failed. */
  lemma StaleGetRefreshesFirst(s: CacheState, id: string, now: int, f: Fetch, completedAt: int)
    requires IsStale(s, now)
    ensures var r := RefreshOutcome(s, f, completedAt);
            GetOutcome(s, id, now, f, completedAt) == GetResult(r.cache, Lookup(r.cache.keys, id))
  {
  }

  /** An ID absent from the map answers the empty string, never an error. */
  lemma MissingIdAnswersEmpty(s: CacheState, id: string, now: int, f: Fetch, completedAt: int)
    requires id !in GetOutcome(s, id, now, f, completedAt).cache.keys
    ensures GetOutcome(s, id, now, f, completedAt).pem == ""
  {
  }

  // ---------------------------------------------------------------------
  // Refresh

  /** A failed fetch or decode returns an error and leaves every field as it was. */
  lemma FailedFetchKeepsState(s: CacheState, f: Fetch, completedAt: int)
    requires f.FetchFailed? || f.DecodeFailed?
    ensures RefreshOutcome(s, f, completedAt).err.Some?
    ensures RefreshOutcome(s, f, completedAt).cache == s
  {
  }

  /**
   * The decoded entries are merged into the map: an ID in the response gets
   * the response's PEM, an ID absent from it keeps its cached PEM, and no
   * other ID appears. This holds on every path that got past the decode.
   */
  lemma RefreshMergesKeys(s: CacheState, f: Fetch, completedAt: int, id: string)
    requires f.Fetched?
    ensures var keys := RefreshOutcome(s, f, completedAt).cache.keys;
            (id in keys <==> id in s.keys || id in f.keys) &&
            (id in f.keys ==> keys[id] == f.keys[id]) &&
            (id !in f.keys && id in s.keys ==> keys[id] == s.keys[id])
  {
  }

  /**
   * max-age comes from the first Cache-Control value that contains
   * max-age= followed by digits; when no value does, max-age keeps its
   * previous value and the refresh still succeeds.
   */
  lemma RefreshTakesFirstMaxAge(s: CacheState, f: Fetch, completedAt: int)
    requires f.Fetched?
    ensures var r := RefreshOutcome(s, f, completedAt);
            match FirstDirective(f.cacheControl)
            case None => r.err == None && r.cache.maxAge == s.maxAge
            case Some(j) =>
              var digits := FindMaxAge(f.cacheControl[j]).value;
              Atoi(digits).Some? ==> r.err == None && r.cache.maxAge == DecimalValue(digits)
  {
  }

  /**
   * Digits that overflow Atoi make refresh fail after the merge: max-age and
   * refreshedAt keep their values, so the cache stays as stale as it was.
   */
  lemma MaxAgeOverflowKeepsTimestamp(s: CacheState, f: Fetch, completedAt: int)
    requires f.Fetched? && ScanMaxAge(f.cacheControl) == HintOutOfRange
    ensures var r := RefreshOutcome(s, f, completedAt);
            r.err == Some(MaxAgeRangeError) && r.cache.keys == s.keys + f.keys &&
            r.cache.maxAge == s.maxAge && r.cache.refreshedAt == s.refreshedAt
  {
  }

  /** A refresh succeeds exactly when the fetch succeeded and max-age did not overflow; then it stamps the completion time. */
  lemma RefreshSucceedsIff(s: CacheState, f: Fetch, completedAt: int)
    ensures var r := RefreshOutcome(s, f, completedAt);
            (r.err.None? <==> f.Fetched? && ScanMaxAge(f.cacheControl) != HintOutOfRange) &&
            (r.err.None? ==> r.cache.refreshedAt == completedAt) &&
            (r.err.Some? ==> r.cache.maxAge == s.maxAge && r.cache.refreshedAt == s.refreshedAt)
  {
  }

  /** Refresh, and so get, keep max-age within the range Atoi produces. */
  lemma RefreshKeepsValid(s: CacheState, f: Fetch, completedAt: int)
    requires ValidCache(s)
    ensures ValidCache(RefreshOutcome(s, f, completedAt).cache)
  {
    if f.Fetched? {
      match FirstDirective(f.cacheControl)
      case None =>
      case Some(j) =>
    }
  }

  /**
   * After a successful refresh completed at time t, lookups up to a full
   * second past the new max-age are answered from the cache.
   */
  lemma RefreshOpensFreshWindow(s: CacheState, f: Fetch, completedAt: int, now: int)
    requires ValidCache(s)
    requires RefreshOutcome(s, f, completedAt).err.None?
    requires completedAt <= now < completedAt + (RefreshOutcome(s, f, completedAt).cache.maxAge + 1) * NanosPerSecond
    ensures !IsStale(RefreshOutcome(s, f, completedAt).cache, now)
  {
    RefreshKeepsValid(s, f, completedAt);
    StaleIffMaxAgeExceeded(RefreshOutcome(s, f, completedAt).cache, now);
  }

  /**
   * The first refresh decides construction: it succeeds exactly when the
   * fetch succeeded and max-age did not overflow, and max-age is then the
   * announced value, or 0 when none was announced.
   */
  lemma FirstRefreshDecidesStartup(f: Fetch, completedAt: int)
    ensures var r := RefreshOutcome(EmptyCache, f, completedAt);
            (r.err.None? <==> f.Fetched? && ScanMaxAge(f.cacheControl) != HintOutOfRange) &&
            (r.err.None? ==> r.cache.keys == f.keys && r.cache.refreshedAt == completedAt &&
                             r.cache.maxAge == (match ScanMaxAge(f.cacheControl)
                                                case Hint(n) => n
                                                case _ => 0))
  {
  }

  // ---------------------------------------------------------------------
  // Sequences of lookups

  /** One call of get: the key ID, the time of the call, and what a refresh in it would fetch and when it would complete. */
  datatype GetCall = GetCall(id: string, now: int, fetch: Fetch, completedAt: int)

  datatype GetsResult = GetsResult(cache: CacheState, answers: seq<string>)

  /** The cache after a series of get calls, and their answers. */
  function RunGets(s: CacheState, calls: seq<GetCall>): (r: GetsResult)
    ensures |r.answers| == |calls|
    decreases |calls|
  {
    if calls == [] then GetsResult(s, [])
    else
      var g := GetOutcome(s, calls[0].id, calls[0].now, calls[0].fetch, calls[0].completedAt);
      var rest := RunGets(g.cache, calls[1..]);
      GetsResult(rest.cache, [g.pem] + rest.answers)
  }

  /**
   * Any number of lookups made while the cache is fresh never refresh it:
   * the state stays the same and every answer comes from the cached map.
   */
  lemma {:induction false} GetsWithinTtlNeverRefresh(s: CacheState, calls: seq<GetCall>)
    requires forall k :: 0 <= k < |calls| ==> !IsStale(s, calls[k].now)
    ensures RunGets(s, calls).cache == s
    ensures forall k :: 0 <= k < |calls| ==> RunGets(s, calls).answers[k] == Lookup(s.keys, calls[k].id)
  {
    if calls != [] {
      GetsWithinTtlNeverRefresh(s, calls[1..]);
      var rest := RunGets(s, calls[1..]);
      forall k | 0 < k < |calls|
        ensures RunGets(s, calls).answers[k] == Lookup(s.keys, calls[k].id)
      {
        assert calls[1..][k - 1] == calls[k];
      }
    }
  }

  /**
   * The provider answers {"key1": pemA} with Cache-Control: max-age=3600.
   * Within the hour that follows, key1 answers pemA and key2 answers the
   * empty string, and neither lookup refreshes the cache.
   */
  lemma OneHourScenario(pemA: string, t: int, now: int, f: Fetch, completedAt: int)
    requires t <= now < t + 3601 * NanosPerSecond
    ensures var s := RefreshOutcome(EmptyCache, Fetched(map["key1" := pemA], ["max-age=3600"]), t).cache;
            s.maxAge == 3600 &&
            GetOutcome(s, "key1", now, f, completedAt) == GetResult(s, pemA) &&
            GetOutcome(s, "key2", now, f, completedAt) == GetResult(s, "")
  {
    var v := "max-age=3600";
    assert MatchAt(v, 0);
    LeftmostMatchWins(v, 0);
    assert DigitRun(v, 12) == 0;
    assert DigitRun(v, 8) == 4;
    assert Capture(v, 0) == "3600";
    assert DecimalValue("3600") == 3600 by {
      assert "3600"[..3] == "360";
      assert "360"[..2] == "36";
      assert "36"[..1] == "3";
      assert "3"[..0] == "";
    }
    FirstDirectiveAt([v], 0);
    var s := RefreshOutcome(EmptyCache, Fetched(map["key1" := pemA], [v]), t).cache;
    assert s.maxAge == 3600 && s.refreshedAt == t;
    StaleIffMaxAgeExceeded(s, now);
  }

  // ---------------------------------------------------------------------
  // The cache object

  /** The pubKeys struct: its fields are updated in place by Get and Refresh. */
  class PubKeys {
    var keys: map<string, string>
    var maxAge: int
    var refreshedAt: int

    ghost predicate Valid()
      reads this
    {
      ValidCache(State())
    }

    function State(): CacheState
      reads this
    {
      CacheState(keys, maxAge, refreshedAt)
    }

    /** The struct literal of grabPubKeys: an empty map, max-age 0 and the zero time. */
    constructor ()
      ensures Valid() && State() == EmptyCache
    {
      keys := map[];
      maxAge := 0;
      refreshedAt := 0;
    }

    /**
     * refresh: merge the decoded keys, take max-age from the first matching
     * Cache-Control value, then stamp the completion time.
     */
    method Refresh(f: Fetch, completedAt: int) returns (err: Option<CacheError>)
      requires Valid()
      modifies this
      ensures Valid()
      ensures RefreshResult(State(), err) == RefreshOutcome(old(State()), f, completedAt)
    {
      match f {
        case FetchFailed =>
          return Some(FetchError);
        case DecodeFailed =>
          return Some(DecodeError);
        case Fetched(decoded, cacheControl) =>
          keys := keys + decoded;
          var i := 0;
          while i < |cacheControl|
            invariant 0 <= i <= |cacheControl|
            invariant forall k :: 0 <= k < i ==> FindMaxAge(cacheControl[k]).None?
            invariant keys == old(keys) + decoded
            invariant maxAge == old(maxAge) && refreshedAt == old(refreshedAt)
          {
            var digits := FindMaxAge(cacheControl[i]);
            if digits.Some? {
              FirstDirectiveAt(cacheControl, i);
              var n := Atoi(digits.value);
              if n.None? {
                assert ScanMaxAge(cacheControl) == HintOutOfRange;
                return Some(MaxAgeRangeError);
              }
              assert ScanMaxAge(cacheControl) == Hint(n.value);
              maxAge := n.value;
              break;
            }
            i := i + 1;
          }
          assert ScanMaxAge(cacheControl) == NoHint || ScanMaxAge(cacheControl) == Hint(maxAge);
          refreshedAt := completedAt;
          return None;
      }
    }

    /** get: refresh first when stale, discarding the refresh's error; answer the cached PEM. */
    method Get(id: string, now: int, f: Fetch, completedAt: int) returns (pem: string, err: Option<CacheError>)
      requires Valid()
      modifies this
      ensures Valid()
      ensures err == None
      ensures GetResult(State(), pem) == GetOutcome(old(State()), id, now, f, completedAt)
    {
      var keysAge := AgeSeconds(now, refreshedAt);
      if keysAge > maxAge {
        var _ := Refresh(f, completedAt);
      }
      pem := Lookup(keys, id);
      err := None;
    }
  }

  /** grabPubKeys: a new cache, returned only if its first refresh succeeds. */
  method GrabPubKeys(f: Fetch, completedAt: int) returns (k: PubKeys?, err: Option<CacheError>)
    ensures err == RefreshOutcome(EmptyCache, f, completedAt).err
    ensures k == null <==> err.Some?
    ensures k != null ==> fresh(k) && k.Valid() && k.State() == RefreshOutcome(EmptyCache, f, completedAt).cache
  {
    var c := new PubKeys();
    err := c.Refresh(f, completedAt);
    if err.Some? {
      return null, err;
    }
    k := c;
  }
}

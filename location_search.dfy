/**
 * `LocationSearchService`: location search behind a cache. A search reads the cached list under
 * `weather:search:<query>_<language>`; when there is none, or it is empty, it asks every provider
 * client, caches the answers sorted by name and returns them in the order they came. Either way
 * the caller gets the locations without repeated name and country, cut to the limit (5 by default).
 */
module LocationSearch {
  import opened Wrappers
  import opened Model
  import opened Redis
  import Text
  import KeyGenerator

  datatype LocationSearchRequest = LocationSearchRequest(query: Option<string>, limit: Option<int>,
                                                         language: Option<string>)

  /**
   * How a search fails: a null query (the key derivation dereferences it), a negative limit
   * (refused by `take` when the pipeline is assembled), or a store call that raised.
   */
  datatype SearchError = NullQuery | NegativeLimit | StoreFailed

  /** What one provider client answered: a list, nothing, or an error. */
  datatype ClientAnswer = Found(locations: seq<LocationInfo>) | NoAnswer | Fails

  const SearchPrefix: string := "weather:search:"
  const DefaultLimit: nat := 5

  // ---------------------------------------------------------------- search key

  /** `generateSearchKey`: the lower-cased query with `\s` runs as "_", then "_" and the language. */
  function SearchKey(query: string, language: Option<string>): (k: string)
    ensures var lang := language.GetOr("en"); var q := |k| - |lang| - 1;
      && 0 <= q && k[q] == '_' && k[q + 1..] == lang && Text.SpaceFree(k[..q])
  {
    Text.CollapseSpaceFree(Text.Lower(query));
    Text.CollapseSpaces(Text.Lower(query)) + "_" + language.GetOr("en")
  }

  function SearchCacheKey(query: string, language: Option<string>): string {
    SearchPrefix + SearchKey(query, language)
  }

  /**
   * Queries that differ in letter case share their key, and a query already in key form keeps
   * it: normalising is idempotent.
   */
  lemma SearchKeyNormalises(query: string, language: Option<string>)
    ensures SearchKey(Text.Lower(query), language) == SearchKey(query, language)
    ensures SearchKey(Text.CollapseSpaces(Text.Lower(query)), language) == SearchKey(query, language)
  {
    Text.LowerIdempotent(query);
    var lowered := Text.Lower(query);
    var collapsed := Text.CollapseSpaces(lowered);
    Text.CollapseChars(lowered);
    forall i | 0 <= i < |collapsed| ensures Text.Lower(collapsed)[i] == collapsed[i] {
      if collapsed[i] != '_' {
        var j :| 0 <= j < |lowered| && lowered[j] == collapsed[i];
        assert lowered[j] == Text.LowerChar(query[j]);
      }
    }
    assert Text.Lower(collapsed) == collapsed;
    Text.CollapseIdempotent(lowered);
  }

  /** A search key is never the key of a weather snapshot, so the two caches share the store safely. */
  lemma SearchKeyNotWeatherKey(f: KeyGenerator.Formats, query: string, language: Option<string>,
                               request: Option<WeatherRequest>)
    ensures SearchCacheKey(query, language) != KeyGenerator.CacheKey(f, request)
  {
    var k := SearchCacheKey(query, language);
    assert k[..|KeyGenerator.Prefix|] == KeyGenerator.Prefix;
    assert KeyGenerator.SegmentMark(k) == 's';
    match request
    case None =>
      assert KeyGenerator.SegmentMark(KeyGenerator.NullKey) == 'n';
    case Some(r) =>
      if KeyGenerator.Readable(r) {
        KeyGenerator.ReadableMark(f, r);
      } else {
        KeyGenerator.HashMark(f, r);
      }
  }

  // ---------------------------------------------------------------- asking the providers

  /**
   * `fetchFromProviders`: the clients' lists one after another; an error ends the merged stream,
   * which resumes empty, so nothing after the first failing client is kept.
   */
  function Fetch(answers: seq<ClientAnswer>): (r: seq<LocationInfo>)
    ensures forall x :: x in r ==> exists i :: 0 <= i < |answers| && answers[i].Found? && x in answers[i].locations
  {
    if answers == [] then []
    else
      match answers[0]
      case Fails => []
      case NoAnswer => Fetch(answers[1..])
      case Found(l) =>
        var rest := Fetch(answers[1..]);
        assert forall x :: x in rest ==> exists i :: 1 <= i < |answers| && answers[i].Found? && x in answers[i].locations;
        l + rest
  }

  /** When no client fails, every client's list is kept, in client order. */
  lemma {:induction false} FetchWithoutFailures(a: seq<ClientAnswer>, b: seq<ClientAnswer>)
    requires forall i :: 0 <= i < |a| ==> !a[i].Fails?
    ensures Fetch(a + b) == Fetch(a) + Fetch(b)
    decreases |a|
  {
    if a != [] {
      assert (a + b)[0] == a[0];
      assert (a + b)[1..] == a[1..] + b;
      FetchWithoutFailures(a[1..], b);
      if a[0].Found? {
        assert Fetch(a + b) == a[0].locations + (Fetch(a[1..]) + Fetch(b));
      }
    } else {
      assert a + b == b;
    }
  }

  /** A failing client discards the answers of every client after it. */
  lemma FetchStopsAtFailure(a: seq<ClientAnswer>, b: seq<ClientAnswer>)
    requires forall i :: 0 <= i < |a| ==> !a[i].Fails?
    ensures Fetch(a + [Fails] + b) == Fetch(a)
  {
    assert a + [Fails] + b == a + ([Fails] + b);
    FetchWithoutFailures(a, [Fails] + b);
  }

  // ---------------------------------------------------------------- distinct and take

  /** The key `distinct` compares: name ":" country. */
  function DedupKey(l: LocationInfo): string {
    l.name + ":" + l.country
  }

  function Keys(s: seq<LocationInfo>): set<string> {
    set x | x in s :: DedupKey(x)
  }

  predicate KeysDistinct(s: seq<LocationInfo>) {
    forall i, j :: 0 <= i < j < |s| ==> DedupKey(s[i]) != DedupKey(s[j])
  }

  /** `distinct(name + ":" + country)`, with `seen` the keys already passed downstream. */
  function Distinct(s: seq<LocationInfo>, seen: set<string>): (r: seq<LocationInfo>)
    ensures KeysDistinct(r)
    ensures forall i :: 0 <= i < |r| ==> DedupKey(r[i]) !in seen
    ensures forall x :: x in r ==> x in s
    ensures Keys(r) == Keys(s) - seen
    decreases |s|
  {
    if s == [] then []
    else
      var k := DedupKey(s[0]);
      if k in seen then
        var r := Distinct(s[1..], seen);
        assert Keys(s) == {k} + Keys(s[1..]);
        r
      else
        var rest := Distinct(s[1..], seen + {k});
        assert Keys(s) == {k} + Keys(s[1..]);
        assert Keys([s[0]] + rest) == {k} + Keys(rest);
        [s[0]] + rest
  }

  /** The first location of each key survives `distinct`. */
  lemma {:induction false} DistinctKeepsFirst(s: seq<LocationInfo>, seen: set<string>, j: nat)
    requires j < |s| && DedupKey(s[j]) !in seen
    requires forall i :: 0 <= i < j ==> DedupKey(s[i]) != DedupKey(s[j])
    ensures s[j] in Distinct(s, seen)
    decreases j
  {
    if j > 0 {
      var k := DedupKey(s[0]);
      var seen' := if k in seen then seen else seen + {k};
      assert s[1..][j - 1] == s[j];
      DistinctKeepsFirst(s[1..], seen', j - 1);
    }
  }

  /** `distinct` works left to right: a later part sees the keys every earlier part passed on. */
  lemma {:induction false} DistinctAppend(a: seq<LocationInfo>, b: seq<LocationInfo>, seen: set<string>)
    ensures Distinct(a + b, seen) == Distinct(a, seen) + Distinct(b, seen + Keys(a))
    decreases |a|
  {
    if a == [] {
      assert a + b == b;
      assert seen + Keys(a) == seen;
    } else {
      var k := DedupKey(a[0]);
      assert (a + b)[0] == a[0];
      assert (a + b)[1..] == a[1..] + b;
      assert a == [a[0]] + a[1..];
      assert Keys(a) == {k} + Keys(a[1..]);
      if k in seen {
        DistinctAppend(a[1..], b, seen);
        assert seen + Keys(a) == seen + Keys(a[1..]);
      } else {
        DistinctAppend(a[1..], b, seen + {k});
        assert seen + {k} + Keys(a[1..]) == seen + Keys(a);
      }
    }
  }

  /** `take(n)`. */
  function Take(s: seq<LocationInfo>, n: nat): (r: seq<LocationInfo>)
    ensures |r| <= n && |r| <= |s| && r == s[..|r|]
    ensures |s| >= n ==> |r| == n
  {
    if n < |s| then s[..n] else s
  }

  // ---------------------------------------------------------------- sorting by name

  /** Ordered by name as `Comparator.comparing(LocationInfo::getName)` orders them. */
  predicate NameOrdered(s: seq<LocationInfo>) {
    forall i, j :: 0 <= i < j < |s| ==> !Text.LexLess(s[j].name, s[i].name)
  }

  /** Inserts `x` before the first location whose name is not smaller. */
  function InsertByName(x: LocationInfo, t: seq<LocationInfo>): (r: seq<LocationInfo>)
    ensures multiset(r) == multiset(t) + multiset{x}
  {
    if t == [] then [x]
    else if !Text.LexLess(t[0].name, x.name) then [x] + t
    else
      assert t == [t[0]] + t[1..];
      [t[0]] + InsertByName(x, t[1..])
  }

  /** The stable sort by name of `cacheResults`. */
  function SortByName(s: seq<LocationInfo>): (r: seq<LocationInfo>)
    ensures multiset(r) == multiset(s)
  {
    if s == [] then []
    else
      assert s == [s[0]] + s[1..];
      InsertByName(s[0], SortByName(s[1..]))
  }

  lemma {:induction false} InsertKeepsOrder(x: LocationInfo, t: seq<LocationInfo>)
    requires NameOrdered(t)
    ensures NameOrdered(InsertByName(x, t))
    decreases |t|
  {
    if t == [] {
    } else if !Text.LexLess(t[0].name, x.name) {
      forall j | 0 <= j < |t| ensures !Text.LexLess(t[j].name, x.name) {
        if j > 0 {
          Text.LexNotLessTransitive(x.name, t[0].name, t[j].name);
        }
      }
    } else {
      InsertKeepsOrder(x, t[1..]);
      var rest := InsertByName(x, t[1..]);
      Text.LexLessAsymmetric(t[0].name, x.name);
      forall e | e in rest ensures !Text.LexLess(e.name, t[0].name) {
        assert e in multiset(rest);
        if e != x {
          assert e in t[1..];
        }
      }
    }
  }

  lemma {:induction false} SortOrders(s: seq<LocationInfo>)
    ensures NameOrdered(SortByName(s))
  {
    if s != [] {
      SortOrders(s[1..]);
      InsertKeepsOrder(s[0], SortByName(s[1..]));
    }
  }

  /** The locations called `n`, in order. */
  function Named(s: seq<LocationInfo>, n: string): seq<LocationInfo> {
    if s == [] then []
    else (if s[0].name == n then [s[0]] else []) + Named(s[1..], n)
  }

  lemma {:induction false} InsertStable(x: LocationInfo, t: seq<LocationInfo>, n: string)
    requires NameOrdered(t)
    ensures Named(InsertByName(x, t), n) == (if x.name == n then [x] else []) + Named(t, n)
    decreases |t|
  {
    if t == [] {
    } else if !Text.LexLess(t[0].name, x.name) {
      assert ([x] + t)[1..] == t;
    } else {
      assert NameOrdered(t[1..]);
      InsertStable(x, t[1..], n);
      if x.name == n && t[0].name == n {
        Text.LexLessIrreflexive(n);
      }
    }
  }

  /** The sort is stable: locations of one name keep their relative order. */
  lemma {:induction false} SortStable(s: seq<LocationInfo>, n: string)
    ensures Named(SortByName(s), n) == Named(s, n)
  {
    if s != [] {
      SortStable(s[1..], n);
      SortOrders(s[1..]);
      InsertStable(s[0], SortByName(s[1..]), n);
    }
  }

  /** `distinct` keeps a name-ordered list ordered. */
  lemma {:induction false} DistinctKeepsOrder(s: seq<LocationInfo>, seen: set<string>)
    requires NameOrdered(s)
    ensures NameOrdered(Distinct(s, seen))
    decreases |s|
  {
    if s != [] {
      var k := DedupKey(s[0]);
      if k in seen {
        DistinctKeepsOrder(s[1..], seen);
      } else {
        DistinctKeepsOrder(s[1..], seen + {k});
        var rest := Distinct(s[1..], seen + {k});
        forall e | e in rest ensures !Text.LexLess(e.name, s[0].name) {
          assert e in s[1..];
        }
      }
    }
  }

  // ---------------------------------------------------------------- the search

  /** What a search did: the outcome, the new store, and whether the clients were asked. */
  datatype SearchRun = SearchRun(result: Result<seq<LocationInfo>, SearchError>,
                                 store: map<string, seq<LocationInfo>>, clientsCalled: bool)

  /** The effective limit: the request's, or 5. */
  function LimitOf(request: LocationSearchRequest): int {
    request.limit.GetOr(DefaultLimit)
  }

  /** What the caller sees of a list: distinct by name and country, cut to the limit. */
  function Present(s: seq<LocationInfo>, limit: nat): seq<LocationInfo> {
    Take(Distinct(s, {}), limit)
  }

  /**
   * `searchLocations` given the read's outcome, every client's answer and the write's outcome.
   * A zero limit cancels the pipeline before any call.
   */
  function Search(store: map<string, seq<LocationInfo>>, request: LocationSearchRequest,
                  answers: seq<ClientAnswer>, read: StoreCall, write: SetReply): (run: SearchRun)
    ensures request.query.None? <==> run.result == Failure(NullQuery)
    ensures run.clientsCalled ==> request.query.Some? && read.Answers?
    ensures run.result.Failure? ==> run.store == store
    ensures run.store != store ==> run.clientsCalled && write == SetTrue
  {
    if request.query.None? then SearchRun(Failure(NullQuery), store, false)
    else if LimitOf(request) < 0 then SearchRun(Failure(NegativeLimit), store, false)
    else if LimitOf(request) == 0 then SearchRun(Success([]), store, false)
    else if read.Raises? then SearchRun(Failure(StoreFailed), store, false)
    else
      var key := SearchCacheKey(request.query.value, request.language);
      var limit := LimitOf(request);
      if key in store && store[key] != [] then SearchRun(Success(Present(store[key], limit)), store, false)
      else
        var fetched := Fetch(answers);
        if fetched == [] then SearchRun(Success([]), store, true)
        else
          match write
          case SetTrue => SearchRun(Success(Present(fetched, limit)), store[key := SortByName(fetched)], true)
          case SetFalse => SearchRun(Success(Present(fetched, limit)), store, true)
          case SetRaises => SearchRun(Failure(StoreFailed), store, true)
  }

  class LocationSearchService {
    var store: map<string, seq<LocationInfo>>

    constructor()
      ensures store == map[]
    {
      store := map[];
    }

    /** `searchLocations`. */
    method SearchLocations(request: LocationSearchRequest, answers: seq<ClientAnswer>,
                           read: StoreCall, write: SetReply)
      returns (result: Result<seq<LocationInfo>, SearchError>, clientsCalled: bool)
      modifies this
      ensures SearchRun(result, store, clientsCalled) == Search(old(store), request, answers, read, write)
    {
      clientsCalled := false;
      if request.query.None? {
        return Failure(NullQuery), false;
      }
      var key := SearchCacheKey(request.query.value, request.language);
      var limit := LimitOf(request);
      if limit < 0 {
        return Failure(NegativeLimit), false;
      }
      if limit == 0 {
        return Success([]), false;
      }
      if read.Raises? {
        return Failure(StoreFailed), false;
      }
      if key in store && store[key] != [] {
        return Success(Present(store[key], limit)), false;
      }
      clientsCalled := true;
      var fetched := Fetch(answers);
      if fetched == [] {
        return Success([]), true;
      }
      match write
      case SetTrue =>
        store := store[key := SortByName(fetched)];
        result := Success(Present(fetched, limit));
      case SetFalse =>
        result := Success(Present(fetched, limit));
      case SetRaises =>
        result := Failure(StoreFailed);
    }
  }

  // ---------------------------------------------------------------- properties of a search

  /** The three ways a search fails, and nothing else. */
  lemma SearchFailures(store: map<string, seq<LocationInfo>>, request: LocationSearchRequest,
                       answers: seq<ClientAnswer>, read: StoreCall, write: SetReply)
    ensures var run := Search(store, request, answers, read, write);
      && (run.result == Failure(NullQuery) <==> request.query.None?)
      && (run.result == Failure(NegativeLimit) <==> request.query.Some? && LimitOf(request) < 0)
      && (run.result == Failure(StoreFailed) <==>
            && request.query.Some? && LimitOf(request) > 0
            && (|| read.Raises?
                || (var key := SearchCacheKey(request.query.value, request.language);
                    (key !in store || store[key] == []) && Fetch(answers) != [] && write.SetRaises?)))
  {
  }

  /** A successful search returns at most `limit` locations, distinct by name and country. */
  lemma SearchBounded(store: map<string, seq<LocationInfo>>, request: LocationSearchRequest,
                      answers: seq<ClientAnswer>, read: StoreCall, write: SetReply)
    ensures var run := Search(store, request, answers, read, write);
      run.result.Success? ==> |run.result.value| <= LimitOf(request) && KeysDistinct(run.result.value)
  {
  }

  /** A non-empty cached list answers the search without asking any client and without writing. */
  lemma CachedSearchSkipsClients(store: map<string, seq<LocationInfo>>, request: LocationSearchRequest,
                                 answers: seq<ClientAnswer>, write: SetReply)
    requires request.query.Some? && LimitOf(request) > 0
    requires var key := SearchCacheKey(request.query.value, request.language);
      key in store && store[key] != []
    ensures var run := Search(store, request, answers, Answers, write);
      && run.result == Success(Present(store[SearchCacheKey(request.query.value, request.language)], LimitOf(request)))
      && !run.clientsCalled && run.store == store
  {
  }

  /** A search writes at most its own key, and only the sorted answers of the clients. */
  lemma SearchWritesOnlyItsKey(store: map<string, seq<LocationInfo>>, request: LocationSearchRequest,
                               answers: seq<ClientAnswer>, read: StoreCall, write: SetReply)
    ensures var run := Search(store, request, answers, read, write);
      || run.store == store
      || (&& request.query.Some?
          && run.store == store[SearchCacheKey(request.query.value, request.language) := SortByName(Fetch(answers))]
          && Fetch(answers) != [] && write.SetTrue?)
  {
  }

  /** An empty answer from the clients is not cached, so the next search asks them again. */
  lemma EmptyAnswerNotCached(store: map<string, seq<LocationInfo>>, request: LocationSearchRequest,
                             answers: seq<ClientAnswer>, write: SetReply)
    requires request.query.Some? && LimitOf(request) > 0
    requires SearchCacheKey(request.query.value, request.language) !in store
    requires Fetch(answers) == []
    ensures var run := Search(store, request, answers, Answers, write);
      run.result == Success([]) && run.store == store && run.clientsCalled
  {
  }

  /**
   * On a miss the caller gets the clients' answers in the order they came, not the sorted order
   * that is written to the cache.
   */
  lemma MissServesFetchOrder(store: map<string, seq<LocationInfo>>, request: LocationSearchRequest,
                             answers: seq<ClientAnswer>, write: SetReply)
    requires request.query.Some? && LimitOf(request) > 0
    requires SearchCacheKey(request.query.value, request.language) !in store
    requires write != SetRaises
    ensures Search(store, request, answers, Answers, write).result == Success(Present(Fetch(answers), LimitOf(request)))
  {
  }

  /**
   * After a first search whose answers were cached, repeating it is served from the cache, in
   * name order, with the same set of name and country keys as the first answer had before the cut.
   */
  lemma RepeatSearchServedSorted(store: map<string, seq<LocationInfo>>, request: LocationSearchRequest,
                                 answers: seq<ClientAnswer>, again: seq<ClientAnswer>, write: SetReply)
    requires request.query.Some? && LimitOf(request) > 0
    requires SearchCacheKey(request.query.value, request.language) !in store
    requires Fetch(answers) != []
    ensures var first := Search(store, request, answers, Answers, SetTrue);
      var second := Search(first.store, request, again, Answers, write);
      && first.result.Success? && first.clientsCalled
      && second.result.Success? && !second.clientsCalled && second.store == first.store
      && NameOrdered(second.result.value)
      && Keys(Distinct(SortByName(Fetch(answers)), {})) == Keys(Fetch(answers))
  {
    var fetched := Fetch(answers);
    var sorted := SortByName(fetched);
    SortOrders(fetched);
    DistinctKeepsOrder(sorted, {});
    assert sorted != [] by {
      assert multiset(sorted) == multiset(fetched);
      assert fetched[0] in multiset(sorted);
    }
    assert Keys(sorted) == Keys(fetched) by {
      forall x | x in fetched ensures x in sorted {
        assert x in multiset(fetched);
      }
      forall x | x in sorted ensures x in fetched {
        assert x in multiset(sorted);
      }
    }
  }
}

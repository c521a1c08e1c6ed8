/**
  Answers fetched from outside: which addresses the policy lets through, how an
  answer is kept, and what a kept answer may still be used for.
*/
module AnswerCache {
  import opened CellAddress

  const FAILURE_CACHE_FOR := 30
  const MAX_CACHE_ENTRIES := 512

  // -------- the allow-list --------

  predicate IsSpace(c: char) { c == ' ' || c == '\t' || c == '\n' || c == '\r' }

  function TrimLeft(s: string): string {
    if s != "" && IsSpace(s[0]) then TrimLeft(s[1..]) else s
  }

  function TrimRight(s: string): string {
    if s != "" && IsSpace(s[|s| - 1]) then TrimRight(s[..|s| - 1]) else s
  }

  function Trim(s: string): string { TrimRight(TrimLeft(s)) }

  function LowerChar(c: char): char {
    if 'A' <= c <= 'Z' then c + 32 as char else c
  }

  function Lower(s: string): (r: string)
    ensures |r| == |s|
  {
    seq(|s|, i requires 0 <= i < |s| => LowerChar(s[i]))
  }

  predicate HasPrefix(s: string, prefix: string) { prefix <= s }

  predicate HasSuffix(s: string, suffix: string) {
    |suffix| <= |s| && s[|s| - |suffix|..] == suffix
  }

  function CleanHost(host: string): string {
    var trimmed := Trim(host);
    Lower(if HasSuffix(trimmed, ".") then trimmed[..|trimmed| - 1] else trimmed)
  }

  // `entry` names exactly `host`, or names a domain that `host` lies below.
  ghost predicate Names(entry: string, host: string) {
    || (!HasPrefix(entry, "*.") && entry == host)
    || (HasPrefix(entry, "*.") && exists below: string :: host == below + "." + entry[2..])
  }

  ghost predicate Listed(host: string, allowed: seq<string>) {
    CleanHost(host) != "" && exists i :: 0 <= i < |allowed| && Names(Lower(Trim(allowed[i])), CleanHost(host))
  }

  method HostAllowed(host: string, allowed: seq<string>) returns (ok: bool)
    ensures ok <==> Listed(host, allowed)
  {
    var clean := CleanHost(host);
    if clean == "" { return false; }
    for i := 0 to |allowed|
      invariant forall j :: 0 <= j < i ==> !Names(Lower(Trim(allowed[j])), clean)
    {
      var entry := Lower(Trim(allowed[i]));
      if HasPrefix(entry, "*.") {
        NamesBelow(entry, clean);
        if HasSuffix(clean, entry[1..]) && clean != entry[2..] { return true; }
      } else if entry != "" && clean == entry {
        return true;
      }
    }
    ok := false;
  }

  // The suffix test finds exactly the hosts below the domain; the second test of
  // the loop never changes the outcome.
  lemma NamesBelow(entry: string, host: string)
    requires HasPrefix(entry, "*.")
    ensures Names(entry, host) <==> HasSuffix(host, entry[1..])
    ensures Names(entry, host) ==> host != entry[2..]
  {
    assert entry[1..] == "." + entry[2..];
    if HasSuffix(host, entry[1..]) {
      var below := host[..|host| - |entry| + 1];
      assert host == below + entry[1..];
      assert host == below + "." + entry[2..];
    }
    if below: string :| host == below + "." + entry[2..] {
      assert host[|host| - |entry[1..]|..] == entry[1..];
    }
  }

  // -------- requests and their keys --------

  datatype Function = WebService | ImportData

  datatype Request = Request(function_: Function, url: string)

  datatype Config = Config(allowed: seq<string>, timeout: nat, maxBytes: nat, cacheFor: nat)

  // What the address text comes apart into; how is left to the URL reader.
  datatype Address = Address(scheme: string, host: string, hasUser: bool)

  type Reader = string -> Option<Address>

  ghost predicate Permitted(read: Reader, url: string, allowed: seq<string>) {
    var address := read(Trim(url));
    && address.Some? && address.value.host != "" && address.value.scheme == "https" && !address.value.hasUser
    && Listed(address.value.host, allowed)
  }

  method CheckURL(read: Reader, url: string, allowed: seq<string>) returns (ok: bool)
    ensures ok <==> Permitted(read, url, allowed)
  {
    var address := read(Trim(url));
    if address.None? || address.value.host == "" { return false; }
    if address.value.scheme != "https" || address.value.hasUser { return false; }
    ok := HostAllowed(address.value.host, allowed);
  }

  function Name(f: Function): string {
    if f.WebService? then "WEBSERVICE" else "IMPORTDATA"
  }

  function CacheKey(config: Config, request: Request): string {
    RowDigits(config.maxBytes) + "\0" + RowDigits(config.timeout) + "\0" + Name(request.function_) + "\0" + Trim(request.url)
  }

  // What decides a fetch: the request and the parts of the policy that shape it.
  datatype Asked = Asked(maxBytes: nat, timeout: nat, function_: Function, url: string)

  function AskedFor(config: Config, request: Request): Asked {
    Asked(config.maxBytes, config.timeout, request.function_, Trim(request.url))
  }

  predicate NoZero(s: string) { forall i :: 0 <= i < |s| ==> s[i] != '\0' }

  lemma FirstZero(a: string, b: string, a': string, b': string)
    requires NoZero(a) && NoZero(a') && a + "\0" + b == a' + "\0" + b'
    ensures a == a' && b == b'
  {
    var s := a + "\0" + b;
    assert s[|a|] == '\0' && forall i :: 0 <= i < |a| ==> s[i] == a[i];
    assert s[|a'|] == '\0' && forall i :: 0 <= i < |a'| ==> s[i] == a'[i];
    assert |a| == |a'|;
    assert s[..|a|] == a && s[..|a'|] == a' && s[|a| + 1..] == b && s[|a'| + 1..] == b';
  }

  lemma KeyParts(config: Config, request: Request)
    ensures var m, t, n := RowDigits(config.maxBytes), RowDigits(config.timeout), Name(request.function_);
            && CacheKey(config, request) == m + "\0" + (t + "\0" + (n + "\0" + Trim(request.url)))
            && NoZero(m) && NoZero(t) && NoZero(n)
  {
    hide RowDigits, Trim;
    var m, t, n, u := RowDigits(config.maxBytes), RowDigits(config.timeout), Name(request.function_), Trim(request.url);
    assert m + "\0" + t + "\0" + n + "\0" + u == m + "\0" + (t + "\0" + (n + "\0" + u));
  }

  // Two requests share an entry only when size limit, timeout, function and
  // address all agree.
  lemma KeyNamesAll(config: Config, request: Request, config': Config, request': Request)
    ensures CacheKey(config, request) == CacheKey(config', request')
       <==> AskedFor(config, request) == AskedFor(config', request')
  {
    hide RowDigits, Trim, Name, RowNumber, CacheKey, NoZero;
    if CacheKey(config, request) == CacheKey(config', request') {
      KeyParts(config, request);
      KeyParts(config', request');
      var m, m' := RowDigits(config.maxBytes), RowDigits(config'.maxBytes);
      var t, t' := RowDigits(config.timeout), RowDigits(config'.timeout);
      var n, n' := Name(request.function_), Name(request'.function_);
      var u, u' := Trim(request.url), Trim(request'.url);
      FirstZero(m, t + "\0" + (n + "\0" + u), m', t' + "\0" + (n' + "\0" + u'));
      FirstZero(t, n + "\0" + u, t', n' + "\0" + u');
      FirstZero(n, u, n', u');
      assert RowNumber(m) == RowNumber(m') && RowNumber(t) == RowNumber(t');
      NameTells(request.function_, request'.function_);
    } else if AskedFor(config, request) == AskedFor(config', request') {
      KeyParts(config, request);
      KeyParts(config', request');
    }
  }

  lemma NameTells(f: Function, g: Function)
    requires Name(f) == Name(g)
    ensures f == g
  {
    assert Name(f)[0] == Name(g)[0];
  }

  // -------- the cache --------

  // `remote` marks a failure the far side is answerable for.
  datatype Answer = Answer(text: string, failed: bool, remote: bool)

  datatype Entry = Entry(result: Answer, expires: nat)

  type Cache = map<string, Entry>

  function KeepFor(cacheFor: nat, answer: Answer): (seconds: nat)
    ensures seconds <= cacheFor && (answer.failed && answer.remote ==> seconds <= FAILURE_CACHE_FOR)
  {
    if answer.failed && answer.remote && cacheFor > FAILURE_CACHE_FOR then FAILURE_CACHE_FOR else cacheFor
  }

  function Live(cache: Cache, now: nat): Cache {
    map key | key in cache && now < cache[key].expires :: cache[key]
  }

  // Making room: expired entries go first, then one that expires soonest.
  ghost predicate RoomMade(cache: Cache, now: nat, kept: Cache) {
    var live := Live(cache, now);
    if |live| < MAX_CACHE_ENTRIES then kept == live
    else exists victim :: victim in live && kept == live - {victim}
                          && forall key :: key in live ==> live[victim].expires <= live[key].expires
  }

  ghost predicate Stored(cache: Cache, key: string, entry: Entry, now: nat, cache': Cache) {
    if key in cache || |cache| < MAX_CACHE_ENTRIES then cache' == cache[key := entry]
    else exists kept :: RoomMade(cache, now, kept) && cache' == kept[key := entry]
  }

  // No live entry is lost except one, and that one only from a full cache of
  // live entries, none of which expires sooner.
  lemma EvictionIsFair(cache: Cache, key: string, entry: Entry, now: nat, cache': Cache, lost: string)
    requires |cache| <= MAX_CACHE_ENTRIES && Stored(cache, key, entry, now, cache')
    requires lost in cache && lost !in cache' && now < cache[lost].expires
    ensures |cache| == MAX_CACHE_ENTRIES && key !in cache
    ensures forall other :: other in cache ==> now < cache[other].expires && cache[lost].expires <= cache[other].expires
    ensures cache'.Keys == cache.Keys - {lost} + {key}
  {
    var kept :| RoomMade(cache, now, kept) && cache' == kept[key := entry];
    var live := Live(cache, now);
    assert lost in live && lost !in kept;
    assert live.Keys <= cache.Keys;
    SameSize(live.Keys, cache.Keys);
    assert live == cache;
  }

  lemma SameSize<T>(a: set<T>, b: set<T>)
    requires a <= b && |a| >= |b|
    ensures a == b
  {
    if x :| x in b && x !in a {
      Smaller(a, b - {x});
    }
  }

  lemma {:induction false} Smaller<T>(a: set<T>, b: set<T>)
    requires a <= b
    ensures |a| <= |b|
  {
    if x :| x in a { Smaller(a - {x}, b - {x}); }
  }

  lemma StoredFits(cache: Cache, key: string, entry: Entry, now: nat, cache': Cache)
    requires |cache| <= MAX_CACHE_ENTRIES && Stored(cache, key, entry, now, cache')
    ensures |cache'| <= MAX_CACHE_ENTRIES && key in cache' && cache'[key] == entry
    ensures forall other :: other in cache' && other != key ==> other in cache && cache'[other] == cache[other]
  {
    hide RoomMade;
    if key in cache {
      assert cache'.Keys == cache.Keys;
    } else if |cache| < MAX_CACHE_ENTRIES {
      assert cache'.Keys == cache.Keys + {key};
    } else {
      var kept :| RoomMade(cache, now, kept) && cache' == kept[key := entry];
      RoomFits(cache, now, kept);
      assert cache'.Keys == kept.Keys + {key};
    }
  }

  lemma RoomFits(cache: Cache, now: nat, kept: Cache)
    requires |cache| <= MAX_CACHE_ENTRIES && RoomMade(cache, now, kept)
    ensures |kept| < MAX_CACHE_ENTRIES && forall key :: key in kept ==> key in cache && kept[key] == cache[key]
  {
    var live := Live(cache, now);
    assert live.Keys <= cache.Keys;
    Smaller(live.Keys, cache.Keys);
    if |live| >= MAX_CACHE_ENTRIES {
      var victim :| victim in live && kept == live - {victim};
      assert kept.Keys == live.Keys - {victim};
    }
  }

  // -------- every interleaving of callers --------

  // What an uncached fetch would have answered at each moment.
  type World = (Asked, nat) -> Answer

  // How an entry came about: fetched at `fetched`, its expiry set at `kept`,
  // under a policy that keeps answers for `cacheFor`.
  datatype Origin = Origin(asked: Asked, fetched: nat, kept: nat, cacheFor: nat)

  datatype State = State(now: nat, cache: Cache, origins: map<string, Origin>)

  // Time passes, or a caller that missed earlier, under whatever policy it read
  // then, keeps the answer it fetched meanwhile.
  datatype Event =
    | Tick(later: nat)
    | Keep(config: Config, request: Request, fetched: nat, kept: nat, cache: Cache)

  ghost predicate Enabled(world: World, s: State, e: Event) {
    match e
    case Tick(_) => true
    case Keep(config, request, fetched, kept, cache) =>
      var asked := AskedFor(config, request);
      var answer := world(asked, fetched);
      && fetched <= kept <= s.now && KeepFor(config.cacheFor, answer) > 0
      && Stored(s.cache, CacheKey(config, request), Entry(answer, kept + KeepFor(config.cacheFor, answer)), s.now, cache)
  }

  function After(s: State, e: Event): State {
    match e
    case Tick(later) => s.(now := s.now + later)
    case Keep(config, request, fetched, kept, cache) =>
      s.(cache := cache,
      origins := s.origins[CacheKey(config, request) := Origin(AskedFor(config, request), fetched, kept, config.cacheFor)])
  }

  ghost predicate Run(world: World, s: State, events: seq<Event>, t: State)
    decreases |events|
  {
    if events == [] then s == t
    else Enabled(world, s, events[0]) && Run(world, After(s, events[0]), events[1..], t)
  }

  // Every entry is what the far side said when it was asked, kept for no longer
  // than the policy then in force allowed.
  ghost predicate Genuine(world: World, key: string, entry: Entry, origin: Origin, now: nat) {
    && (exists config, request :: key == CacheKey(config, request) && origin.asked == AskedFor(config, request))
    && origin.fetched <= origin.kept <= now
    && entry.result == world(origin.asked, origin.fetched)
    && entry.expires == origin.kept + KeepFor(origin.cacheFor, entry.result)
  }

  ghost predicate Sound(world: World, s: State) {
    && |s.cache| <= MAX_CACHE_ENTRIES
    && forall key :: key in s.cache ==> key in s.origins && Genuine(world, key, s.cache[key], s.origins[key], s.now)
  }

  lemma StepKeepsSound(world: World, s: State, e: Event)
    requires Sound(world, s) && Enabled(world, s, e)
    ensures Sound(world, After(s, e))
  {
    hide Stored, KeepFor, CacheKey, AskedFor;
    var t := After(s, e);
    if e.Keep? {
      var key, asked := CacheKey(e.config, e.request), AskedFor(e.config, e.request);
      var answer := world(asked, e.fetched);
      StoredFits(s.cache, key, Entry(answer, e.kept + KeepFor(e.config.cacheFor, answer)), s.now, e.cache);
      forall k | k in t.cache ensures k in t.origins && Genuine(world, k, t.cache[k], t.origins[k], t.now) {
        if k != key { assert Genuine(world, k, s.cache[k], s.origins[k], s.now); }
      }
    } else {
      forall k | k in t.cache ensures Genuine(world, k, t.cache[k], t.origins[k], t.now) {
        assert Genuine(world, k, s.cache[k], s.origins[k], s.now);
      }
    }
  }

  lemma {:induction false} RunKeepsSound(world: World, s: State, events: seq<Event>, t: State)
    requires Sound(world, s) && Run(world, s, events, t)
    ensures Sound(world, t)
    decreases |events|
  {
    if events != [] {
      StepKeepsSound(world, s, events[0]);
      RunKeepsSound(world, After(s, events[0]), events[1..], t);
    }
  }

  datatype Found = Miss | Hit(result: Answer)

  function Lookup(cache: Cache, key: string, now: nat): Found {
    if key in cache && now < cache[key].expires then Hit(cache[key].result) else Miss
  }

  // Whatever came before, an answer handed out from the cache is the one that
  // asking with this very size limit and timeout gave at a moment `origin`
  // records, and it is younger than what was then in force allowed.
  lemma HitIsRecent(world: World, events: seq<Event>, t: State, config: Config, request: Request)
    requires Run(world, State(0, map[], map[]), events, t)
    requires Lookup(t.cache, CacheKey(config, request), t.now).Hit?
    ensures CacheKey(config, request) in t.origins
    ensures var origin := t.origins[CacheKey(config, request)];
            var result := Lookup(t.cache, CacheKey(config, request), t.now).result;
            && |t.cache| <= MAX_CACHE_ENTRIES
            && origin.fetched <= origin.kept <= t.now
            && result == world(AskedFor(config, request), origin.fetched)
            && t.now - origin.kept < origin.cacheFor
            && (result.failed && result.remote ==> t.now - origin.kept < FAILURE_CACHE_FOR)
  {
    RunKeepsSound(world, State(0, map[], map[]), events, t);
    var key := CacheKey(config, request);
    var origin := t.origins[key];
    assert Genuine(world, key, t.cache[key], origin, t.now);
    var config', request' :| key == CacheKey(config', request') && origin.asked == AskedFor(config', request');
    KeyNamesAll(config, request, config', request');
  }

  // So caching cannot be told from fetching while the far side stays the same
  // from the fetch on.
  lemma CachedAgreesWithFetched(world: World, events: seq<Event>, t: State, config: Config, request: Request)
    requires Run(world, State(0, map[], map[]), events, t)
    requires Lookup(t.cache, CacheKey(config, request), t.now).Hit?
    requires CacheKey(config, request) in t.origins ==>
               forall when: nat :: t.origins[CacheKey(config, request)].fetched <= when <= t.now
                                   ==> world(AskedFor(config, request), when) == world(AskedFor(config, request), t.now)
    ensures Lookup(t.cache, CacheKey(config, request), t.now).result == world(AskedFor(config, request), t.now)
  {
    HitIsRecent(world, events, t, config, request);
  }

  // -------- the fetcher --------

  datatype Reply = Refused | Replied(answer: Answer)

  class Fetcher {
    var cache: Cache

    // Expiry times are moments after the zero time.
    ghost predicate Valid()
      reads this
    {
      |cache| <= MAX_CACHE_ENTRIES && forall k :: k in cache ==> cache[k].expires > 0
    }

    constructor ()
      ensures Valid() && cache == map[]
    {
      cache := map[];
    }

    // Keep one answer, taking out the rubbish when the map is full.
    method Store(key: string, entry: Entry, now: nat)
      requires Valid() && entry.expires > 0
      modifies this
      ensures Valid() && Stored(old(cache), key, entry, now, cache)
    {
      hide RoomMade;
      if key !in cache && |cache| >= MAX_CACHE_ENTRIES { MakeRoom(now); }
      cache := cache[key := entry];
      StoredFits(old(cache), key, entry, now, cache);
    }

    method MakeRoom(now: nat)
      requires Valid()
      modifies this
      ensures RoomMade(old(cache), now, cache)
    {
      DropExpired(now);
      if |cache| >= MAX_CACHE_ENTRIES {
        var oldest := Soonest();
        cache := cache - {oldest};
      }
    }

    method DropExpired(now: nat)
      modifies this
      ensures cache == Live(old(cache), now)
    {
      var rest := cache.Keys;
      while rest != {}
        invariant rest <= old(cache).Keys
        invariant forall k :: k in rest ==> k in cache
        invariant forall k :: k in cache ==> k in old(cache) && cache[k] == old(cache)[k]
        invariant forall k :: k in old(cache) && k !in rest ==> (k in cache <==> now < old(cache)[k].expires)
        decreases |rest|
      {
        var key :| key in rest;
        rest := rest - {key};
        if now >= cache[key].expires { cache := cache - {key}; }
      }
    }

    // The zero time stands for "none seen yet", as no entry expires then.
    method Soonest() returns (oldest: string)
      requires cache != map[] && forall k :: k in cache ==> cache[k].expires > 0
      ensures oldest in cache && forall k :: k in cache ==> cache[oldest].expires <= cache[k].expires
    {
      oldest := "";
      var oldestAt := 0;
      var rest := cache.Keys;
      while rest != {}
        invariant rest <= cache.Keys
        invariant oldestAt == 0 <==> rest == cache.Keys
        invariant oldestAt != 0 ==> oldest in cache && cache[oldest].expires == oldestAt
        invariant forall k :: k in cache && k !in rest ==> oldestAt <= cache[k].expires
        decreases |rest|
      {
        var key :| key in rest;
        if oldestAt == 0 || cache[key].expires < oldestAt {
          oldest, oldestAt := key, cache[key].expires;
        }
        rest := rest - {key};
      }
    }

    // One request: the policy, then the cache, then the far side.  The clock is
    // read when looking, when setting the expiry and when making room.
    method One(read: Reader, config: Config, request: Request, world: World, looked: nat, fetched: nat, kept: nat, now: nat)
      returns (reply: Reply)
      requires looked <= fetched <= kept <= now
      requires Valid()
      modifies this
      ensures Valid()
      ensures reply.Refused? <==> !Permitted(read, request.url, config.allowed)
      ensures reply.Refused? ==> cache == old(cache)
      ensures reply.Replied? ==>
                match Lookup(old(cache), CacheKey(config, request), looked)
                case Hit(result) => reply.answer == result && cache == old(cache)
                case Miss =>
                  && reply.answer == world(AskedFor(config, request), fetched)
                  && var keepFor := KeepFor(config.cacheFor, reply.answer);
                  if keepFor == 0 then cache == old(cache)
                  else Stored(old(cache), CacheKey(config, request), Entry(reply.answer, kept + keepFor), now, cache)
    {
      hide Permitted, Stored, CacheKey, AskedFor;
      var ok := CheckURL(read, request.url, config.allowed);
      if !ok { return Refused; }
      var key := CacheKey(config, request);
      var found := Lookup(cache, key, looked);
      if found.Hit? { return Replied(found.result); }
      var answer := world(AskedFor(config, request), fetched);
      var keepFor := KeepFor(config.cacheFor, answer);
      if keepFor > 0 { Store(key, Entry(answer, kept + keepFor), now); }
      reply := Replied(answer);
    }
  }
}

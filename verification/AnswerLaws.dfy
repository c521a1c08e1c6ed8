/**
  Hosts in writing, and asking for the same answer twice.
*/
module AnswerLaws {
  import opened CellAddress
  import opened AnswerCache

  // -------- hosts --------

  predicate Spaces(s: string) { forall i :: 0 <= i < |s| ==> s[i] == ' ' || s[i] == '\t' || s[i] == '\n' || s[i] == '\r' }

  predicate Bare(s: string) { s != "" ==> !IsSpace(s[0]) && !IsSpace(s[|s| - 1]) }

  lemma {:induction false} TrimLeftIs(left: string, s: string)
    requires Spaces(left) && (s == "" || !IsSpace(s[0]))
    ensures TrimLeft(left + s) == s
  {
    if left == "" {
      assert left + s == s;
    } else {
      assert (left + s)[1..] == left[1..] + s;
      TrimLeftIs(left[1..], s);
    }
  }

  lemma {:induction false} TrimRightIs(s: string, right: string)
    requires Spaces(right) && (s == "" || !IsSpace(s[|s| - 1]))
    ensures TrimRight(s + right) == s
    decreases |right|
  {
    if right == "" {
      assert s + right == s;
    } else {
      var all := s + right;
      assert all[..|all| - 1] == s + right[..|right| - 1] && all[|all| - 1] == right[|right| - 1];
      TrimRightIs(s, right[..|right| - 1]);
    }
  }

  // Space around a text is taken away and nothing else.
  lemma TrimIs(left: string, s: string, right: string)
    requires Spaces(left) && Spaces(right) && Bare(s)
    ensures Trim(left + s + right) == s
  {
    if s == "" {
      assert left + s + right == left + right == (left + right) + "";
      TrimLeftIs(left + right, "");
    } else {
      assert left + s + right == left + (s + right);
      TrimLeftIs(left, s + right);
      TrimRightIs(s, right);
    }
  }

  lemma LowerAt(s: string, i: nat)
    requires i < |s|
    ensures Lower(s)[i] == if 'A' <= s[i] <= 'Z' then (s[i] as int - 'A' as int + 'a' as int) as char else s[i]
  {
  }

  // A host is compared without its case, the space around it and one final dot.
  lemma CleanHostIs(left: string, host: string, right: string, dotted: bool)
    requires Spaces(left) && Spaces(right) && Bare(host) && (host == "" || host[|host| - 1] != '.')
    ensures CleanHost(left + (host + if dotted then "." else "") + right) == Lower(host)
  {
    var full := host + if dotted then "." else "";
    assert Bare(full) by { if dotted { assert full[|full| - 1] == '.'; if host != "" { assert full[0] == host[0]; } } else { assert full == host; } }
    TrimIs(left, full, right);
    if dotted { assert full[|full| - 1..] == "." && full[..|full| - 1] == host; } else { assert full == host; }
  }

  // -------- how long an answer is kept --------

  // Failures of the far side for thirty seconds at most, everything else for as long
  // as the policy says.
  lemma KeptFor(cacheFor: nat, answer: Answer)
    ensures answer.failed && answer.remote && cacheFor > 30 ==> KeepFor(cacheFor, answer) == 30
    ensures !(answer.failed && answer.remote && cacheFor > 30) ==> KeepFor(cacheFor, answer) == cacheFor
  {
  }

  // The moments at which one request reads the clock.
  datatype Times = Times(looked: nat, fetched: nat, kept: nat, now: nat)
  {
    predicate InOrder() { looked <= fetched <= kept <= now }
  }

  // The same request twice: within the time the answer is kept the second is answered
  // from the cache, and afterwards, or when nothing is kept, it is fetched again.
  method AskTwice(read: Reader, config: Config, request: Request, world: World, a: Times, b: Times) returns (first: Reply, second: Reply)
    requires a.InOrder() && b.InOrder() && a.now <= b.looked && Permitted(read, request.url, config.allowed)
    ensures first == Replied(world(AskedFor(config, request), a.fetched))
    ensures var answer := world(AskedFor(config, request), a.fetched);
            var seconds := if answer.failed && answer.remote && config.cacheFor > 30 then 30 else config.cacheFor;
            second == if b.looked < a.kept + seconds then first else Replied(world(AskedFor(config, request), b.fetched))
  {
    hide Permitted, Stored, CacheKey, AskedFor, KeepFor;
    var fetcher := new Fetcher();
    first := fetcher.One(read, config, request, world, a.looked, a.fetched, a.kept, a.now);
    var answer := world(AskedFor(config, request), a.fetched);
    KeptFor(config.cacheFor, answer);
    if KeepFor(config.cacheFor, answer) > 0 {
      StoredFits(map[], CacheKey(config, request), Entry(answer, a.kept + KeepFor(config.cacheFor, answer)), a.now, fetcher.cache);
    }
    second := fetcher.One(read, config, request, world, b.looked, b.fetched, b.kept, b.now);
  }
}

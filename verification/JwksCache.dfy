/**
 The time-limited cache of a platform's signing keys. A caller reads the cache under the read lock,
 fetches without any lock when what it read is not live, and stores under the write lock, so callers
 interleave freely.
 */
module JwksCache {
  import opened Wrappers
  import opened Assessment

  const LIFETIME: int := 15 * 60 * SECOND
  const MAX_KEYS := 100

  datatype Jwk = Jwk(kty: string, kid: string, use: string, alg: string, n: string, e: string)

  // What decoding a modulus and an exponent yields; None when they are not acceptable.
  type Decoder<!Key> = (string, string) -> Option<Key>

  datatype Cached<Key> = Cached(keys: map<string, Key>, expiresAt: int)

  datatype Failure = KeyNotFound | FetchFailed | TooManyKeys

  // ---- which keys of a set count ----

  predicate Usable<Key>(decode: Decoder<Key>, jwk: Jwk) {
    && jwk.kty == "RSA" && jwk.kid != "" && (jwk.alg == "" || jwk.alg == "RS256") && (jwk.use == "" || jwk.use == "sig")
    && decode(jwk.n, jwk.e).Some?
  }

  // Later keys replace earlier ones of the same name.
  function KeysOf<Key>(decode: Decoder<Key>, jwks: seq<Jwk>): map<string, Key> {
    if jwks == [] then map[]
    else
      var last := jwks[|jwks| - 1];
      var before := KeysOf(decode, jwks[..|jwks| - 1]);
      if Usable(decode, last) then before[last.kid := decode(last.n, last.e).value] else before
  }

  function Lookup<Key>(keys: map<string, Key>, kid: string): Result<Key, Failure> {
    if kid in keys then Success(keys[kid]) else Failure(KeyNotFound)
  }

  // An RSA key for signatures with RS256, as far as it says, that decodes and is known by this name.
  predicate Bears<Key>(decode: Decoder<Key>, jwk: Jwk, kid: string) {
    && jwk.kid == kid && kid != "" && jwk.kty == "RSA" && jwk.alg in {"", "RS256"} && jwk.use in {"", "sig"}
    && decode(jwk.n, jwk.e).Some?
  }

  /** A name is known exactly when a usable key bears it. */
  lemma {:induction false} UsableNamesAreKnown<Key>(decode: Decoder<Key>, jwks: seq<Jwk>, kid: string)
    ensures kid in KeysOf(decode, jwks) <==> exists i :: 0 <= i < |jwks| && Bears(decode, jwks[i], kid)
  {
    if jwks != [] {
      var last := |jwks| - 1;
      UsableNamesAreKnown(decode, jwks[..last], kid);
      if kid in KeysOf(decode, jwks[..last]) {
        var i :| 0 <= i < last && Bears(decode, jwks[..last][i], kid);
        assert Bears(decode, jwks[i], kid);
      }
      if i :| 0 <= i < |jwks| && Bears(decode, jwks[i], kid) {
        assert i < last ==> Bears(decode, jwks[..last][i], kid);
      }
    }
  }

  /** A name stands for the last usable key that bears it. */
  lemma {:induction false} LastUsableKeyWins<Key>(decode: Decoder<Key>, jwks: seq<Jwk>, i: nat)
    requires i < |jwks| && Bears(decode, jwks[i], jwks[i].kid)
    requires forall j | i < j < |jwks| :: !Bears(decode, jwks[j], jwks[i].kid)
    ensures jwks[i].kid in KeysOf(decode, jwks)
    ensures KeysOf(decode, jwks)[jwks[i].kid] == decode(jwks[i].n, jwks[i].e).value
  {
    var last := |jwks| - 1;
    if i < last {
      assert forall j | i < j < last :: !Bears(decode, jwks[..last][j], jwks[i].kid);
      LastUsableKeyWins(decode, jwks[..last], i);
      assert !Bears(decode, jwks[last], jwks[i].kid);
    }
  }

  // ---- one caller at a time ----

  class Cache<Key(==)> {
    var entries: map<string, Cached<Key>>
    const decode: Decoder<Key>

    constructor (decode: Decoder<Key>)
      ensures this.decode == decode && entries == map[]
    {
      this.decode := decode;
      entries := map[];
    }

    /** The key for `kid`; `response` is what fetching the set would yield, `storedAt` the clock at the store. */
    method SigningKey(url: string, kid: string, now: int, response: Option<seq<Jwk>>, storedAt: int)
      returns (key: Result<Key, Failure>)
      modifies this
      ensures SignedBy(decode, old(entries), url, kid, now, response, storedAt, entries, key)
    {
      if url in entries && now < entries[url].expiresAt {
        if kid in entries[url].keys {
          return Success(entries[url].keys[kid]);
        }
        return Failure(KeyNotFound);
      }
      if response.None? {
        return Failure(FetchFailed);
      }
      if |response.value| > MAX_KEYS {
        return Failure(TooManyKeys);
      }
      var keys := ReadKeys(response.value);
      entries := entries[url := Cached(keys, storedAt + LIFETIME)];
      if kid in keys {
        return Success(keys[kid]);
      }
      return Failure(KeyNotFound);
    }

    method ReadKeys(jwks: seq<Jwk>) returns (keys: map<string, Key>)
      ensures keys == KeysOf(decode, jwks)
    {
      keys := map[];
      for i := 0 to |jwks|
        invariant keys == KeysOf(decode, jwks[..i])
      {
        var jwk := jwks[i];
        assert jwks[..i + 1][..i] == jwks[..i];
        if jwk.kty != "RSA" || jwk.kid == "" || (jwk.alg != "" && jwk.alg != "RS256")
            || (jwk.use != "" && jwk.use != "sig") {
          continue;
        }
        var key := decode(jwk.n, jwk.e);
        if key.Some? {
          keys := keys[jwk.kid := key.value];
        }
      }
      assert jwks[..|jwks|] == jwks;
    }
  }

  predicate Live<Key>(entries: map<string, Cached<Key>>, url: string, now: int) {
    url in entries && now < entries[url].expiresAt
  }

  predicate Acceptable(response: Option<seq<Jwk>>) {
    response.Some? && |response.value| <= MAX_KEYS
  }

  // What one call does to the cache, and what it answers: a live set answers alone; otherwise an
  // acceptable fetched set is stored and answers, and a failed fetch changes nothing.
  ghost predicate SignedBy<Key>(
    decode: Decoder<Key>, entries: map<string, Cached<Key>>, url: string, kid: string, now: int,
    response: Option<seq<Jwk>>, storedAt: int, entries': map<string, Cached<Key>>, key: Result<Key, Failure>)
  {
    if Live(entries, url, now) then
      entries' == entries && key == Lookup(entries[url].keys, kid)
    else if Acceptable(response) then
      && entries' == entries[url := Cached(KeysOf(decode, response.value), storedAt + LIFETIME)]
      && key == Lookup(KeysOf(decode, response.value), kid)
    else
      entries' == entries && key == Failure(if response.None? then FetchFailed else TooManyKeys)
  }

  /**
   When no live set is cached, a fetched set of at most a hundred keys is stored for fifteen minutes and
   answers; otherwise the call fails and stores nothing.
   */
  lemma FetchDecides<Key>(
    decode: Decoder<Key>, entries: map<string, Cached<Key>>, url: string, kid: string, now: int,
    response: Option<seq<Jwk>>, storedAt: int, entries': map<string, Cached<Key>>, key: Result<Key, Failure>)
    requires SignedBy(decode, entries, url, kid, now, response, storedAt, entries', key)
    requires !(url in entries && now < entries[url].expiresAt)
    ensures if response.Some? && |response.value| <= 100 then
              var keys := KeysOf(decode, response.value);
              && entries' == entries[url := Cached(keys, storedAt + 900_000_000_000)]
              && (key.Success? <==> kid in keys) && (key.Success? ==> key.value == keys[kid])
            else entries' == entries && key.Failure?
  {
  }

  // ---- callers that interleave ----

  datatype Call<Key> = Call(url: string, kid: string, phase: Phase<Key>)

  datatype Phase<Key> =
    | Called
    | Looked(found: Option<Cached<Key>>)          // read under the read lock
    | Fetching
    | Received(fetched: seq<Jwk>)
    | Answered(key: Result<Key, Failure>, cached: bool, at: int)

  // A set that was put into the cache: who fetched it from where, and the clock then.
  datatype Stored = Stored(caller: nat, url: string, fetched: seq<Jwk>, at: int)

  datatype State<Key> = State(
    clock: int, entries: map<string, Cached<Key>>, calls: map<nat, Call<Key>>, stores: seq<Stored>)

  datatype Action =
    | Tick(ticks: nat)
    | Begin(c: nat, url: string, kid: string)
    | Advance(c: nat, response: Option<seq<Jwk>>)

  predicate Enabled<Key>(s: State<Key>, a: Action) {
    match a
    case Tick(_) => true
    case Begin(c, _, _) => c !in s.calls
    case Advance(c, _) => c in s.calls && !s.calls[c].phase.Answered?
  }

  function Put<Key>(s: State<Key>, c: nat, phase: Phase<Key>): State<Key>
    requires c in s.calls
  {
    s.(calls := s.calls[c := s.calls[c].(phase := phase)])
  }

  function Apply<Key>(decode: Decoder<Key>, s: State<Key>, a: Action): State<Key>
    requires Enabled(s, a)
  {
    match a
    case Tick(ticks) => s.(clock := s.clock + ticks)
    case Begin(c, url, kid) => s.(calls := s.calls[c := Call(url, kid, Called)])
    case Advance(c, response) =>
      var call := s.calls[c];
      match call.phase
      case Called => Put(s, c, Looked(if call.url in s.entries then Some(s.entries[call.url]) else None))
      case Looked(found) =>
        if found.Some? && s.clock < found.value.expiresAt
        then Put(s, c, Answered(Lookup(found.value.keys, call.kid), true, s.clock))
        else Put(s, c, Fetching)
      case Fetching =>
        if Acceptable(response) then Put(s, c, Received(response.value))
        else Put(s, c, Answered(Failure(if response.None? then FetchFailed else TooManyKeys), false, s.clock))
      case Received(fetched) =>
        var keys := KeysOf(decode, fetched);
        Put(s, c, Answered(Lookup(keys, call.kid), false, s.clock)).(
          entries := s.entries[call.url := Cached(keys, s.clock + LIFETIME)],
          stores := s.stores + [Stored(c, call.url, fetched, s.clock)])
  }

  // ---- where keys come from ----

  // The entry is a set that was fetched from the URL, with the lifetime counted from its store.
  ghost predicate FromStore<Key>(decode: Decoder<Key>, s: State<Key>, url: string, entry: Cached<Key>) {
    exists i :: 0 <= i < |s.stores| && EntryOf(decode, s.stores[i], url, s.clock, entry)
  }

  // As FromStore, and the set is the last one that was stored for the URL.
  ghost predicate FromLastStore<Key>(decode: Decoder<Key>, s: State<Key>, url: string, entry: Cached<Key>) {
    exists i :: 0 <= i < |s.stores| && EntryOf(decode, s.stores[i], url, s.clock, entry) && IsLast(s.stores, i)
  }

  predicate IsLast(stores: seq<Stored>, i: nat)
    requires i < |stores|
  {
    forall j | i < j < |stores| :: stores[j].url != stores[i].url
  }

  predicate EntryOf<Key(==)>(decode: Decoder<Key>, stored: Stored, url: string, clock: int, entry: Cached<Key>) {
    stored.url == url && stored.at <= clock && entry == Cached(KeysOf(decode, stored.fetched), stored.at + LIFETIME)
  }

  // A set that was fetched from the URL and was less than a lifetime old answers the call.
  ghost predicate FromRecentStore<Key>(decode: Decoder<Key>, s: State<Key>, call: Call<Key>) {
    call.phase.Answered? && exists i :: 0 <= i < |s.stores| && AnswersAt(decode, s.stores[i], call)
  }

  predicate AnswersAt<Key(==)>(decode: Decoder<Key>, stored: Stored, call: Call<Key>) {
    && call.phase.Answered? && stored.url == call.url && stored.at <= call.phase.at < stored.at + 900_000_000_000
    && call.phase.key == Lookup(KeysOf(decode, stored.fetched), call.kid)
  }

  // The set that the caller itself fetched from the URL answers the call.
  ghost predicate FromOwnFetch<Key>(decode: Decoder<Key>, s: State<Key>, c: nat, call: Call<Key>) {
    call.phase.Answered? && exists i :: 0 <= i < |s.stores| && AnswersOwn(decode, s.stores[i], c, call)
  }

  predicate AnswersOwn<Key(==)>(decode: Decoder<Key>, stored: Stored, c: nat, call: Call<Key>) {
    && call.phase.Answered? && stored.caller == c && stored.url == call.url && stored.at == call.phase.at
    && call.phase.key == Lookup(KeysOf(decode, stored.fetched), call.kid)
  }

  ghost predicate CallOk<Key>(decode: Decoder<Key>, s: State<Key>, c: nat, call: Call<Key>) {
    match call.phase
    case Looked(found) => found.Some? ==> FromStore(decode, s, call.url, found.value)
    case Answered(key, cached, _) =>
      if cached then FromRecentStore(decode, s, call)
      else FromOwnFetch(decode, s, c, call) || (key.Failure? && key.error != KeyNotFound)
    case _ => true
  }

  // What is cached for a URL is the last set stored for it.
  ghost predicate EntriesOk<Key>(decode: Decoder<Key>, s: State<Key>) {
    && (forall i | 0 <= i < |s.stores| :: s.stores[i].url in s.entries && s.stores[i].at <= s.clock)
    && (forall url | url in s.entries :: FromLastStore(decode, s, url, s.entries[url]))
  }

  ghost predicate Inv<Key>(decode: Decoder<Key>, s: State<Key>) {
    EntriesOk(decode, s) && forall c | c in s.calls :: CallOk(decode, s, c, s.calls[c])
  }

  // ---- proofs ----

  // Facts about stored sets outlast later stores and the passing of time.
  lemma CallStable<Key>(decode: Decoder<Key>, s: State<Key>, s': State<Key>, c: nat, call: Call<Key>)
    requires CallOk(decode, s, c, call) && s.stores <= s'.stores && s.clock <= s'.clock
    ensures CallOk(decode, s', c, call)
  {
    if call.phase.Looked? && call.phase.found.Some? {
      StoreStable(decode, s, s', call.url, call.phase.found.value);
    }
    if FromRecentStore(decode, s, call) {
      var i :| 0 <= i < |s.stores| && AnswersAt(decode, s.stores[i], call);
      assert s'.stores[i] == s.stores[i];
    }
    if FromOwnFetch(decode, s, c, call) {
      var i :| 0 <= i < |s.stores| && AnswersOwn(decode, s.stores[i], c, call);
      assert s'.stores[i] == s.stores[i];
    }
  }

  lemma StoreStable<Key>(decode: Decoder<Key>, s: State<Key>, s': State<Key>, url: string, entry: Cached<Key>)
    requires FromStore(decode, s, url, entry) && s.stores <= s'.stores && s.clock <= s'.clock
    ensures FromStore(decode, s', url, entry)
  {
    var i :| 0 <= i < |s.stores| && EntryOf(decode, s.stores[i], url, s.clock, entry);
    assert EntryOf(decode, s'.stores[i], url, s'.clock, entry);
  }

  // The last set stored for a URL stays the last when another is stored for another URL.
  lemma LastStoreStable<Key>(
      decode: Decoder<Key>, s: State<Key>, s': State<Key>, url: string, entry: Cached<Key>, more: seq<Stored>)
    requires FromLastStore(decode, s, url, entry) && s'.stores == s.stores + more && s.clock <= s'.clock
    requires forall j | 0 <= j < |more| :: more[j].url != url
    ensures FromLastStore(decode, s', url, entry)
  {
    var i :| 0 <= i < |s.stores| && EntryOf(decode, s.stores[i], url, s.clock, entry) && IsLast(s.stores, i);
    assert s'.stores[i] == s.stores[i];
    assert EntryOf(decode, s'.stores[i], url, s'.clock, entry);
    forall j | i < j < |s'.stores| ensures s'.stores[j].url != url {
      assert s'.stores[j] == if j < |s.stores| then s.stores[j] else more[j - |s.stores|];
    }
    assert IsLast(s'.stores, i);
  }

  lemma EntriesStable<Key>(decode: Decoder<Key>, s: State<Key>, s': State<Key>)
    requires EntriesOk(decode, s) && s'.entries == s.entries && s'.stores == s.stores && s.clock <= s'.clock
    ensures EntriesOk(decode, s')
  {
    assert s.stores + [] == s.stores;
    forall url | url in s'.entries ensures FromLastStore(decode, s', url, s'.entries[url]) {
      LastStoreStable(decode, s, s', url, s.entries[url], []);
    }
  }

  lemma StoreKeepsEntries<Key>(decode: Decoder<Key>, s: State<Key>, s': State<Key>, stored: Stored)
    requires EntriesOk(decode, s) && s'.clock == s.clock == stored.at && s'.stores == s.stores + [stored]
    requires s'.entries == s.entries[stored.url := Cached(KeysOf(decode, stored.fetched), stored.at + LIFETIME)]
    ensures EntriesOk(decode, s')
  {
    assert s'.stores[|s.stores|] == stored;
    forall url | url in s'.entries ensures FromLastStore(decode, s', url, s'.entries[url]) {
      if url == stored.url {
        assert EntryOf(decode, s'.stores[|s.stores|], url, s'.clock, s'.entries[url]) && IsLast(s'.stores, |s.stores|);
      } else {
        LastStoreStable(decode, s, s', url, s.entries[url], [stored]);
      }
    }
  }

  // What the caller that moved relies on.
  lemma MovedCallIsOk<Key>(decode: Decoder<Key>, s: State<Key>, a: Action)
    requires EntriesOk(decode, s) && Enabled(s, a) && a.Advance? && CallOk(decode, s, a.c, s.calls[a.c])
    ensures CallOk(decode, Apply(decode, s, a), a.c, Apply(decode, s, a).calls[a.c])
  {
    var s', call := Apply(decode, s, a), s.calls[a.c];
    if call.phase.Called? && call.url in s.entries {
      StoreStable(decode, s, s', call.url, s.entries[call.url]);
    } else if call.phase.Looked? && s'.calls[a.c].phase.Answered? {
      var i :| 0 <= i < |s.stores| && EntryOf(decode, s.stores[i], call.url, s.clock, call.phase.found.value);
      assert AnswersAt(decode, s'.stores[i], s'.calls[a.c]);
    } else if call.phase.Received? {
      assert AnswersOwn(decode, s'.stores[|s.stores|], a.c, s'.calls[a.c]);
    }
  }

  lemma ActionKeepsInv<Key>(decode: Decoder<Key>, s: State<Key>, a: Action)
    requires Inv(decode, s) && Enabled(s, a)
    ensures Inv(decode, Apply(decode, s, a))
  {
    var s' := Apply(decode, s, a);
    if a.Advance? && s.calls[a.c].phase.Received? {
      StoreKeepsEntries(decode, s, s', s'.stores[|s.stores|]);
    } else {
      EntriesStable(decode, s, s');
    }
    forall c | c in s'.calls ensures CallOk(decode, s', c, s'.calls[c]) {
      if a.Advance? && c == a.c {
        MovedCallIsOk(decode, s, a);
      } else if !(a.Begin? && c == a.c) {
        CallStable(decode, s, s', c, s.calls[c]);
      }
    }
  }

  predicate IsRun<Key>(decode: Decoder<Key>, s: State<Key>, run: seq<Action>)
    decreases |run|
  {
    run != [] ==> Enabled(s, run[0]) && IsRun(decode, Apply(decode, s, run[0]), run[1..])
  }

  function After<Key>(decode: Decoder<Key>, s: State<Key>, run: seq<Action>): State<Key>
    requires IsRun(decode, s, run)
    decreases |run|
  {
    if run == [] then s else After(decode, Apply(decode, s, run[0]), run[1..])
  }

  lemma {:induction false} RunKeepsInv<Key>(decode: Decoder<Key>, s: State<Key>, run: seq<Action>)
    requires Inv(decode, s) && IsRun(decode, s, run)
    ensures Inv(decode, After(decode, s, run))
    decreases |run|
  {
    if run != [] {
      ActionKeepsInv(decode, s, run[0]);
      RunKeepsInv(decode, Apply(decode, s, run[0]), run[1..]);
    }
  }

  ghost predicate Init<Key>(s: State<Key>) {
    s.entries == map[] && s.calls == map[] && s.stores == []
  }

  /**
   After any interleaving of callers, an answered call that found a live set in the cache was answered
   exactly as a set fetched from its URL and stored less than fifteen minutes before answers its
   name, whether or not that set has the name; every other key comes from the caller's own fetch of
   that URL.
   */
  lemma KeysComeFromTheirUrl<Key>(decode: Decoder<Key>, s: State<Key>, run: seq<Action>, c: nat)
    requires Init(s) && IsRun(decode, s, run)
    requires c in After(decode, s, run).calls && After(decode, s, run).calls[c].phase.Answered?
    ensures var t := After(decode, s, run); var call := t.calls[c];
            && (call.phase.cached ==> FromRecentStore(decode, t, call))
            && (!call.phase.cached && call.phase.key.Success? ==> FromOwnFetch(decode, t, c, call))
  {
    RunKeepsInv(decode, s, run);
    var t := After(decode, s, run);
    assert CallOk(decode, t, c, t.calls[c]);
  }

  lemma LastIsOne(stores: seq<Stored>, k: nat)
    requires k < |stores| && IsLast(stores, k)
    ensures forall i | 0 <= i < |stores| && stores[i].url == stores[k].url && IsLast(stores, i) :: i == k
  {
  }

  /** What is cached for a URL is the set that was stored for it last, and nothing else is cached. */
  lemma CacheHoldsTheLatestSet<Key>(decode: Decoder<Key>, s: State<Key>, run: seq<Action>, url: string)
    requires Init(s) && IsRun(decode, s, run)
    ensures var t := After(decode, s, run);
            && (url in t.entries <==> exists i :: 0 <= i < |t.stores| && t.stores[i].url == url)
            && forall i | 0 <= i < |t.stores| && t.stores[i].url == url && IsLast(t.stores, i) ::
                 t.entries[url] == Cached(KeysOf(decode, t.stores[i].fetched), t.stores[i].at + 900_000_000_000)
  {
    RunKeepsInv(decode, s, run);
    var t := After(decode, s, run);
    if url in t.entries {
      var k :| 0 <= k < |t.stores| && EntryOf(decode, t.stores[k], url, t.clock, t.entries[url]) && IsLast(t.stores, k);
      LastIsOne(t.stores, k);
    }
  }

  /**
   A caller that nobody interrupts does in its steps what SigningKey does in one: it looks, checks the
   clock, and when it must, fetches and stores.
   */
  lemma AloneAsOneCall<Key>(decode: Decoder<Key>, s: State<Key>, c: nat, response: Option<seq<Jwk>>)
    returns (run: seq<Action>)
    requires c in s.calls && s.calls[c].phase.Called?
    ensures IsRun(decode, s, run)
    ensures var t, call := After(decode, s, run), s.calls[c];
            && c in t.calls && t.calls[c].phase.Answered?
            && SignedBy(decode, s.entries, call.url, call.kid, s.clock, response, s.clock, t.entries,
                t.calls[c].phase.key)
            && forall o | o in s.calls && o != c :: o in t.calls && t.calls[o] == s.calls[o]
  {
    var step := Advance(c, response);
    var s1 := Apply(decode, s, step);
    var s2 := Apply(decode, s1, step);
    if s2.calls[c].phase.Answered? {
      run := [];
    } else {
      var s3 := Apply(decode, s2, step);
      run := [];
      if !s3.calls[c].phase.Answered? {
        AfterFirst(decode, s3, step, run);
        run := [step] + run;
      }
      AfterFirst(decode, s2, step, run);
      run := [step] + run;
    }
    AfterFirst(decode, s1, step, run);
    run := [step] + run;
    AfterFirst(decode, s, step, run);
    run := [step] + run;
  }

  lemma AfterFirst<Key>(decode: Decoder<Key>, s: State<Key>, a: Action, rest: seq<Action>)
    requires Enabled(s, a) && IsRun(decode, Apply(decode, s, a), rest)
    ensures IsRun(decode, s, [a] + rest) && After(decode, s, [a] + rest) == After(decode, Apply(decode, s, a), rest)
  {
    assert ([a] + rest)[1..] == rest;
  }
}

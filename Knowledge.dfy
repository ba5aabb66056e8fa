/** The destination-knowledge client and its on-disk cache (knowledgebase.py, lines 1-139).
    The cache directory is a map from destination to the unpickled entry; a file that cannot be
    loaded is a missing key. The remote service is `answer`: the reply to the k-th request the
    session issues. */
module Knowledge {
  import opened Json
  import opened Http

  /** One day: an entry saved this many seconds ago or longer is stale. */
  const CacheExpirationSeconds: int := 86400
  const CacheDirName: string := "bayse_kb"
  const LastSaved: string := "last_saved"

  datatype Platform = Windows | Posix

  /** The knowledge-base request: statistics and flow summary are always asked for. */
  datatype Query = Query(name: string, protocol: Json, port: Option<nat>)

  /** The cache directory and the requests the session has issued so far. */
  datatype Store = Store(cache: map<string, Json>, sent: seq<Query>)

  /** What a lookup returns, and the state it leaves behind. */
  datatype Lookup = Lookup(data: Json, store: Store)

  /** The port is part of the request only when it is truthy (neither absent nor 0). */
  function BuildQuery(dst: string, protocol: Json, port: Option<nat>): (q: Query)
    ensures q.name == dst && q.protocol == protocol
    ensures q.port.Some? <==> port.Some? && port.value != 0
    ensures q.port.Some? ==> q.port == port
  {
    if port.Some? && port.value != 0 then Query(dst, protocol, port) else Query(dst, protocol, None)
  }

  /** The usable part of a reply: the `"body"` of a JSON object delivered with status 200,
      and `None` for every other status, body shape or parse failure. */
  function KbDataFromResponse(r: Response): (data: Json)
    ensures data != JNull ==> r.status == 200 && r.body.Some? && Get(r.body.value, "body") == Some(data)
    ensures r.status == 200 && r.body.Some? && Get(r.body.value, "body").Some? ==>
              data == Get(r.body.value, "body").value
  {
    if r.status == 200 && r.body.Some? then
      match Get(r.body.value, "body")
      case Some(b) => b
      case None => JNull
    else JNull
  }

  function CacheDir(p: Platform): string
  {
    if p == Windows then "C:\\TEMP\\" + CacheDirName else "/tmp/" + CacheDirName
  }

  function Delimiter(p: Platform): string
  {
    if p == Windows then "\\" else "/"
  }

  /** The cache file of a destination: one per destination, whatever protocol or port was asked. */
  function CacheFileName(p: Platform, destination: string): (path: string)
    ensures |path| == |CacheDir(p)| + 1 + |destination| + 4
    ensures path[..|CacheDir(p)| + 1] == CacheDir(p) + Delimiter(p)
    ensures path[|CacheDir(p)| + 1..|path| - 4] == destination
    ensures path[|path| - 4..] == ".pkl"
  {
    CacheDir(p) + Delimiter(p) + destination + ".pkl"
  }

  /** Distinct destinations get distinct cache file names. */
  lemma CacheFileNameInjective(p: Platform, d1: string, d2: string)
    requires CacheFileName(p, d1) == CacheFileName(p, d2)
    ensures d1 == d2
  {
    var path := CacheFileName(p, d1);
    assert d1 == path[|CacheDir(p)| + 1..|path| - 4];
  }

  /** A number as Python compares it: `bool` is an `int`. */
  function AsNumber(j: Json): Option<int>
  {
    match j
    case JNum(n) => Some(n)
    case JBool(b) => Some(if b then 1 else 0)
    case _ => None
  }

  /** An entry is reused when it is a non-empty dict whose `last_saved` is a number less than a
      day old; anything else (including a comparison that would raise) asks for a fresh copy. */
  predicate IsFresh(entry: Json, now: int)
  {
    && Truthy(entry)
    && Get(entry, LastSaved).Some?
    && AsNumber(Get(entry, LastSaved).value).Some?
    && !(now - CacheExpirationSeconds >= AsNumber(Get(entry, LastSaved).value).value)
  }

  /** A numeric `last_saved` makes an entry fresh exactly when it is less than one day old,
      so an entry exactly 86400 seconds old is refreshed. */
  lemma FreshnessWindow(entry: Json, now: int, t: int)
    requires Get(entry, LastSaved) == Some(JNum(t))
    ensures IsFresh(entry, now) <==> now - t < CacheExpirationSeconds
  {
    assert entry.JObj? && entry.fields != [];
  }

  /** What loading the cache file yields: `None` when there is no readable file. */
  function Loaded(cache: map<string, Json>, destination: string): Json
  {
    if destination in cache then cache[destination] else JNull
  }

  /** `del kb_data["last_saved"]`, where every failure is ignored. */
  function Strip(j: Json): (r: Json)
    ensures !HasKey(r, LastSaved)
    ensures r.JObj? <==> j.JObj?
    ensures !j.JObj? ==> r == j
    ensures forall k :: k != LastSaved ==> Get(r, k) == Get(j, k)
  {
    if j.JObj? then JObj(Delete(j.fields, LastSaved)) else j
  }

  /** A dict stamped with `last_saved = now`. */
  function Stamp(fields: seq<(string, Json)>, now: int): (r: Json)
    ensures Get(r, LastSaved) == Some(JNum(now))
  {
    AssignFinds(fields, LastSaved, JNum(now));
    JObj(Assign(fields, LastSaved, JNum(now)))
  }

  /** Stamping keeps the rest of the dict: every other key keeps its value and the keys keep
      their order, with `last_saved` added last unless it was already there. */
  lemma StampKeepsRest(fields: seq<(string, Json)>, now: int)
    ensures Stamp(fields, now).JObj?
    ensures forall k :: k != LastSaved ==> Get(Stamp(fields, now), k) == Get(JObj(fields), k)
    ensures KeysOf(Stamp(fields, now).fields)
         == if LastSaved in KeysOf(fields) then KeysOf(fields) else KeysOf(fields) + [LastSaved]
  {
    AssignKeepsOthers(fields, LastSaved, JNum(now));
  }

  /** The cache after `save_results_to_cache`: a dict is written stamped with `now`; for anything
      else the file has already been truncated when the stamping fails, so the entry is gone. */
  function SaveSpec(cache: map<string, Json>, destination: string, kbData: Json, now: int)
    : (c: map<string, Json>)
    ensures kbData.JObj? ==> destination in c && c[destination] == Stamp(kbData.fields, now)
    ensures !kbData.JObj? ==> destination !in c
    ensures c - {destination} == cache - {destination}
  {
    if kbData.JObj? then cache[destination := Stamp(kbData.fields, now)] else cache - {destination}
  }

  /** `retrieve_cached_results`: a fresh entry is returned without a request; otherwise one
      request is issued, a truthy reply is saved, and the reply is returned. */
  function RetrieveSpec(s: Store, answer: nat -> Response, destination: string, q: Query, now: int)
    : Lookup
  {
    var loaded := Loaded(s.cache, destination);
    if IsFresh(loaded, now) then Lookup(Strip(loaded), s)
    else
      var data := KbDataFromResponse(answer(|s.sent|));
      var cache := if Truthy(data) then SaveSpec(s.cache, destination, data, now) else s.cache;
      Lookup(Strip(data), Store(cache, s.sent + [q]))
  }

  /** `get_destination_info`. In cache mode a falsy retrieval is followed by a second request
      whose reply is saved, and the result is `None`, since saving returns nothing. */
  function GetDestinationInfoSpec(s: Store, answer: nat -> Response, dst: string, protocol: Json,
                                  port: Option<nat>, useCache: bool, now: int): Lookup
  {
    var q := BuildQuery(dst, protocol, port);
    if useCache then
      var retrieved := RetrieveSpec(s, answer, dst, q, now);
      if Truthy(retrieved.data) then retrieved
      else
        var data := KbDataFromResponse(answer(|retrieved.store.sent|));
        Lookup(JNull, Store(SaveSpec(retrieved.store.cache, dst, data, now), retrieved.store.sent + [q]))
    else
      Lookup(KbDataFromResponse(answer(|s.sent|)), Store(s.cache, s.sent + [q]))
  }

  /** A fresh cached entry is returned with `last_saved` removed and nothing is sent or written. */
  lemma RetrieveFreshHit(s: Store, answer: nat -> Response, destination: string, q: Query, now: int)
    requires destination in s.cache && IsFresh(s.cache[destination], now)
    ensures RetrieveSpec(s, answer, destination, q, now) == Lookup(Strip(s.cache[destination]), s)
  {
  }

  /** A missing or stale entry causes exactly one request. A truthy dict reply is written
      stamped with `now`; a falsy reply leaves the cache untouched and is what is returned. */
  lemma RetrieveRefresh(s: Store, answer: nat -> Response, destination: string, q: Query, now: int)
    requires !IsFresh(Loaded(s.cache, destination), now)
    ensures var data := KbDataFromResponse(answer(|s.sent|));
            var res := RetrieveSpec(s, answer, destination, q, now);
            && res.store.sent == s.sent + [q]
            && res.data == Strip(data)
            && (Truthy(data) && data.JObj? ==>
                  destination in res.store.cache
                  && Get(res.store.cache[destination], LastSaved) == Some(JNum(now))
                  && Strip(res.store.cache[destination]) == Strip(data))
            && (!Truthy(data) ==> res.store.cache == s.cache && !Truthy(res.data))
  {
    var data := KbDataFromResponse(answer(|s.sent|));
    if Truthy(data) && data.JObj? {
      DeleteAfterAssign(data.fields, LastSaved, JNum(now));
    }
  }

  /** Whatever is retrieved never carries `last_saved`. */
  lemma RetrieveNeverLastSaved(s: Store, answer: nat -> Response, destination: string, q: Query, now: int)
    ensures !HasKey(RetrieveSpec(s, answer, destination, q, now).data, LastSaved)
  {
  }

  /** In cache mode a falsy retrieval yields `None` after exactly one more request. */
  lemma CacheMissYieldsNone(s: Store, answer: nat -> Response, dst: string, protocol: Json,
                            port: Option<nat>, now: int)
    requires !Truthy(RetrieveSpec(s, answer, dst, BuildQuery(dst, protocol, port), now).data)
    ensures var q := BuildQuery(dst, protocol, port);
            var res := GetDestinationInfoSpec(s, answer, dst, protocol, port, true, now);
            && res.data == JNull
            && res.store.sent == RetrieveSpec(s, answer, dst, q, now).store.sent + [q]
  {
  }

  /** A lookup touches the cache entry of its own destination and no other. */
  lemma LookupTouchesOnlyItsEntry(s: Store, answer: nat -> Response, dst: string, protocol: Json,
                                  port: Option<nat>, useCache: bool, now: int)
    ensures var res := GetDestinationInfoSpec(s, answer, dst, protocol, port, useCache, now);
            res.store.cache - {dst} == s.cache - {dst}
  {
    var q := BuildQuery(dst, protocol, port);
    var r := RetrieveSpec(s, answer, dst, q, now);
    assert r.store.cache - {dst} == s.cache - {dst};
  }

  /** The cache is keyed by destination alone: a fresh entry answers a lookup the same way
      whatever protocol and port are asked for, and without any request. */
  lemma CacheIgnoresProtocolAndPort(s: Store, answer: nat -> Response, dst: string,
                                    protocol1: Json, port1: Option<nat>,
                                    protocol2: Json, port2: Option<nat>, now: int)
    requires dst in s.cache && IsFresh(s.cache[dst], now) && Truthy(Strip(s.cache[dst]))
    ensures GetDestinationInfoSpec(s, answer, dst, protocol1, port1, true, now)
         == GetDestinationInfoSpec(s, answer, dst, protocol2, port2, true, now)
         == Lookup(Strip(s.cache[dst]), s)
  {
  }

  /** A second cache-mode lookup of the same destination at the same time is a cache hit: the
      first one sends the only request and saves the reply, and the second returns the same data
      without any request or write, whatever protocol and port it asks for. A reply that strips
      to a falsy value (`{}`, or one holding only `last_saved`) does not qualify: the second
      lookup then sends a request again. */
  lemma SecondLookupIsCacheHit(s: Store, answer: nat -> Response, dst: string,
                               p1: Json, port1: Option<nat>, p2: Json, port2: Option<nat>, now: int)
    requires !IsFresh(Loaded(s.cache, dst), now)
    requires var d := KbDataFromResponse(answer(|s.sent|)); d.JObj? && Truthy(Strip(d))
    ensures var r1 := GetDestinationInfoSpec(s, answer, dst, p1, port1, true, now);
            var r2 := GetDestinationInfoSpec(r1.store, answer, dst, p2, port2, true, now);
            && |r1.store.sent| == |s.sent| + 1
            && r2.store == r1.store
            && r2.data == r1.data
  {
    var r1 := GetDestinationInfoSpec(s, answer, dst, p1, port1, true, now);
    RetrieveRefresh(s, answer, dst, BuildQuery(dst, p1, port1), now);
    FreshnessWindow(r1.store.cache[dst], now, now);
  }

  /** The cache directory and the HTTP session of one run. */
  class KnowledgeBase {
    var cache: map<string, Json>
    var sent: seq<Query>
    const answer: nat -> Response
    const platform: Platform

    function State(): Store
      reads this
    {
      Store(cache, sent)
    }

    constructor (initialCache: map<string, Json>, answer: nat -> Response, platform: Platform)
      ensures cache == initialCache && sent == []
      ensures this.answer == answer && this.platform == platform
    {
      cache := initialCache;
      sent := [];
      this.answer := answer;
      this.platform := platform;
    }

    /** `session.get(url)`. */
    method Fetch(q: Query) returns (r: Response)
      modifies this`sent
      ensures r == answer(|old(sent)|) && sent == old(sent) + [q]
    {
      r := answer(|sent|);
      sent := sent + [q];
    }

    /** `save_results_to_cache`; `stamped` is the caller's dict after the in-place stamping. */
    method Save(destination: string, kbData: Json, now: int) returns (stamped: Json)
      modifies this`cache
      ensures cache == SaveSpec(old(cache), destination, kbData, now)
      ensures stamped == if kbData.JObj? then Stamp(kbData.fields, now) else kbData
    {
      if kbData.JObj? {
        stamped := Stamp(kbData.fields, now);
        cache := cache[destination := stamped];
      } else {
        // the file is opened for writing (and truncated) before the stamping raises
        stamped := kbData;
        cache := cache - {destination};
      }
    }

    /** Deleting a destination's cache file, where a missing file is no error. */
    method Unlink(destination: string)
      modifies this`cache
      ensures cache == old(cache) - {destination}
    {
      cache := cache - {destination};
    }

    /** `retrieve_cached_results`. */
    method Retrieve(destination: string, q: Query, now: int) returns (kbData: Json)
      modifies this
      ensures Lookup(kbData, State()) == RetrieveSpec(old(State()), answer, destination, q, now)
    {
      var getFresh := false;
      kbData := JNull;
      if destination in cache {
        kbData := cache[destination];
      } else {
        getFresh := true;
      }
      if !IsFresh(kbData, now) {
        getFresh := true;
      }
      if getFresh {
        var r := Fetch(q);
        kbData := KbDataFromResponse(r);
        if Truthy(kbData) {
          ghost var received := kbData;
          kbData := Save(destination, kbData, now);
          if received.JObj? {
            DeleteAfterAssign(received.fields, LastSaved, JNum(now));
          }
        }
      }
      kbData := Strip(kbData);
    }

    /** `get_destination_info`. */
    method GetDestinationInfo(dst: string, protocol: Json, port: Option<nat>, useCache: bool, now: int)
      returns (data: Json)
      modifies this
      ensures Lookup(data, State())
           == GetDestinationInfoSpec(old(State()), answer, dst, protocol, port, useCache, now)
    {
      var q := BuildQuery(dst, protocol, port);
      if useCache {
        data := Retrieve(dst, q, now);
        if !Truthy(data) {
          var r := Fetch(q);
          data := KbDataFromResponse(r);
          var _ := Save(dst, data, now);
          data := JNull;
        }
      } else {
        var r := Fetch(q);
        data := KbDataFromResponse(r);
      }
    }
  }
}

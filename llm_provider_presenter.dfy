/** The LLM provider presenter: the table of configured providers, the lazy
    cache of provider adapters, and the table of active generation streams
    with its concurrency cap, cancellation and event publishing.

    The provider adapters and the process-wide event bus are not part of the
    model: an adapter is a value recording which family was built for which
    descriptor, a provider's stream is a given finite sequence of chunks that
    may end in a failure, and the event bus is the append-only `events` log. */
module LlmProvider {
  import opened Wrappers

  /** A configured provider (`LLM_PROVIDER`). */
  datatype Provider = Provider(
    id: string,
    name: string,
    apiType: string,
    apiKey: string,
    baseUrl: string,
    enable: bool)

  /** The adapter families the presenter can build. */
  datatype AdapterKind = OpenAIAdapter | DeepseekAdapter | OpenAICompatibleAdapter

  /** A constructed adapter: its family and the descriptor it was built from. */
  datatype Adapter = Adapter(kind: AdapterKind, descriptor: Provider)

  /** One element of a provider's response stream. */
  datatype Chunk = Chunk(content: string, reasoningContent: string)

  /** A value a provider's stream throws: an `Error` object of any class,
      with its `name` (`"Error"`, `"TypeError"`, ...) and `message`, or any
      other value, given by its `String()` conversion. */
  datatype Thrown = ErrorObject(name: string, message: string) | OtherValue(text: string)

  /** What a provider's stream produces: its chunks in order, then either a
      normal end or a failure raised while the next element is awaited. */
  datatype ProviderStream = ProviderStream(chunks: seq<Chunk>, failure: Option<Thrown>)

  /** What other callers do while a session is suspended. `StopAt(k)` runs
      `stopStream` on the session's own event id while element `k` of its
      stream is awaited (`k == |chunks|` is the wait for the end of the
      stream); `StopAndRestartAt(k)` then also runs the synchronous part of a
      new start with the same event id, provider and model, which registers
      its own stream state before it in turn suspends. */
  datatype Interruption = Uninterrupted | StopAt(k: nat) | StopAndRestartAt(k: nat)

  /** Events published on the stream channels. `StreamEnd(id, false)`
      stands for an END payload without the `userStop` field. */
  datatype Event =
    | StreamResponse(eventId: string, chunk: Chunk)
    | StreamEnd(eventId: string, userStop: bool)
    | StreamError(eventId: string, error: string)

  datatype Error =
    | ConcurrencyLimitReached
    | DuplicateStream
    | ProviderNotFound(id: string)
    | ProviderNotSupported(id: string)
    | StreamFailed(thrown: Thrown)

  const DefaultMaxConcurrentStreams: int := 10

  /** Provider ids `getProviderInstance` accepts. */
  const SupportedProviders: set<string> := {"openai", "deepseek", "ollama"}

  /** `String(error)`: for an `Error` object, `Error.prototype.toString`
      (`name: message`, or whichever of the two is not empty). */
  function ErrorString(t: Thrown): string
  {
    match t
    case ErrorObject(name, message) =>
      if name == "" then message else if message == "" then name else name + ": " + message
    case OtherValue(text) => text
  }

  /** `error instanceof Error ? error.message : String(error)`. */
  function ErrorMessage(t: Thrown): string
  {
    match t
    case ErrorObject(_, message) => message
    case OtherValue(text) => text
  }

  // ---------------------------------------------------------------------
  // The provider table and the adapter cache
  // ---------------------------------------------------------------------

  /** The `providers` map after `set(p.id, p)` for every `p` of `ps` in
      order: keyed by id, a later descriptor replacing an earlier one. */
  function ProviderTable(ps: seq<Provider>): (t: map<string, Provider>)
    ensures forall id :: id in t ==> t[id].id == id
  {
    if ps == [] then map[]
    else ProviderTable(ps[..|ps| - 1])[ps[|ps| - 1].id := ps[|ps| - 1]]
  }

  /** The table holds exactly the ids that occur in the list. */
  lemma {:induction false} ProviderTableKeys(ps: seq<Provider>)
    ensures forall id :: id in ProviderTable(ps) <==> exists p :: p in ps && p.id == id
  {
    if ps != [] {
      var front := ps[..|ps| - 1];
      ProviderTableKeys(front);
      assert ps == front + [ps[|ps| - 1]];
      assert forall p :: p in ps <==> p in front || p == ps[|ps| - 1];
    }
  }

  /** For every id, the table holds the last descriptor with that id. */
  lemma {:induction false} ProviderTableLastWins(ps: seq<Provider>, i: nat)
    requires i < |ps|
    requires forall j :: i < j < |ps| ==> ps[j].id != ps[i].id
    ensures ps[i].id in ProviderTable(ps) && ProviderTable(ps)[ps[i].id] == ps[i]
  {
    if i < |ps| - 1 {
      var front := ps[..|ps| - 1];
      ProviderTableLastWins(front, i);
    }
  }

  /** `ps.find(p => p.id === id)`: the first descriptor with that id. */
  function FindById(ps: seq<Provider>, id: string): (r: Option<Provider>)
    ensures r.Some? ==> r.value in ps && r.value.id == id
    ensures r.None? ==> forall p :: p in ps ==> p.id != id
    ensures r.None? <==> id !in ProviderTable(ps)
  {
    ProviderTableKeys(ps);
    if ps == [] then None
    else if ps[0].id == id then Some(ps[0])
    else FindById(ps[1..], id)
  }

  /** The key order of that map: ids in order of first occurrence. */
  function KeyOrder(ps: seq<Provider>): (ks: seq<string>)
    ensures forall i, j :: 0 <= i < j < |ks| ==> ks[i] != ks[j]
    ensures forall id :: id in ks <==> id in ProviderTable(ps)
  {
    if ps == [] then []
    else
      var last := ps[|ps| - 1];
      var ks0 := KeyOrder(ps[..|ps| - 1]);
      if last.id in ks0 then ks0 else ks0 + [last.id]
  }

  /** One more `set(p.id, p)`: the table takes the descriptor, the key
      order grows only for a new id. */
  lemma TableStep(ps: seq<Provider>, i: nat)
    requires i < |ps|
    ensures ProviderTable(ps[..i + 1]) == ProviderTable(ps[..i])[ps[i].id := ps[i]]
    ensures KeyOrder(ps[..i + 1]) ==
              if ps[i].id in ProviderTable(ps[..i]) then KeyOrder(ps[..i]) else KeyOrder(ps[..i]) + [ps[i].id]
  {
    assert ps[..i + 1][..i] == ps[..i];
  }

  /** The ids of the enabled providers, in key order. */
  function EnabledIds(order: seq<string>, table: map<string, Provider>): (ids: seq<string>)
    requires forall id :: id in order ==> id in table
    ensures forall id :: id in ids <==> id in order && table[id].enable
    ensures (forall i, j :: 0 <= i < j < |order| ==> order[i] != order[j]) ==>
              forall i, j :: 0 <= i < j < |ids| ==> ids[i] != ids[j]
  {
    if order == [] then []
    else
      var rest := EnabledIds(order[1..], table);
      assert forall id :: id in order <==> id == order[0] || id in order[1..];
      if table[order[0]].enable then [order[0]] + rest else rest
  }

  /** `EnabledIds` is a filter of the key order: with `EnabledIdsSingle`,
      it distributes over concatenation, so the ids stay in key order. */
  lemma {:induction false} EnabledIdsIsFilter(a: seq<string>, b: seq<string>, table: map<string, Provider>)
    requires forall id :: id in a ==> id in table
    requires forall id :: id in b ==> id in table
    ensures EnabledIds(a + b, table) == EnabledIds(a, table) + EnabledIds(b, table)
    decreases |a|
  {
    if a == [] {
      assert a + b == b;
    } else {
      var tail := a[1..];
      assert forall id :: id in tail ==> id in a;
      EnabledIdsIsFilter(tail, b, table);
      EnabledIdsCons(a, b, table);
    }
  }

  /** A single id is kept exactly when its descriptor is enabled. */
  lemma EnabledIdsSingle(id: string, table: map<string, Provider>)
    requires id in table
    ensures EnabledIds([id], table) == if table[id].enable then [id] else []
  {
    assert [id][1..] == [];
  }

  /** Unfolding `EnabledIds` at the head of `a` and of `a + b`. */
  lemma EnabledIdsCons(a: seq<string>, b: seq<string>, table: map<string, Provider>)
    requires a != []
    requires forall id :: id in a ==> id in table
    requires forall id :: id in b ==> id in table
    ensures var head := if table[a[0]].enable then [a[0]] else [];
            && EnabledIds(a + b, table) == head + EnabledIds(a[1..] + b, table)
            && EnabledIds(a, table) == head + EnabledIds(a[1..], table)
  {
    assert (a + b)[1..] == a[1..] + b;
    assert (a + b)[0] == a[0];
  }

  /** The adapter `getProviderInstance` builds: chosen by provider id. */
  function AdapterFor(p: Provider): Adapter
  {
    match p.id
    case "openai" => Adapter(OpenAIAdapter, p)
    case "deepseek" => Adapter(DeepseekAdapter, p)
    case _ => Adapter(OpenAICompatibleAdapter, p)
  }

  /** What `getProviderInstance(id)` returns or throws. */
  function Resolve(table: map<string, Provider>, cache: map<string, Adapter>, id: string): Result<Adapter, Error>
  {
    if id in cache then Success(cache[id])
    else if id !in table then Failure(ProviderNotFound(id))
    else if id !in SupportedProviders then Failure(ProviderNotSupported(id))
    else Success(AdapterFor(table[id]))
  }

  /** The cache after `getProviderInstance(id)`. */
  function CacheAfter(table: map<string, Provider>, cache: map<string, Adapter>, id: string): map<string, Adapter>
  {
    var r := Resolve(table, cache, id);
    if r.Success? then cache[id := r.value] else cache
  }

  /** The outcome and the cache after `getProviderInstance` is called on
      each of `ids` in order, starting from an empty cache; the first
      unsupported id throws and ends the walk. */
  function WarmCache(table: map<string, Provider>, ids: seq<string>): (r: (Outcome<Error>, map<string, Adapter>))
    requires forall id :: id in ids ==> id in table
    ensures r.0.Pass? ==> forall id :: id in r.1 <==> id in ids
    ensures forall id :: id in r.1 ==> id in ids
  {
    if ids == [] then (Pass, map[])
    else
      var last := ids[|ids| - 1];
      var (o, c) := WarmCache(table, ids[..|ids| - 1]);
      assert forall id :: id in ids <==> id in ids[..|ids| - 1] || id == last;
      if o.Fail? then (o, c)
      else if last !in SupportedProviders then (Fail(ProviderNotSupported(last)), c)
      else (Pass, c[last := AdapterFor(table[last])])
  }

  /** The position of the first unsupported id (`|ids|` if there is none). */
  function FirstUnsupported(ids: seq<string>): (n: nat)
    ensures n <= |ids|
    ensures forall m :: 0 <= m < n ==> ids[m] in SupportedProviders
    ensures n < |ids| ==> ids[n] !in SupportedProviders
  {
    if ids == [] then 0
    else
      var k := FirstUnsupported(ids[..|ids| - 1]);
      if k < |ids| - 1 then k
      else if ids[|ids| - 1] in SupportedProviders then |ids|
      else |ids| - 1
  }

  /** The walk throws `not supported` for the first unsupported id and no
      other; the cache then holds an adapter, chosen by id, for exactly the
      ids before it. */
  lemma {:induction false} WarmCacheResult(table: map<string, Provider>, ids: seq<string>)
    requires forall id :: id in ids ==> id in table
    ensures var n := FirstUnsupported(ids);
            && WarmCache(table, ids).0 == (if n == |ids| then Pass else Fail(ProviderNotSupported(ids[n])))
            && (forall id :: id in WarmCache(table, ids).1 <==> id in ids[..n])
            && (forall id :: id in WarmCache(table, ids).1 ==> WarmCache(table, ids).1[id] == AdapterFor(table[id]))
  {
    if ids != [] {
      var front := ids[..|ids| - 1];
      WarmCacheResult(table, front);
      assert ids[..|ids| - 1][..|front|] == front;
      if FirstUnsupported(front) < |front| {
        assert ids[..FirstUnsupported(ids)] == front[..FirstUnsupported(front)];
      } else {
        assert front[..|front|] == front;
        assert ids[..|ids|] == ids;
      }
    }
  }

  /** Once a walk has thrown, the ids after the failing one are never
      visited. */
  lemma {:induction false} WarmCacheStops(table: map<string, Provider>, ids: seq<string>, n: nat)
    requires forall id :: id in ids ==> id in table
    requires n <= |ids|
    requires WarmCache(table, ids[..n]).0.Fail?
    ensures WarmCache(table, ids) == WarmCache(table, ids[..n])
    decreases |ids|
  {
    if n == |ids| {
      assert ids[..n] == ids;
    } else {
      var front := ids[..|ids| - 1];
      assert front[..n] == ids[..n];
      WarmCacheStops(table, front, n);
    }
  }

  /** The adapter `init` builds for one descriptor, chosen by `apiType`:
      none for a disabled provider or an unknown type (logged and skipped). */
  function InitAdapter(p: Provider): Option<Adapter>
  {
    if !p.enable then None
    else if p.apiType == "openai" then Some(Adapter(OpenAIAdapter, p))
    else if p.apiType == "deepseek" then Some(Adapter(DeepseekAdapter, p))
    else None
  }

  /** The cache `init` builds from the configured providers. */
  function InitCache(ps: seq<Provider>): map<string, Adapter>
  {
    if ps == [] then map[]
    else
      var last := ps[|ps| - 1];
      var c := InitCache(ps[..|ps| - 1]);
      if InitAdapter(last).Some? then c[last.id := InitAdapter(last).value] else c
  }

  /** `init` caches exactly the ids of descriptors for which it builds an
      adapter. */
  lemma {:induction false} InitCacheKeys(ps: seq<Provider>)
    ensures forall id :: id in InitCache(ps) <==>
              exists i :: 0 <= i < |ps| && ps[i].id == id && InitAdapter(ps[i]).Some?
  {
    if ps != [] {
      var front := ps[..|ps| - 1];
      InitCacheKeys(front);
      forall id | id in InitCache(ps)
        ensures exists i :: 0 <= i < |ps| && ps[i].id == id && InitAdapter(ps[i]).Some?
      {
        if id in InitCache(front) && (id != ps[|ps| - 1].id || InitAdapter(ps[|ps| - 1]).None?) {
          var i :| 0 <= i < |front| && front[i].id == id && InitAdapter(front[i]).Some?;
          assert ps[i] == front[i];
        }
      }
      forall id | exists i :: 0 <= i < |ps| && ps[i].id == id && InitAdapter(ps[i]).Some?
        ensures id in InitCache(ps)
      {
        var i :| 0 <= i < |ps| && ps[i].id == id && InitAdapter(ps[i]).Some?;
        if i < |front| {
          assert front[i] == ps[i];
        }
      }
    }
  }

  /** The adapter `init` caches for an id is the one built for the last
      descriptor with that id that gets one: a later disabled or
      unknown-type duplicate leaves it in place. */
  lemma {:induction false} InitCacheLastWins(ps: seq<Provider>, i: nat)
    requires i < |ps| && InitAdapter(ps[i]).Some?
    requires forall j :: i < j < |ps| && ps[j].id == ps[i].id ==> InitAdapter(ps[j]).None?
    ensures ps[i].id in InitCache(ps) && InitCache(ps)[ps[i].id] == InitAdapter(ps[i]).value
  {
    if i < |ps| - 1 {
      var front := ps[..|ps| - 1];
      InitCacheLastWins(front, i);
    }
  }

  lemma InitCacheStep(ps: seq<Provider>, i: nat)
    requires i < |ps|
    ensures InitCache(ps[..i + 1]) ==
              if InitAdapter(ps[i]).Some? then InitCache(ps[..i])[ps[i].id := InitAdapter(ps[i]).value]
              else InitCache(ps[..i])
  {
    assert ps[..i + 1][..i] == ps[..i];
  }

  /** A second `getProviderInstance` of the same id returns what the first
      returned and leaves the cache as the first left it. */
  lemma ResolveIdempotent(table: map<string, Provider>, cache: map<string, Adapter>, id: string)
    ensures Resolve(table, CacheAfter(table, cache, id), id) == Resolve(table, cache, id)
    ensures CacheAfter(table, CacheAfter(table, cache, id), id) == CacheAfter(table, cache, id)
  {
  }

  /** `init` and `getProviderInstance` choose adapters differently: `init`
      by `apiType`, `getProviderInstance` by id. An enabled provider with an
      unsupported id but `apiType` openai gets an adapter at start-up, while
      the same descriptor in an empty cache is refused. */
  lemma InitDispatchesByApiType(p: Provider)
    requires p.enable && p.apiType == "openai" && p.id !in SupportedProviders
    ensures p.id in InitCache([p]) && InitCache([p])[p.id] == Adapter(OpenAIAdapter, p)
    ensures Resolve(ProviderTable([p]), map[], p.id) == Failure(ProviderNotSupported(p.id))
  {
    assert [p][..0] == [];
  }

  // ---------------------------------------------------------------------
  // Stream sessions
  // ---------------------------------------------------------------------

  /** The index of the awaited element at which the interruption happens,
      if it happens before the session is over. */
  function StopPoint(s: ProviderStream, i: Interruption): Option<nat>
  {
    match i
    case Uninterrupted => None
    case StopAt(k) => if k <= |s.chunks| then Some(k) else None
    case StopAndRestartAt(k) => if k <= |s.chunks| then Some(k) else None
  }

  /** How many chunks the session republishes. */
  function Delivered(s: ProviderStream, i: Interruption): nat
  {
    if StopPoint(s, i).Some? then StopPoint(s, i).value else |s.chunks|
  }

  /** The stream's failure is reached (the loop did not break first). */
  predicate RaisesFailure(s: ProviderStream, i: Interruption)
  {
    s.failure.Some? && Delivered(s, i) == |s.chunks|
  }

  function Responses(eventId: string, cs: seq<Chunk>): seq<Event>
  {
    if cs == [] then [] else Responses(eventId, cs[..|cs| - 1]) + [StreamResponse(eventId, cs[|cs| - 1])]
  }

  lemma ResponsesAppend(log: seq<Event>, eventId: string, cs: seq<Chunk>, i: nat)
    requires i < |cs|
    ensures log + Responses(eventId, cs[..i + 1]) == log + Responses(eventId, cs[..i]) + [StreamResponse(eventId, cs[i])]
  {
    assert cs[..i + 1][..i] == cs[..i];
  }

  function StopEnd(eventId: string, s: ProviderStream, i: Interruption): seq<Event>
  {
    if StopPoint(s, i).Some? then [StreamEnd(eventId, true)] else []
  }

  /** What the `for await` loop and an interleaved `stopStream` publish:
      the delivered chunks, then the END of the stop if there is one. */
  function Relayed(eventId: string, s: ProviderStream, i: Interruption): seq<Event>
  {
    Responses(eventId, s.chunks[..Delivered(s, i)]) + StopEnd(eventId, s, i)
  }

  /** Everything `startStreamCompletion` publishes for an admitted session:
      the relayed events, then an ERROR carrying the failure's message, or
      its own END when not aborted. */
  function CompletionEvents(eventId: string, s: ProviderStream, i: Interruption): seq<Event>
  {
    Relayed(eventId, s, i)
    + (if RaisesFailure(s, i) then [StreamError(eventId, ErrorMessage(s.failure.value))]
       else if StopPoint(s, i).Some? then []
       else [StreamEnd(eventId, false)])
  }

  /** Everything `handleStreamOperation` publishes for an admitted session:
      as above, except that the ERROR carries `String(error)` and that its
      END follows every normal return, aborted or not. */
  function OperationEvents(eventId: string, s: ProviderStream, i: Interruption): seq<Event>
  {
    Relayed(eventId, s, i)
    + (if RaisesFailure(s, i) then [StreamError(eventId, ErrorString(s.failure.value))]
       else [StreamEnd(eventId, false)])
  }

  lemma AppendEvents(log: seq<Event>, relayed: seq<Event>, tail: seq<Event>)
    ensures log + relayed + tail == log + (relayed + tail)
  {
  }

  lemma RemoveRegistered(streams: map<string, StreamState>, eventId: string, entry: StreamState)
    ensures streams[eventId := entry] - {eventId} == streams - {eventId}
    ensures eventId !in streams ==> streams - {eventId} == streams
  {
  }

  /** The chunks republished for `eventId`, in publishing order. */
  function ResponseChunks(evs: seq<Event>, eventId: string): seq<Chunk>
  {
    if evs == [] then []
    else
      var e := evs[|evs| - 1];
      ResponseChunks(evs[..|evs| - 1], eventId)
      + (if e.StreamResponse? && e.eventId == eventId then [e.chunk] else [])
  }

  /** How many END events with this `userStop` value `evs` holds. */
  function CountEnds(evs: seq<Event>, userStop: bool): nat
  {
    if evs == [] then 0
    else CountEnds(evs[..|evs| - 1], userStop) + (if evs[|evs| - 1] == StreamEnd(evs[|evs| - 1].eventId, userStop) then 1 else 0)
  }

  function CountErrors(evs: seq<Event>): nat
  {
    if evs == [] then 0
    else CountErrors(evs[..|evs| - 1]) + (if evs[|evs| - 1].StreamError? then 1 else 0)
  }

  /** The END events `stopAllStreams` publishes for the ids it stops, in order. */
  function StopEnds(ids: seq<string>): (evs: seq<Event>)
    ensures |evs| == |ids|
    ensures forall i :: 0 <= i < |ids| ==> evs[i] == StreamEnd(ids[i], true)
  {
    if ids == [] then [] else StopEnds(ids[..|ids| - 1]) + [StreamEnd(ids[|ids| - 1], true)]
  }

  /** `order` lists every element of `ids` exactly once. */
  ghost predicate Enumerates(order: seq<string>, ids: set<string>)
  {
    && (forall i, j :: 0 <= i < j < |order| ==> order[i] != order[j])
    && (forall id :: id in order <==> id in ids)
  }

  lemma StopEndsAppend(log: seq<Event>, ids: seq<string>, id: string)
    ensures log + StopEnds(ids + [id]) == log + StopEnds(ids) + [StreamEnd(id, true)]
  {
    assert (ids + [id])[..|ids|] == ids;
  }

  // ---------------------------------------------------------------------
  // What a session publishes
  // ---------------------------------------------------------------------

  lemma {:induction false} ResponseChunksAppend(a: seq<Event>, b: seq<Event>, eventId: string)
    ensures ResponseChunks(a + b, eventId) == ResponseChunks(a, eventId) + ResponseChunks(b, eventId)
    decreases |b|
  {
    if b == [] {
      assert a + b == a;
    } else {
      var front := b[..|b| - 1];
      assert (a + b)[..|a + b| - 1] == a + front;
      assert (a + b)[|a + b| - 1] == b[|b| - 1];
      ResponseChunksAppend(a, front, eventId);
    }
  }

  lemma {:induction false} CountsAppend(a: seq<Event>, b: seq<Event>)
    ensures CountEnds(a + b, true) == CountEnds(a, true) + CountEnds(b, true)
    ensures CountEnds(a + b, false) == CountEnds(a, false) + CountEnds(b, false)
    ensures CountErrors(a + b) == CountErrors(a) + CountErrors(b)
    decreases |b|
  {
    if b == [] {
      assert a + b == a;
    } else {
      var front := b[..|b| - 1];
      assert (a + b)[..|a + b| - 1] == a + front;
      assert (a + b)[|a + b| - 1] == b[|b| - 1];
      CountsAppend(a, front);
    }
  }

  /** The republished chunks are exactly the delivered ones, in order, and
      republishing publishes no END and no ERROR. */
  lemma {:induction false} ResponsesFacts(eventId: string, cs: seq<Chunk>)
    ensures ResponseChunks(Responses(eventId, cs), eventId) == cs
    ensures CountEnds(Responses(eventId, cs), true) == 0 && CountEnds(Responses(eventId, cs), false) == 0
    ensures CountErrors(Responses(eventId, cs)) == 0
  {
    if cs != [] {
      var front := cs[..|cs| - 1];
      ResponsesFacts(eventId, front);
      ResponseChunksAppend(Responses(eventId, front), [StreamResponse(eventId, cs[|cs| - 1])], eventId);
      CountsAppend(Responses(eventId, front), [StreamResponse(eventId, cs[|cs| - 1])]);
      assert [StreamResponse(eventId, cs[|cs| - 1])][..0] == [];
      assert front + [cs[|cs| - 1]] == cs;
    }
  }

  /** A single event that is not a chunk of `eventId`. */
  lemma SingleEventFacts(eventId: string, e: Event)
    requires !e.StreamResponse?
    ensures ResponseChunks([e], eventId) == []
    ensures CountEnds([e], true) == (if e.StreamEnd? && e.userStop then 1 else 0)
    ensures CountEnds([e], false) == (if e.StreamEnd? && !e.userStop then 1 else 0)
    ensures CountErrors([e]) == (if e.StreamError? then 1 else 0)
  {
    assert [e][..0] == [];
  }

  lemma RelayedFacts(eventId: string, s: ProviderStream, i: Interruption)
    ensures ResponseChunks(Relayed(eventId, s, i), eventId) == s.chunks[..Delivered(s, i)]
    ensures CountEnds(Relayed(eventId, s, i), true) == (if StopPoint(s, i).Some? then 1 else 0)
    ensures CountEnds(Relayed(eventId, s, i), false) == 0 && CountErrors(Relayed(eventId, s, i)) == 0
  {
    var cs := s.chunks[..Delivered(s, i)];
    var rs := Responses(eventId, cs);
    var stop := StopEnd(eventId, s, i);
    assert Relayed(eventId, s, i) == rs + stop;
    ResponsesFacts(eventId, cs);
    ResponseChunksAppend(rs, stop, eventId);
    CountsAppend(rs, stop);
    if stop != [] {
      SingleEventFacts(eventId, stop[0]);
      assert stop == [stop[0]];
    }
  }

  /** `startStreamCompletion` republishes exactly the chunks that arrived
      before the abort flag was seen, publishes the stop's END(userStop)
      when stopped, its own END only when neither stopped nor failed, and an
      ERROR exactly when the stream's failure is reached. */
  lemma CompletionPublishes(eventId: string, s: ProviderStream, i: Interruption)
    ensures ResponseChunks(CompletionEvents(eventId, s, i), eventId) == s.chunks[..Delivered(s, i)]
    ensures CountEnds(CompletionEvents(eventId, s, i), true) == (if StopPoint(s, i).Some? then 1 else 0)
    ensures CountEnds(CompletionEvents(eventId, s, i), false) ==
              (if StopPoint(s, i).Some? || RaisesFailure(s, i) then 0 else 1)
    ensures CountErrors(CompletionEvents(eventId, s, i)) == (if RaisesFailure(s, i) then 1 else 0)
    ensures RaisesFailure(s, i) ==> var es := CompletionEvents(eventId, s, i);
              es[|es| - 1] == StreamError(eventId, ErrorMessage(s.failure.value))
  {
    var tail := if RaisesFailure(s, i) then [StreamError(eventId, ErrorMessage(s.failure.value))]
                else if StopPoint(s, i).Some? then []
                else [StreamEnd(eventId, false)];
    RelayedFacts(eventId, s, i);
    ResponseChunksAppend(Relayed(eventId, s, i), tail, eventId);
    CountsAppend(Relayed(eventId, s, i), tail);
    if tail != [] {
      SingleEventFacts(eventId, tail[0]);
      assert tail == [tail[0]];
    }
  }

  /** `handleStreamOperation` publishes as above except that its own END
      follows every run that does not fail, so a stopped session that does
      not fail publishes two ENDs: the stop's, then its own. */
  lemma OperationPublishes(eventId: string, s: ProviderStream, i: Interruption)
    ensures ResponseChunks(OperationEvents(eventId, s, i), eventId) == s.chunks[..Delivered(s, i)]
    ensures CountEnds(OperationEvents(eventId, s, i), true) == (if StopPoint(s, i).Some? then 1 else 0)
    ensures CountEnds(OperationEvents(eventId, s, i), false) == (if RaisesFailure(s, i) then 0 else 1)
    ensures CountErrors(OperationEvents(eventId, s, i)) == (if RaisesFailure(s, i) then 1 else 0)
    ensures RaisesFailure(s, i) ==> var es := OperationEvents(eventId, s, i);
              es[|es| - 1] == StreamError(eventId, ErrorString(s.failure.value))
  {
    var tail := if RaisesFailure(s, i) then [StreamError(eventId, ErrorString(s.failure.value))]
                else [StreamEnd(eventId, false)];
    RelayedFacts(eventId, s, i);
    ResponseChunksAppend(Relayed(eventId, s, i), tail, eventId);
    CountsAppend(Relayed(eventId, s, i), tail);
    SingleEventFacts(eventId, tail[0]);
    assert tail == [tail[0]];
  }

  /** An uninterrupted session republishes every chunk. */
  lemma UninterruptedDeliversAll(s: ProviderStream)
    ensures Delivered(s, Uninterrupted) == |s.chunks| && StopPoint(s, Uninterrupted).None?
    ensures RaisesFailure(s, Uninterrupted) <==> s.failure.Some?
  {
  }

  /** `stopAllStreams` publishes one END(userStop) per stopped id. */
  lemma {:induction false} StopEndsCount(ids: seq<string>)
    ensures CountEnds(StopEnds(ids), true) == |ids|
    ensures CountEnds(StopEnds(ids), false) == 0 && CountErrors(StopEnds(ids)) == 0
  {
    if ids != [] {
      var front := ids[..|ids| - 1];
      StopEndsCount(front);
      CountsAppend(StopEnds(front), [StreamEnd(ids[|ids| - 1], true)]);
      SingleEventFacts(ids[|ids| - 1], StreamEnd(ids[|ids| - 1], true));
    }
  }

  /** Why a `startStreamCompletion` call is rejected before a stream state
      is registered, if it is. */
  function CompletionRejection(active: nat, max: int, table: map<string, Provider>,
                               cache: map<string, Adapter>, providerId: string): Option<Error>
  {
    if !(active < max) then Some(ConcurrencyLimitReached)
    else if Resolve(table, cache, providerId).Failure? then Some(Resolve(table, cache, providerId).error)
    else None
  }

  /** Why a `handleStreamOperation` call is rejected, if it is: the same
      checks with the duplicate-id check between them. */
  function OperationRejection(active: nat, max: int, duplicate: bool, table: map<string, Provider>,
                              cache: map<string, Adapter>, providerId: string): Option<Error>
  {
    if !(active < max) then Some(ConcurrencyLimitReached)
    else if duplicate then Some(DuplicateStream)
    else if Resolve(table, cache, providerId).Failure? then Some(Resolve(table, cache, providerId).error)
    else None
  }

  /** An abort controller: the flag a running session polls between chunks. */
  class AbortController {
    var aborted: bool

    constructor ()
      ensures !aborted
    {
      aborted := false;
    }
  }

  /** The per-stream record kept in `activeStreams`. */
  datatype StreamState = StreamState(
    isGenerating: bool,
    providerId: string,
    modelId: string,
    abortController: AbortController,
    provider: Adapter)

  /** Part-way through stopping every stream of `streams`: the ids in
      `order` are stopped (each once), `rest` holds the others untouched. */
  ghost predicate StopProgress(streams: map<string, StreamState>, rest: map<string, StreamState>, order: seq<string>)
  {
    && (forall i, j :: 0 <= i < j < |order| ==> order[i] != order[j])
    && (forall id :: id in order ==> id in streams && id !in rest)
    && (forall id :: id in rest ==> id in streams && rest[id] == streams[id])
    && (forall id :: id in streams ==> id in rest || id in order)
  }

  lemma StopProgressStep(streams: map<string, StreamState>, rest: map<string, StreamState>, order: seq<string>, id: string)
    requires StopProgress(streams, rest, order) && id in rest
    ensures StopProgress(streams, rest - {id}, order + [id])
    ensures rest[id] == streams[id]
    ensures |rest - {id}| < |rest|
  {
    assert (rest - {id}).Keys < rest.Keys;
  }

  lemma StopProgressDone(streams: map<string, StreamState>, order: seq<string>)
    requires StopProgress(streams, map[], order)
    ensures Enumerates(order, streams.Keys)
  {
  }

  class LlmProviderPresenter {
    var providers: map<string, Provider>
    /** The insertion order of `providers`, which a JavaScript `Map` keeps. */
    var providerOrder: seq<string>
    var providerInstances: map<string, Adapter>
    var currentProviderId: Option<string>
    var activeStreams: map<string, StreamState>
    var maxConcurrentStreams: int
    /** Everything published on the stream channels, oldest first. */
    var events: seq<Event>

    ghost predicate Valid()
      reads this`providers, this`providerOrder
    {
      && (forall id :: id in providers ==> providers[id].id == id)
      && (forall id :: id in providerOrder <==> id in providers)
      && (forall i, j :: 0 <= i < j < |providerOrder| ==> providerOrder[i] != providerOrder[j])
    }

    /** The abort controllers of the active streams. */
    function Controllers(): set<AbortController>
      reads this
    {
      set id | id in activeStreams :: activeStreams[id].abortController
    }

    /** `isGenerating`: the id has an active-stream entry. */
    predicate IsGenerating(eventId: string)
      reads this
      ensures IsGenerating(eventId) <==> eventId in activeStreams
    {
      eventId in activeStreams
    }

    /** `canStartNewStream`: fewer sessions are active than the cap allows. */
    predicate CanStartNewStream()
      reads this
      ensures CanStartNewStream() <==> |activeStreams| < maxConcurrentStreams
    {
      |activeStreams| < maxConcurrentStreams
    }

    /** The constructor and `init`: load the configured providers and build
        adapters for the enabled ones by `apiType`. */
    constructor (configured: seq<Provider>)
      ensures Valid()
      ensures providers == ProviderTable(configured) && providerOrder == KeyOrder(configured)
      ensures providerInstances == InitCache(configured)
      ensures currentProviderId == None && activeStreams == map[] && events == []
      ensures maxConcurrentStreams == DefaultMaxConcurrentStreams
    {
      var table, order, cache := Init(configured);
      providers, providerOrder, providerInstances := table, order, cache;
      currentProviderId := None;
      activeStreams := map[];
      maxConcurrentStreams := DefaultMaxConcurrentStreams;
      events := [];
    }

    /** The loop of `init`: every configured descriptor goes into the table,
        and an enabled one of a known `apiType` also gets an adapter. */
    static method Init(configured: seq<Provider>)
      returns (table: map<string, Provider>, order: seq<string>, cache: map<string, Adapter>)
      ensures table == ProviderTable(configured) && order == KeyOrder(configured)
      ensures cache == InitCache(configured)
    {
      table, order, cache := map[], [], map[];
      var i := 0;
      while i < |configured|
        invariant 0 <= i <= |configured|
        invariant table == ProviderTable(configured[..i])
        invariant order == KeyOrder(configured[..i])
        invariant cache == InitCache(configured[..i])
      {
        var p := configured[i];
        TableStep(configured, i);
        InitCacheStep(configured, i);
        if p.id !in table {
          order := order + [p.id];
        }
        table := table[p.id := p];
        var instance := InitAdapter(p);
        if instance.Some? {
          cache := cache[p.id := instance.value];
        }
        i := i + 1;
      }
      assert configured[..i] == configured;
    }

    function GetProviderById(id: string): (r: Result<Provider, Error>)
      reads this
      requires Valid()
      ensures r.Success? <==> id in providers
      ensures r.Success? ==> r.value == providers[id] && r.value.id == id
      ensures r.Failure? ==> r.error == ProviderNotFound(id)
    {
      if id in providers then Success(providers[id]) else Failure(ProviderNotFound(id))
    }

    method GetProviderInstance(id: string) returns (r: Result<Adapter, Error>)
      requires Valid()
      modifies this`providerInstances
      ensures r == Resolve(providers, old(providerInstances), id)
      ensures providerInstances == CacheAfter(providers, old(providerInstances), id)
    {
      if id in providerInstances {
        return Success(providerInstances[id]);
      }
      if id !in providers {
        return Failure(ProviderNotFound(id));
      }
      var provider := providers[id];
      if provider.id !in SupportedProviders {
        return Failure(ProviderNotSupported(provider.id));
      }
      var instance := AdapterFor(provider);
      providerInstances := providerInstances[id := instance];
      return Success(instance);
    }

    method SetMaxConcurrentStreams(max: int)
      modifies this`maxConcurrentStreams
      ensures maxConcurrentStreams == max
    {
      maxConcurrentStreams := max;
    }

    method GetMaxConcurrentStreams() returns (max: int)
      ensures max == maxConcurrentStreams
    {
      max := maxConcurrentStreams;
    }

    method StopStream(eventId: string)
      modifies this`activeStreams, this`events
      modifies if eventId in activeStreams then {activeStreams[eventId].abortController} else {}
      ensures eventId in old(activeStreams) ==>
                && old(activeStreams)[eventId].abortController.aborted
                && activeStreams == old(activeStreams) - {eventId}
                && events == old(events) + [StreamEnd(eventId, true)]
      ensures eventId !in old(activeStreams) ==>
                activeStreams == old(activeStreams) && events == old(events)
      ensures forall c: AbortController :: old(allocated(c)) && old(c.aborted) ==> c.aborted
    {
      if eventId in activeStreams {
        var stream := activeStreams[eventId];
        stream.abortController.aborted := true;
        activeStreams := activeStreams - {eventId};
        events := events + [StreamEnd(eventId, true)];
      }
    }

    /** `stopAllStreams`: `stopStream` on every active id; `order` is the
        order in which the ids were stopped. */
    method StopAllStreams() returns (ghost order: seq<string>)
      modifies this`activeStreams, this`events, Controllers()
      ensures activeStreams == map[]
      ensures events == old(events) + StopEnds(order)
      ensures Enumerates(order, old(activeStreams).Keys)
      ensures forall id :: id in old(activeStreams) ==> old(activeStreams)[id].abortController.aborted
    {
      order := [];
      while activeStreams != map[]
        invariant StopProgress(old(activeStreams), activeStreams, order)
        invariant events == old(events) + StopEnds(order)
        invariant forall id :: id in order ==> old(activeStreams)[id].abortController.aborted
        decreases |activeStreams|
      {
        order := StopNext(old(activeStreams), old(events), order);
      }
      StopProgressDone(old(activeStreams), order);
    }

    /** One round of `stopAllStreams`: stop some still active id. */
    method StopNext(ghost streams: map<string, StreamState>, ghost log: seq<Event>, ghost order: seq<string>)
      returns (ghost order': seq<string>)
      requires activeStreams != map[]
      requires StopProgress(streams, activeStreams, order)
      requires events == log + StopEnds(order)
      requires forall id :: id in order ==> streams[id].abortController.aborted
      modifies this`activeStreams, this`events, Controllers()
      ensures StopProgress(streams, activeStreams, order')
      ensures |activeStreams| < old(|activeStreams|)
      ensures events == log + StopEnds(order')
      ensures forall id :: id in order' ==> streams[id].abortController.aborted
    {
      var id :| id in activeStreams;
      StopProgressStep(streams, activeStreams, order, id);
      StopStream(id);
      StopEndsAppend(log, order, id);
      order' := order + [id];
    }

    /** `setProviders`: stop every stream, replace the provider table, rebuild
        the cache for the enabled providers in key order (an unsupported one
        throws and ends the call there), then forget a current provider that
        is no longer configured. */
    method SetProviders(ps: seq<Provider>) returns (r: Outcome<Error>, ghost stopped: seq<string>)
      modifies this`activeStreams, this`events, Controllers()
      modifies this`providers, this`providerOrder, this`providerInstances, this`currentProviderId
      ensures Valid()
      ensures activeStreams == map[]
      ensures events == old(events) + StopEnds(stopped)
      ensures Enumerates(stopped, old(activeStreams).Keys)
      ensures providers == ProviderTable(ps) && providerOrder == KeyOrder(ps)
      ensures (r, providerInstances) == WarmCache(providers, EnabledIds(providerOrder, providers))
      ensures currentProviderId ==
                if r.Pass? && Truthy(old(currentProviderId)) && old(currentProviderId).value !in providers
                then None else old(currentProviderId)
    {
      stopped := StopAllStreams();
      r := ReplaceProviders(ps);
    }

    /** The part of `setProviders` after the streams are stopped. */
    method ReplaceProviders(ps: seq<Provider>) returns (r: Outcome<Error>)
      modifies this`providers, this`providerOrder, this`providerInstances, this`currentProviderId
      ensures Valid()
      ensures providers == ProviderTable(ps) && providerOrder == KeyOrder(ps)
      ensures (r, providerInstances) == WarmCache(providers, EnabledIds(providerOrder, providers))
      ensures currentProviderId ==
                if r.Pass? && Truthy(old(currentProviderId)) && old(currentProviderId).value !in providers
                then None else old(currentProviderId)
    {
      providers, providerOrder := BuildProviderTable(ps);
      providerInstances := map[];
      r := WarmProviders(EnabledIds(providerOrder, providers));
      if r.Pass? && Truthy(currentProviderId) && FindById(ps, currentProviderId.value).None? {
        currentProviderId := None;
      }
      assert Truthy(currentProviderId) ==> (FindById(ps, currentProviderId.value).None? <==> currentProviderId.value !in providers);
    }

    /** `providers.clear()` followed by `set(p.id, p)` for each descriptor:
        the new table and its key order. */
    static method BuildProviderTable(ps: seq<Provider>) returns (table: map<string, Provider>, order: seq<string>)
      ensures table == ProviderTable(ps) && order == KeyOrder(ps)
    {
      table, order := map[], [];
      var i := 0;
      while i < |ps|
        invariant 0 <= i <= |ps|
        invariant table == ProviderTable(ps[..i]) && order == KeyOrder(ps[..i])
      {
        TableStep(ps, i);
        if ps[i].id !in table {
          order := order + [ps[i].id];
        }
        table := table[ps[i].id := ps[i]];
        i := i + 1;
      }
      assert ps[..i] == ps;
    }

    /** The loop of `setProviders` that builds an adapter for each enabled
        provider, in key order, stopping at the first that throws. */
    method WarmProviders(ids: seq<string>) returns (r: Outcome<Error>)
      requires Valid()
      requires forall id :: id in ids ==> id in providers
      requires forall i, j :: 0 <= i < j < |ids| ==> ids[i] != ids[j]
      requires providerInstances == map[]
      modifies this`providerInstances
      ensures (r, providerInstances) == WarmCache(providers, ids)
    {
      var j := 0;
      while j < |ids|
        invariant 0 <= j <= |ids|
        invariant (Pass, providerInstances) == WarmCache(providers, ids[..j])
      {
        assert ids[..j + 1][..j] == ids[..j];
        assert ids[j] !in ids[..j];
        var instance := GetProviderInstance(ids[j]);
        if instance.Failure? {
          WarmCacheStops(providers, ids, j + 1);
          return Fail(instance.error);
        }
        j := j + 1;
      }
      assert ids[..j] == ids;
      return Pass;
    }

    /** `setCurrentProvider`: stop every stream, then switch to a configured
        provider and make sure its adapter exists; the switch happens before
        the adapter is resolved, so an unsupported provider stays current. */
    method SetCurrentProvider(providerId: string) returns (r: Outcome<Error>, ghost stopped: seq<string>)
      requires Valid()
      modifies this`activeStreams, this`events, Controllers()
      modifies this`providerInstances, this`currentProviderId
      ensures Valid()
      ensures activeStreams == map[]
      ensures events == old(events) + StopEnds(stopped)
      ensures Enumerates(stopped, old(activeStreams).Keys)
      ensures providerId !in providers ==>
                r == Fail(ProviderNotFound(providerId))
                && currentProviderId == old(currentProviderId) && providerInstances == old(providerInstances)
      ensures providerId in providers ==>
                && currentProviderId == Some(providerId)
                && providerInstances == CacheAfter(providers, old(providerInstances), providerId)
                && (r.Pass? <==> Resolve(providers, old(providerInstances), providerId).Success?)
                && (r.Fail? ==> r.error == Resolve(providers, old(providerInstances), providerId).error)
    {
      stopped := StopAllStreams();
      var provider := GetProviderById(providerId);
      if provider.Failure? {
        return Fail(provider.error), stopped;
      }
      currentProviderId := Some(providerId);
      var instance := GetProviderInstance(providerId);
      if instance.Failure? {
        return Fail(instance.error), stopped;
      }
      return Pass, stopped;
    }

    /** The synchronous part of `startStreamCompletion`: the cap check, the
        adapter lookup and the registration of the new stream state (no
        duplicate check: an entry with the same id is overwritten). */
    method AdmitCompletion(providerId: string, modelId: string, eventId: string)
      returns (r: Result<AbortController, Error>)
      requires Valid()
      modifies this`activeStreams, this`providerInstances
      ensures var rejection := CompletionRejection(|old(activeStreams)|, maxConcurrentStreams, providers,
                                                   old(providerInstances), providerId);
              if rejection.Some? then
                && r == Failure(rejection.value)
                && activeStreams == old(activeStreams)
                && providerInstances == old(providerInstances)
              else
                && r.Success? && fresh(r.value) && !r.value.aborted
                && activeStreams == old(activeStreams)[eventId := StreamState(true, providerId, modelId, r.value,
                                     Resolve(providers, old(providerInstances), providerId).value)]
                && providerInstances == CacheAfter(providers, old(providerInstances), providerId)
    {
      if !CanStartNewStream() {
        return Failure(ConcurrencyLimitReached);
      }
      var provider := GetProviderInstance(providerId);
      if provider.Failure? {
        return Failure(provider.error);
      }
      var abortController := new AbortController();
      activeStreams := activeStreams[eventId := StreamState(true, providerId, modelId, abortController, provider.value)];
      return Success(abortController);
    }

    /** The synchronous part of `handleStreamOperation`: as above with the
        duplicate-id check after the cap check. */
    method AdmitOperation(providerId: string, modelId: string, eventId: string)
      returns (r: Result<AbortController, Error>)
      requires Valid()
      modifies this`activeStreams, this`providerInstances
      ensures var rejection := OperationRejection(|old(activeStreams)|, maxConcurrentStreams, eventId in old(activeStreams),
                                                  providers, old(providerInstances), providerId);
              if rejection.Some? then
                && r == Failure(rejection.value)
                && activeStreams == old(activeStreams)
                && providerInstances == old(providerInstances)
              else
                && r.Success? && fresh(r.value) && !r.value.aborted
                && activeStreams == old(activeStreams)[eventId := StreamState(true, providerId, modelId, r.value,
                                     Resolve(providers, old(providerInstances), providerId).value)]
                && providerInstances == CacheAfter(providers, old(providerInstances), providerId)
    {
      if !CanStartNewStream() {
        return Failure(ConcurrencyLimitReached);
      }
      if eventId in activeStreams {
        return Failure(DuplicateStream);
      }
      var provider := GetProviderInstance(providerId);
      if provider.Failure? {
        return Failure(provider.error);
      }
      var abortController := new AbortController();
      activeStreams := activeStreams[eventId := StreamState(true, providerId, modelId, abortController, provider.value)];
      return Success(abortController);
    }

    /** Run the interleaved calls of `interruption` at await point `k`, if
        they are due there: `stopStream(eventId)`, then perhaps the
        synchronous part of a same-id restart. */
    method Interject(eventId: string, providerId: string, modelId: string,
                     interruption: Interruption, k: nat, viaOperation: bool)
      requires eventId in activeStreams && providerId in providerInstances
      requires Valid()
      modifies this`activeStreams, this`events, this`providerInstances
      modifies activeStreams[eventId].abortController
      ensures providerInstances == old(providerInstances)
      ensures activeStreams - {eventId} == old(activeStreams) - {eventId}
      ensures var due := !interruption.Uninterrupted? && interruption.k == k;
              if due then
                && old(activeStreams)[eventId].abortController.aborted
                && events == old(events) + [StreamEnd(eventId, true)]
                && (eventId in activeStreams ==> fresh(activeStreams[eventId].abortController))
              else
                && activeStreams == old(activeStreams) && events == old(events)
                && old(activeStreams)[eventId].abortController.aborted == old(activeStreams[eventId].abortController.aborted)
    {
      if !interruption.Uninterrupted? && interruption.k == k {
        StopStream(eventId);
        if interruption.StopAndRestartAt? {
          Restart(eventId, providerId, modelId, viaOperation);
        }
      }
    }

    /** The synchronous prefix of a second start with the same event id,
        provider and model (its result is not observed here). */
    method Restart(eventId: string, providerId: string, modelId: string, viaOperation: bool)
      requires Valid() && providerId in providerInstances && eventId !in activeStreams
      modifies this`activeStreams, this`providerInstances
      ensures providerInstances == old(providerInstances)
      ensures activeStreams - {eventId} == old(activeStreams) - {eventId}
      ensures eventId in activeStreams ==> fresh(activeStreams[eventId].abortController)
    {
      var restarted;
      if viaOperation {
        restarted := AdmitOperation(providerId, modelId, eventId);
      } else {
        restarted := AdmitCompletion(providerId, modelId, eventId);
      }
    }

    /** The `for await` loop shared by the stream sessions: republish each
        chunk as it arrives unless the abort flag is set by then, with the
        interruption happening while element `k` is awaited. Returns how
        many chunks were republished. */
    method Relay(eventId: string, providerId: string, modelId: string, stream: ProviderStream,
                 interruption: Interruption, abortController: AbortController, viaOperation: bool)
      returns (delivered: nat)
      requires Valid()
      requires eventId in activeStreams && activeStreams[eventId].abortController == abortController
      requires !abortController.aborted && providerId in providerInstances
      modifies this`activeStreams, this`events, this`providerInstances, abortController
      ensures delivered == Delivered(stream, interruption)
      ensures abortController.aborted <==> StopPoint(stream, interruption).Some?
      ensures events == old(events) + Relayed(eventId, stream, interruption)
      ensures activeStreams - {eventId} == old(activeStreams) - {eventId}
      ensures providerInstances == old(providerInstances)
    {
      var stop := StopPoint(stream, interruption);
      delivered := 0;
      while delivered < |stream.chunks|
        invariant delivered <= |stream.chunks|
        invariant stop.None? || delivered <= stop.value
        invariant !abortController.aborted
        invariant activeStreams == old(activeStreams) && providerInstances == old(providerInstances)
        invariant events == old(events) + Responses(eventId, stream.chunks[..delivered])
      {
        Interject(eventId, providerId, modelId, interruption, delivered, viaOperation);
        if abortController.aborted {
          return;
        }
        ResponsesAppend(old(events), eventId, stream.chunks, delivered);
        events := events + [StreamResponse(eventId, stream.chunks[delivered])];
        delivered := delivered + 1;
      }
      Interject(eventId, providerId, modelId, interruption, |stream.chunks|, viaOperation);
    }

    /** `startStreamCompletion`: admit, republish the chunks until the abort
        flag is seen, publish END only when not aborted or an ERROR on a
        failure (not rethrown), and delete the event id's entry at the end. */
    method StartStreamCompletion(providerId: string, modelId: string, eventId: string,
                                 stream: ProviderStream, interruption: Interruption)
      returns (r: Outcome<Error>)
      requires Valid()
      modifies this`activeStreams, this`events, this`providerInstances
      ensures var rejection := old(CompletionRejection(|activeStreams|, maxConcurrentStreams, providers,
                                                       providerInstances, providerId));
              if rejection.Some? then
                && r == Fail(rejection.value)
                && activeStreams == old(activeStreams) && events == old(events)
                && providerInstances == old(providerInstances)
              else
                && r == Pass
                && !IsGenerating(eventId)
                && activeStreams == old(activeStreams) - {eventId}
                && events == old(events) + CompletionEvents(eventId, stream, interruption)
                && providerInstances == CacheAfter(providers, old(providerInstances), providerId)
    {
      var admitted := AdmitCompletion(providerId, modelId, eventId);
      if admitted.Failure? {
        return Fail(admitted.error);
      }
      var abortController := admitted.value;
      ghost var registered := activeStreams[eventId];
      ghost var relayedFrom := events;
      var i := Relay(eventId, providerId, modelId, stream, interruption, abortController, false);
      if stream.failure.Some? && i == |stream.chunks| {
        events := events + [StreamError(eventId, ErrorMessage(stream.failure.value))];
        AppendEvents(relayedFrom, Relayed(eventId, stream, interruption), [StreamError(eventId, ErrorMessage(stream.failure.value))]);
      } else if !abortController.aborted {
        events := events + [StreamEnd(eventId, false)];
        AppendEvents(relayedFrom, Relayed(eventId, stream, interruption), [StreamEnd(eventId, false)]);
      }
      activeStreams := activeStreams - {eventId};
      RemoveRegistered(old(activeStreams), eventId, registered);
      return Pass;
    }

    /** `handleStreamOperation` running the loop of `startStreamSummary` or
        `startStreamText` over `stream`: admit (with the duplicate check),
        republish until the abort flag is seen, publish END after every
        normal return, publish ERROR and rethrow on a failure, and delete the
        event id's entry at the end. */
    method HandleStreamOperation(providerId: string, modelId: string, eventId: string,
                                 stream: ProviderStream, interruption: Interruption)
      returns (r: Outcome<Error>)
      requires Valid()
      modifies this`activeStreams, this`events, this`providerInstances
      ensures OperationFinished(providerId, eventId, stream, interruption, r)
    {
      var admitted := AdmitOperation(providerId, modelId, eventId);
      if admitted.Failure? {
        return Fail(admitted.error);
      }
      var abortController := admitted.value;
      ghost var registered := activeStreams[eventId];
      ghost var relayedFrom := events;
      var i := Relay(eventId, providerId, modelId, stream, interruption, abortController, true);
      if stream.failure.Some? && i == |stream.chunks| {
        events := events + [StreamError(eventId, ErrorString(stream.failure.value))];
        AppendEvents(relayedFrom, Relayed(eventId, stream, interruption), [StreamError(eventId, ErrorString(stream.failure.value))]);
        r := Fail(StreamFailed(stream.failure.value));
      } else {
        events := events + [StreamEnd(eventId, false)];
        AppendEvents(relayedFrom, Relayed(eventId, stream, interruption), [StreamEnd(eventId, false)]);
        r := Pass;
      }
      activeStreams := activeStreams - {eventId};
      RemoveRegistered(old(activeStreams), eventId, registered);
    }

    /** The effect every `handleStreamOperation` call has. */
    twostate predicate OperationFinished(providerId: string, eventId: string, stream: ProviderStream,
                                         interruption: Interruption, new r: Outcome<Error>)
      reads this
    {
      var rejection := old(OperationRejection(|activeStreams|, maxConcurrentStreams, eventId in activeStreams,
                                              providers, providerInstances, providerId));
      if rejection.Some? then
        && r == Fail(rejection.value)
        && activeStreams == old(activeStreams) && events == old(events)
        && providerInstances == old(providerInstances)
      else
        && r == (if RaisesFailure(stream, interruption) then Fail(StreamFailed(stream.failure.value)) else Pass)
        && !IsGenerating(eventId)
        && activeStreams == old(activeStreams)
        && events == old(events) + OperationEvents(eventId, stream, interruption)
        && providerInstances == CacheAfter(providers, old(providerInstances), providerId)
    }

    /** `startStreamSummary`: `handleStreamOperation` over the adapter's
        summary stream. */
    method StartStreamSummary(providerId: string, modelId: string, eventId: string,
                              summaryStream: ProviderStream, interruption: Interruption)
      returns (r: Outcome<Error>)
      requires Valid()
      modifies this`activeStreams, this`events, this`providerInstances
      ensures OperationFinished(providerId, eventId, summaryStream, interruption, r)
    {
      r := HandleStreamOperation(providerId, modelId, eventId, summaryStream, interruption);
    }

    /** `startStreamText`: `handleStreamOperation` over the adapter's text
        generation stream. */
    method StartStreamText(providerId: string, modelId: string, eventId: string,
                           textStream: ProviderStream, interruption: Interruption)
      returns (r: Outcome<Error>)
      requires Valid()
      modifies this`activeStreams, this`events, this`providerInstances
      ensures OperationFinished(providerId, eventId, textStream, interruption, r)
    {
      r := HandleStreamOperation(providerId, modelId, eventId, textStream, interruption);
    }
  }
}

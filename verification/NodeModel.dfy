/**
 * What a node's message handlers do to its tables (node/node.cpp, node/request_pipeline.cpp, node/data_pipeline.cpp).
 */
module NodeModel {
  import opened Collections
  import opened Text
  import opened Wire
  import opened Bloom
  import opened Sends
  import Aggregator
  import ContentTables
  import FallbackTables
  import QueryLimiter
  import QueryTables
  import SyncTables

  datatype KeyValue = KeyValue(key: string, value: string)

  /** The fields of Config that the protocol reads. Endpoints are node numbers. */
  datatype Config = Config(
    nodeId: string, neighbors: seq<nat>, seeds: seq<KeyValue>, requests: seq<string>, requestTtl: int32,
    queryTtl: int, syncCapacity: nat,
    contentBits: nat, contentHashes: nat, contentTtl: int32, fallbackWindow: int,
    batching: Aggregator.Params, queryBfTtl: int, limits: QueryLimiter.Limits,
    asyncForward: bool, workers: nat, queueMax: nat)

  /** The ranges validate_config enforces, as far as the proofs need them. */
  predicate ValidConfig(c: Config) {
    && c.nodeId != "" && c.requestTtl > 0 && c.fallbackWindow > 0
    && c.contentBits > 0 && c.contentHashes > 0
    && c.batching.bitCount > 0 && c.batching.hashCount > 0
  }

  /** The state that a node's threads share. */
  datatype Core = Core(
    redis: map<string, string>, localKeys: set<string>, counter: uint64,
    query: QueryTables.QueryState, content: ContentTables.ContentState,
    fallback: map<string, FallbackTables.Entry>, agg: Aggregator.State,
    limiter: map<string, QueryLimiter.Entry>, sync: SyncTables.SyncState,
    queue: seq<Item>, started: bool)

  function InitialCore(c: Config): Core {
    Core(map[], {}, 0, QueryTables.FRESH,
         ContentTables.ContentState(Empty(c.contentBits, c.contentHashes), map[]),
         map[], Aggregator.FRESH, map[], SyncTables.FRESH, [], false)
  }

  /** SET can fail before it took effect, or after, when only the reply is lost. */
  datatype SetOutcome = Stored | Refused | ReplyLost

  /** Everything a handler reads from outside: clocks, Redis failures, bucket orders. */
  datatype Env = Env(
    pruneNow: int, recordNow: int, now: int, wallMs: uint64,
    getFails: set<string>, setOutcome: SetOutcome, keyOrder: seq<string>, idMillis: seq<uint64>)

  /** A handler's effect: the new shared state and the sends it issued, in order. */
  datatype Effect = Effect(core: Core, items: seq<Item>)

  function Get(core: Core, key: string, fails: bool): Option<string> {
    if !fails && key in core.redis then Some(core.redis[key]) else None
  }

  /** record_local_key. */
  function RecordLocal(core: Core, key: string): Core
    requires WellSized(core.content.local)
  {
    core.(localKeys := core.localKeys + {key}, content := core.content.(local := Add(core.content.local, key)))
  }

  /** request_counter_ after n more ids: 64 bits, wrapping. */
  function Advance(counter: uint64, n: nat): uint64 {
    (counter + n) % TWO_64
  }

  lemma AdvanceStep(counter: uint64, n: nat)
    ensures Advance(Advance(counter, n), 1) == Advance(counter, n + 1)
  {}

  function MakeRequestId(nodeId: string, millis: uint64, counter: uint64): string {
    nodeId + ['-'] + NatToString(millis) + ['-'] + NatToString(counter)
  }

  /** Request ids of distinct nodes, or with distinct counters on one node, never collide. */
  lemma RequestIdsUnique(node1: string, millis1: uint64, counter1: uint64, node2: string, millis2: uint64,
                         counter2: uint64)
    requires MakeRequestId(node1, millis1, counter1) == MakeRequestId(node2, millis2, counter2)
    ensures node1 == node2 && millis1 == millis2 && counter1 == counter2
  {
    var head1, head2 := node1 + ['-'] + NatToString(millis1), node2 + ['-'] + NatToString(millis2);
    LastSeparator(head1, head2, NatToString(counter1), NatToString(counter2), '-');
    LastSeparator(node1, node2, NatToString(millis1), NatToString(millis2), '-');
    NatToStringInjective(millis1, millis2);
    NatToStringInjective(counter1, counter2);
  }

  /** An instance, which fixes the form: name, milliseconds, counter. */
  lemma RequestIdText()
    ensures MakeRequestId("node", 70, 2) == "node-70-2"
  {
    assert NatToString(70) == NatToString(7) + [DigitChar(0)];
  }

  // ---------- REQ ----------

  datatype RequestDecision =
    | DropInvalid(reason: string) | DropTtl | DropDuplicate | ServeLocal(value: string) | Forward(ttl: int32)

  function InvalidRequest(m: Message): string {
    if m.requestId == "" then "missing_request_id"
    else if m.origin == "" then "missing_origin"
    else if m.key == "" then "missing_key"
    else ""
  }

  function QueryCall(m: Message, env: Env): QueryTables.Call {
    QueryTables.Call(m.requestId, env.pruneNow, env.recordNow)
  }

  /** RequestPipeline::run: fields, ttl, duplicate, cache, forward, in that order. */
  function DecideRequest(c: Config, core: Core, m: Message, env: Env): RequestDecision {
    if InvalidRequest(m) != "" then DropInvalid(InvalidRequest(m))
    else if m.ttl <= 0 then DropTtl
    else if !QueryTables.IsNew(core.query, QueryCall(m, env), c.queryTtl) then DropDuplicate
    else
      match Get(core, m.key, m.key in env.getFails)
      case Some(value) => ServeLocal(value)
      case None => Forward(m.ttl - 1)
  }

  /** The QueryTable is consulted, and changed, only once fields and ttl have passed. */
  function QueryAfter(c: Config, core: Core, m: Message, env: Env): QueryTables.QueryState {
    if InvalidRequest(m) != "" || m.ttl <= 0 then core.query
    else QueryTables.Record(core.query, QueryCall(m, env), c.queryTtl)
  }

  function DataFor(c: Config, requestId: string, origin: string, key: string, value: string): Message {
    Message(Data, requestId, origin, c.requestTtl, key, value)
  }

  function HandleRequest(c: Config, core: Core, m: Message, from: nat, hops: nat, env: Env): Effect
    requires WellSized(core.content.local)
  {
    var seen := core.(query := QueryAfter(c, core, m, env));
    match DecideRequest(c, core, m, env)
    case ServeLocal(value) =>
      Effect(RecordLocal(seen, m.key),
             [Direct(DataFor(c, m.requestId, m.origin, m.key, value), 0, from, Some(Served(m.key, m.origin)))])
    case Forward(ttl) => Effect(seen, [Broadcast(m.(ttl := ttl), hops + 1, Some(from))])
    case _ => Effect(seen, [])
  }

  // ---------- DATA ----------

  datatype DataDecision = DropBadData(reason: string) | DropNotOrigin | StoreLocal

  function InvalidData(m: Message): string {
    if m.requestId == "" then "missing_request_id"
    else if m.origin == "" then "missing_origin"
    else if m.key == "" then "missing_key"
    else if m.ttl <= 0 then "non_positive_ttl"
    else ""
  }

  function DecideData(c: Config, m: Message): DataDecision {
    if InvalidData(m) != "" then DropBadData(InvalidData(m))
    else if m.origin != c.nodeId then DropNotOrigin
    else StoreLocal
  }

  function HandleData(c: Config, core: Core, m: Message, env: Env): Effect
    requires WellSized(core.content.local)
  {
    if !DecideData(c, m).StoreLocal? || env.setOutcome.Refused? then Effect(core, [])
    else
      var written := core.(redis := core.redis[m.key := m.value]);
      if env.setOutcome.ReplyLost? then Effect(written, [])
      else
        var cancelled := written.(fallback := FallbackTables.Cancel(written.fallback, m.key, m.origin));
        Effect(RecordLocal(cancelled, m.key), [])
  }

  // ---------- CBF ----------

  function HandleContentBloom(c: Config, core: Core, m: Message, from: nat, env: Env): Effect {
    if m.origin == "" || m.key == "" then Effect(core, [])
    else
      match FromHex(c.contentBits, c.contentHashes, m.key)
      case None => Effect(core, [])
      case Some(f) =>
        var neighbors := core.content.neighbors[from := ContentTables.Neighbor(f, env.now)];
        Effect(core.(content := core.content.(neighbors := neighbors)), [])
  }

  // ---------- QBF ----------

  function Age(nowMs: uint64, createdMs: uint64): uint64 {
    if nowMs >= createdMs then nowMs - createdMs else 0
  }

  /** The filter of a Query-BF that passes every check before the keys are looked at. */
  function AcceptedQuery(c: Config, m: Message, env: Env): Option<Filter> {
    if m.origin == "" || m.ttl <= 0 || m.key == "" || m.value == "" then None
    else
      match ParseUint64(m.value)
      case None => None
      case Some(created) =>
        if Age(env.wallMs, created) > c.queryBfTtl % TWO_64 then None // the int is cast to 64 unsigned bits
        else FromHex(c.batching.bitCount, c.batching.hashCount, m.key)
  }

  /** A Query-BF is looked at exactly if nothing is missing, its time can be read and it is no older than the ttl. */
  lemma AcceptedExactly(c: Config, m: Message, env: Env)
    ensures AcceptedQuery(c, m, env) ==
            if m.origin != "" && m.ttl > 0 && m.key != "" && m.value != "" && ParseUint64(m.value).Some?
               && env.wallMs <= ParseUint64(m.value).value + c.queryBfTtl % TWO_64
            then FromHex(c.batching.bitCount, c.batching.hashCount, m.key)
            else None
  {
    hide FromHex, ParseUint64;
  }

  predicate Answers(core: Core, f: Filter, key: string, env: Env) {
    Contains(f, key) && Get(core, key, key in env.getFails).Some?
  }

  function MillisAt(env: Env, i: nat): uint64 {
    if i < |env.idMillis| then env.idMillis[i] else 0
  }

  /** The DATA sends of one Query-BF over the first keys of the snapshot; each one draws a request id. */
  function Replies(c: Config, core: Core, f: Filter, origin: string, from: nat, keys: seq<string>,
                   env: Env): seq<Item> {
    if keys == [] then []
    else
      var key, before := keys[|keys| - 1], Replies(c, core, f, origin, from, keys[..|keys| - 1], env);
      if Answers(core, f, key, env) then
        var id := MakeRequestId(c.nodeId, MillisAt(env, |before|), Advance(core.counter, |before|));
        before + [Direct(DataFor(c, id, origin, key, core.redis[key]), 0, from, Some(Served(key, origin)))]
      else before
  }

  function LimiterCall(m: Message, f: Filter, env: Env): QueryLimiter.Call {
    QueryLimiter.Call(QueryLimiter.MakeKey(m.origin, Digest(f)), env.now)
  }

  function HandleQueryBloom(c: Config, core: Core, m: Message, from: nat, hops: nat, env: Env): Effect {
    match AcceptedQuery(c, m, env)
    case None => Effect(core, [])
    case Some(f) =>
      var replies := Replies(c, core, f, m.origin, from, env.keyOrder, env);
      var served := core.(counter := Advance(core.counter, |replies|));
      if m.ttl - 1 <= 0 then Effect(served, replies)
      else
        var call := LimiterCall(m, f, env);
        var counted := served.(limiter := QueryLimiter.After(core.limiter, call, c.limits));
        if !QueryLimiter.Allows(core.limiter, call, c.limits) then Effect(counted, replies)
        else Effect(counted, replies + [Broadcast(m.(ttl := m.ttl - 1), hops + 1, Some(from))])
  }

  /** A Query-BF older than the ttl has no effect whatever. */
  lemma ExpiredIsDropped(c: Config, core: Core, m: Message, from: nat, hops: nat, env: Env)
    requires 0 <= c.queryBfTtl < TWO_64
    requires ParseUint64(m.value).Some? && env.wallMs > ParseUint64(m.value).value + c.queryBfTtl
    ensures HandleQueryBloom(c, core, m, from, hops, env) == Effect(core, [])
  {
    AcceptedExactly(c, m, env);
    hide AcceptedQuery, FromHex, ParseUint64, Replies, LimiterCall;
  }

  /** One that is not, and of this node's own filter parameters, is answered, whatever the clocks say otherwise. */
  lemma {:induction false} UnexpiredIsAnswered(c: Config, core: Core, m: Message, from: nat, hops: nat, env: Env)
    requires 0 <= c.queryBfTtl < TWO_64 && m.origin != "" && m.ttl > 0 && m.key != "" && m.value != ""
    requires ParseUint64(m.value).Some? && env.wallMs <= ParseUint64(m.value).value + c.queryBfTtl
    requires FromHex(c.batching.bitCount, c.batching.hashCount, m.key).Some?
    ensures var f := FromHex(c.batching.bitCount, c.batching.hashCount, m.key).value;
            var replies := Replies(c, core, f, m.origin, from, env.keyOrder, env);
            && AcceptedQuery(c, m, env) == Some(f)
            && replies <= HandleQueryBloom(c, core, m, from, hops, env).items
            && |HandleQueryBloom(c, core, m, from, hops, env).items| <= |replies| + 1
  {
    AcceptedExactly(c, m, env);
    hide AcceptedQuery, FromHex, ParseUint64, Replies, LimiterCall, QueryLimiter.After, QueryLimiter.Allows;
  }

  // ---------- dispatch ----------

  /** handle_wire_message after parsing. */
  function Handle(c: Config, core: Core, m: Message, from: nat, hops: nat, env: Env): Effect
    requires WellSized(core.content.local)
  {
    match m.kind
    case Request => HandleRequest(c, core, m, from, hops, env)
    case Data => HandleData(c, core, m, env)
    case ContentBloom => HandleContentBloom(c, core, m, from, env)
    case QueryBloom => HandleQueryBloom(c, core, m, from, hops, env)
    case Unknown => Effect(core, [])
  }

  // ---------- messages the threads make ----------

  function RequestFor(c: Config, key: string, millis: uint64, counter: uint64): Message {
    Message(Request, MakeRequestId(c.nodeId, millis, counter), c.nodeId, c.requestTtl, key, "")
  }

  function SummaryOf(c: Config, f: Filter): Message {
    Message(ContentBloom, "", c.nodeId, c.contentTtl, ToHex(f), "")
  }

  function QueryOf(c: Config, b: Aggregator.Batch): Message {
    Message(QueryBloom, Aggregator.MakeBatchId(b.origin, b.createdMs), b.origin, c.requestTtl,
            ToHex(Aggregator.FilterOf(c.batching, b.keys)), IntToString(b.createdMs))
  }
}

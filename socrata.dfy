/**
 * The request-batching core of lib/socrata.rb.
 *
 * A client is either in direct mode, where each request function sends its
 * request and checks the answer for an error, or in batching mode, where
 * each request function only appends a `{url, requestType, body}` record to
 * the batch queue.  `batch_request` switches batching on, runs the caller's
 * block, switches it off and flushes the queue as one POST to /batches.
 *
 * The behaviour is first written as functions over `State` (the flag, the
 * queue and the transport log); the `Session` class then implements it with
 * fields updated in place and is proved equal to those functions.
 */
module Socrata {
  import opened RubyValue
  import opened Http

  /** One queued request; GET records carry no `:body` key at all. */
  datatype Req = Req(url: string, verb: Verb, body: Option<Value>)

  /** The hash `@batch_queue << {...}` appends. */
  function ReqValue(r: Req): Value {
    Hash([(Sym("url"), Str(r.url))]
      + (if r.body.Some? then [(Sym("body"), r.body.value)] else [])
      + [(Sym("requestType"), Str(VerbName(r.verb)))])
  }

  function QueueValue(q: seq<Req>): (v: Value)
    ensures v.Arr? && |v.elems| == |q|
    ensures forall i :: 0 <= i < |q| ==> v.elems[i] == ReqValue(q[i])
  {
    Arr(seq(|q|, i requires 0 <= i < |q| => ReqValue(q[i])))
  }

  function VerbOf(name: string): Option<Verb> {
    if name == "GET" then Some(GET)
    else if name == "POST" then Some(POST)
    else if name == "PUT" then Some(PUT)
    else if name == "DELETE" then Some(DELETE)
    else None
  }

  /** Reads a queued record back; the inverse of `ReqValue`. */
  function ReqOf(v: Value): Option<Req> {
    if !v.Hash? then None
    else
      var kvs := v.entries;
      if |kvs| == 2 && kvs[0].0 == Sym("url") && kvs[0].1.Str? && kvs[1].0 == Sym("requestType")
         && kvs[1].1.Str? && VerbOf(kvs[1].1.s).Some?
      then Some(Req(kvs[0].1.s, VerbOf(kvs[1].1.s).value, None))
      else if |kvs| == 3 && kvs[0].0 == Sym("url") && kvs[0].1.Str? && kvs[1].0 == Sym("body")
         && kvs[2].0 == Sym("requestType") && kvs[2].1.Str? && VerbOf(kvs[2].1.s).Some?
      then Some(Req(kvs[0].1.s, VerbOf(kvs[2].1.s).value, Some(kvs[1].1)))
      else None
  }

  lemma ReqRoundTrip(r: Req)
    ensures ReqOf(ReqValue(r)) == Some(r)
  {
    assert VerbOf(VerbName(r.verb)) == Some(r.verb);
  }

  function QueueOf(es: seq<Value>): Option<seq<Req>> {
    if es == [] then Some([])
    else match (ReqOf(es[0]), QueueOf(es[1..]))
      case (Some(r), Some(rs)) => Some([r] + rs)
      case _ => None
  }

  /** The queue can be read back, entry by entry and in order, from what is posted. */
  lemma {:induction false} QueueRoundTrip(q: seq<Req>)
    ensures QueueOf(QueueValue(q).elems) == Some(q)
  {
    if q != [] {
      ReqRoundTrip(q[0]);
      QueueRoundTrip(q[1..]);
      assert QueueValue(q).elems[1..] == QueueValue(q[1..]).elems;
      assert [q[0]] + q[1..] == q;
    }
  }

  /** The JSON library's `to_json` and the server, as the client is given them. */
  datatype Env = Env(reply: (nat, Call) -> Value, toJson: Value -> string)

  /** The body of the one POST a flush sends: `{:requests => @batch_queue}.to_json`. */
  function BatchEnvelope(q: seq<Req>): Value {
    Hash([(Sym("requests"), QueueValue(q))])
  }

  function BatchCall(q: seq<Req>, toJson: Value -> string): Call {
    HttpCall(POST, "/batches", [(Sym("body"), Str(toJson(BatchEnvelope(q))))])
  }

  datatype State = State(batching: bool, queue: seq<Req>, sent: seq<Call>)

  /** `options[:body]`; nil when absent. */
  function BodyOption(options: Entries): Value {
    Fetch(options, Sym("body"))
  }

  /** `v[key]` where an earlier lookup on the same receiver already succeeded. */
  function IndexOrNil(v: Value, key: string): Value {
    match Index(v, key)
    case Ok(x) => x
    case Err(_) => Nil
  }

  function ServerErrorMessage(response: Value): string {
    "Got error from server: Code: " + ToS(IndexOrNil(response, "code"))
      + ", Message: " + ToS(IndexOrNil(response, "message"))
  }

  /** `check_error!`: the exception it raises, if any. */
  function CheckError(response: Value): (e: Option<Error>)
    ensures response.Nil? ==> e.None?
    ensures response.Hash? ==>
      (e.Some? <==> Truthy(Fetch(response.entries, Str("error"))))
  {
    if response.Nil? then None
    else match Index(response, "error")
      case Err(err) => Some(err)
      case Ok(flag) => if Truthy(flag) then Some(RuntimeError(ServerErrorMessage(response))) else None
  }

  /** A request made in direct mode: the response, unless `check_error!` raises. */
  function Checked(response: Value): (r: Result<Value>)
    ensures r.Ok? ==> r.value == response
  {
    match CheckError(response)
    case Some(e) => Err(e)
    case None => Ok(response)
  }

  /** The record `get/post/put/delete_request` would queue. */
  function Queued(verb: Verb, path: string, options: Entries): Req {
    Req(path, verb, if verb == GET then None else Some(BodyOption(options)))
  }

  /** `get_request`, `post_request`, `put_request` and `delete_request`. */
  function Request(s: State, env: Env, verb: Verb, path: string, options: Entries): (res: (State, Result<Value>))
    ensures res.0.batching == s.batching
    ensures s.batching ==> res.0.sent == s.sent && res.1.Ok?
    ensures !s.batching ==> res.0.queue == s.queue && |res.0.sent| == |s.sent| + 1 && s.sent <= res.0.sent
  {
    if s.batching then
      var q := s.queue + [Queued(verb, path, options)];
      (s.(queue := q), Ok(QueueValue(q)))
    else
      var c := HttpCall(verb, path, options);
      (s.(sent := s.sent + [c]), Checked(env.reply(|s.sent|, c)))
  }

  /** The exception raised for the erroneous reply entry `i` of a batch. */
  function EntryError(q: seq<Req>, i: nat, entry: Value): Error {
    if i >= |q| then NoMethodError           // `@batch_queue[i]` is nil
    else
      var code := IndexOrNil(entry, "errorCode");
      var message := IndexOrNil(entry, "errorMessage");
      if code.Str? && message.Str? then RuntimeError(BatchErrorMessage(q[i], code.s, message.s))
      else TypeError                         // String + non-String
  }

  function BatchErrorMessage(r: Req, code: string, message: string): string {
    "Received error in batch response for operation " + VerbName(r.verb) + " " + r.url
      + ". Error: " + code + " - " + message
  }

  /** The `each_with_index` walk over the reply from index `i` on. */
  function ScanReply(q: seq<Req>, es: seq<Value>, i: nat): Option<Error>
    decreases |es| - i
  {
    if i >= |es| then None
    else match Index(es[i], "error")
      case Err(e) => Some(e)
      case Ok(flag) => if Truthy(flag) then Some(EntryError(q, i, es[i])) else ScanReply(q, es, i + 1)
  }

  const NotAnArrayMessage := "Expected array response from a /batches request, and didn't get one."

  /** What a flush makes of the parsed reply to its POST. */
  function CheckBatchReply(q: seq<Req>, reply: Value): Result<Value> {
    if !reply.Arr? then Err(RuntimeError(NotAnArrayMessage))
    else match ScanReply(q, reply.elems, 0)
      case Some(e) => Err(e)
      case None => Ok(reply)
  }

  /** `flush_batch_queue` */
  function Flush(s: State, env: Env): (res: (State, Result<Value>))
    ensures res.0.batching == s.batching
    ensures s.sent <= res.0.sent && |res.0.sent| <= |s.sent| + 1
    ensures res.1.Ok? ==> res.0.queue == []
    ensures res.1.Err? ==> res.0.queue == s.queue
  {
    if s.queue == [] then (s, Ok(Nil))
    else
      var c := BatchCall(s.queue, env.toJson);
      var s' := s.(sent := s.sent + [c]);
      match CheckBatchReply(s.queue, env.reply(|s.sent|, c))
      case Ok(v) => (s'.(queue := []), Ok(v))
      case Err(e) => (s', Err(e))
  }

  /** A multipart upload followed by `check_error!`. */
  function UploadChecked(s: State, env: Env, path: string, filename: string, remoteName: string): (State, Result<Value>) {
    var c := Upload(path, filename, remoteName);
    (s.(sent := s.sent + [c]), Checked(env.reply(|s.sent|, c)))
  }

  /** An upload that refuses to run inside a batch (`import`, `append`, `replace`, `truncate!`). */
  function GuardedUpload(s: State, env: Env, refusal: string, path: string, filename: string, remoteName: string): (res: (State, Result<Value>))
    ensures s.batching ==> res == (s, Err(RuntimeError(refusal)))
    ensures !s.batching ==> res.0.queue == s.queue && |res.0.sent| == |s.sent| + 1 && s.sent <= res.0.sent
    ensures res.0.batching == s.batching
  {
    if s.batching then (s, Err(RuntimeError(refusal)))
    else UploadChecked(s, env, path, filename, remoteName)
  }

  const ImportRefusal := "Error: Cannot do imports as part of a batch"

  /** What the block passed to `batch_request` does, one call at a time. */
  datatype Op =
    | RequestOp(verb: Verb, path: string, options: Entries)
    | ImportOp(filename: string)
    | BatchOp(block: seq<Op>)

  /** Runs a block; it stops at the first exception, which it returns. */
  function Run(s: State, env: Env, ops: seq<Op>): (res: (State, Option<Error>))
    ensures s.sent <= res.0.sent
    decreases ops, 0
  {
    if ops == [] then (s, None)
    else
      var (s', r) := match ops[0]
        case RequestOp(verb, path, options) => Request(s, env, verb, path, options)
        case ImportOp(filename) => GuardedUpload(s, env, ImportRefusal, "/imports", filename, filename)
        case BatchOp(block) => Batch(s, env, block);
      if r.Err? then (s', Some(r.error)) else Run(s', env, ops[1..])
  }

  /**
   * `batch_request`: no nesting check, and no `ensure`, so an exception
   * from the block leaves batching switched on.
   */
  function Batch(s: State, env: Env, block: seq<Op>): (res: (State, Result<Value>))
    ensures s.sent <= res.0.sent
    ensures res.1.Ok? ==> !res.0.batching && res.0.queue == []
    decreases block, 1
  {
    var (s', err) := Run(s.(batching := true, queue := []), env, block);
    if err.Some? then (s', Err(err.value))
    else Flush(s'.(batching := false), env)
  }

  /** `create`'s payload: name and description, then `:tags` and `:flags` when given. */
  function CreatePayload(name: Value, description: Value, tags: seq<Value>, public: Value): (p: Entries)
    ensures UniqueKeys(p)
    ensures |p| == 2 + (if tags == [] then 0 else 1) + (if Truthy(public) then 1 else 0)
    ensures p[..2] == [(Str("name"), name), (Str("description"), description)]
  {
    [(Str("name"), name), (Str("description"), description)]
      + (if tags == [] then [] else [(Sym("tags"), Arr(tags))])
      + (if Truthy(public) then [(Sym("flags"), Arr([Str("dataPublic")]))] else [])
  }

  /** The payload holds `:tags` only when tags were given and `:flags` only for a public view. */
  lemma CreatePayloadFields(name: Value, description: Value, tags: seq<Value>, public: Value)
    ensures var p := CreatePayload(name, description, tags, public);
      && Get(p, Str("name")) == Some(name) && Get(p, Str("description")) == Some(description)
      && Get(p, Sym("tags")) == (if tags == [] then None else Some(Arr(tags)))
      && Get(p, Sym("flags")) == (if Truthy(public) then Some(Arr([Str("dataPublic")])) else None)
  {
    var p := CreatePayload(name, description, tags, public);
    var head := [(Str("name"), name), (Str("description"), description)];
    var t: Entries := if tags == [] then [] else [(Sym("tags"), Arr(tags))];
    var f: Entries := if Truthy(public) then [(Sym("flags"), Arr([Str("dataPublic")]))] else [];
    assert p == head + (t + f);
    GetAppend(head, t + f, Sym("tags"));
    GetAppend(head, t + f, Sym("flags"));
    GetAppend(t, f, Sym("tags"));
    GetAppend(t, f, Sym("flags"));
  }

  // ---------------------------------------------------------------------------
  // Properties of the batching functions
  // ---------------------------------------------------------------------------

  /** While batching, a request only appends its record and sends nothing. */
  lemma RequestWhileBatching(s: State, env: Env, verb: Verb, path: string, options: Entries)
    requires s.batching
    ensures var (s', r) := Request(s, env, verb, path, options);
      && s'.batching && s'.sent == s.sent
      && |s'.queue| == |s.queue| + 1 && s'.queue[..|s.queue|] == s.queue
      && s'.queue[|s.queue|].url == path && s'.queue[|s.queue|].verb == verb
      && s'.queue[|s.queue|].body == (if verb == GET then None else Some(Fetch(options, Sym("body"))))
      && r == Ok(QueueValue(s'.queue))
  {
    var q := s.queue + [Queued(verb, path, options)];
    assert q[..|s.queue|] == s.queue;
  }

  /** In direct mode a request sends exactly its own call and returns the answer unless it holds an error. */
  lemma RequestDirect(s: State, env: Env, verb: Verb, path: string, options: Entries)
    requires !s.batching
    ensures var (s', r) := Request(s, env, verb, path, options);
      var answer := env.reply(|s.sent|, HttpCall(verb, path, options));
      && s'.sent == s.sent + [HttpCall(verb, path, options)]
      && s'.queue == s.queue && !s'.batching
      && (answer.Nil? ==> r == Ok(Nil))
      && (answer.Hash? && !Truthy(Fetch(answer.entries, Str("error"))) ==> r == Ok(answer))
      && (answer.Hash? && Truthy(Fetch(answer.entries, Str("error"))) ==>
            r == Err(RuntimeError(ServerErrorMessage(answer))))
  {
  }

  /** `check_error!` raises exactly on a non-nil answer whose `error` is truthy (or cannot be read). */
  lemma CheckErrorIff(response: Value)
    ensures CheckError(response).Some? <==>
      !response.Nil? && (Index(response, "error").Err? || Truthy(Index(response, "error").value))
  {
  }

  predicate EntryOk(e: Value) {
    Index(e, "error").Ok? && !Truthy(Index(e, "error").value)
  }

  /** The walk finds nothing exactly when every entry from `i` on has a falsy `error`. */
  lemma {:induction false} ScanReplyNone(q: seq<Req>, es: seq<Value>, i: nat)
    ensures ScanReply(q, es, i).None? <==> forall j :: i <= j < |es| ==> EntryOk(es[j])
    decreases |es| - i
  {
    if i < |es| {
      ScanReplyNone(q, es, i + 1);
    }
  }

  /** The walk reports the FIRST bad entry, whatever follows it. */
  lemma {:induction false} ScanReplyFirst(q: seq<Req>, es: seq<Value>, i: nat, k: nat)
    requires i <= k < |es|
    requires forall j :: i <= j < k ==> EntryOk(es[j])
    requires !EntryOk(es[k])
    ensures ScanReply(q, es, i) == Some(
      if Index(es[k], "error").Err? then Index(es[k], "error").error else EntryError(q, k, es[k]))
    decreases k - i
  {
    if i < k {
      ScanReplyFirst(q, es, i + 1, k);
    }
  }

  /** Entries after the first bad one are not examined. */
  lemma {:induction false} ScanReplyIgnoresRest(q: seq<Req>, es: seq<Value>, es': seq<Value>, k: nat)
    requires k < |es| && k < |es'| && es[..k + 1] == es'[..k + 1]
    requires forall j :: 0 <= j < k ==> EntryOk(es[j])
    requires !EntryOk(es[k])
    ensures ScanReply(q, es, 0) == ScanReply(q, es', 0)
  {
    forall j | 0 <= j <= k ensures es[j] == es'[j] {
      assert es[j] == es[..k + 1][j];
    }
    ScanReplyFirst(q, es, 0, k);
    ScanReplyFirst(q, es', 0, k);
  }

  /**
   * The message raised for the first entry `k` whose `error` is truthy names
   * the request queued at index `k` and the server's code and message.
   */
  lemma BatchErrorNamesQueuedRequest(q: seq<Req>, es: seq<Value>, k: nat)
    requires k < |es| && k < |q|
    requires forall j :: 0 <= j < k ==> EntryOk(es[j])
    requires es[k].Hash?
    requires Truthy(Fetch(es[k].entries, Str("error")))
    requires Fetch(es[k].entries, Str("errorCode")).Str? && Fetch(es[k].entries, Str("errorMessage")).Str?
    ensures CheckBatchReply(q, Arr(es)) == Err(RuntimeError(BatchErrorMessage(q[k],
      Fetch(es[k].entries, Str("errorCode")).s, Fetch(es[k].entries, Str("errorMessage")).s)))
  {
    ScanReplyFirst(q, es, 0, k);
  }

  /** A reply is accepted iff it is an array with no erroneous entry; it is returned as is. */
  lemma CheckBatchReplyOk(q: seq<Req>, reply: Value)
    ensures CheckBatchReply(q, reply).Ok? <==>
      reply.Arr? && forall j :: 0 <= j < |reply.elems| ==> EntryOk(reply.elems[j])
    ensures CheckBatchReply(q, reply).Ok? ==> CheckBatchReply(q, reply).value == reply
    ensures !reply.Arr? ==> CheckBatchReply(q, reply) == Err(RuntimeError(NotAnArrayMessage))
  {
    if reply.Arr? {
      ScanReplyNone(q, reply.elems, 0);
    }
  }

  /** Flushing an empty queue sends nothing and returns nil. */
  lemma FlushEmpty(s: State, env: Env)
    requires s.queue == []
    ensures Flush(s, env) == (s, Ok(Nil))
  {
  }

  /**
   * Flushing a non-empty queue sends exactly one POST to /batches carrying the
   * queue in order; the queue is cleared if and only if no exception is raised.
   */
  lemma FlushNonEmpty(s: State, env: Env)
    requires s.queue != []
    ensures var (s', r) := Flush(s, env);
      && s'.sent == s.sent + [BatchCall(s.queue, env.toJson)]
      && s'.batching == s.batching
      && r == CheckBatchReply(s.queue, env.reply(|s.sent|, BatchCall(s.queue, env.toJson)))
      && (r.Ok? ==> s'.queue == [])
      && (r.Err? ==> s'.queue == s.queue)
  {
  }

  /** The records a block made only of requests queues, in order. */
  function Records(ops: seq<Op>): (q: seq<Req>)
    requires forall i :: 0 <= i < |ops| ==> ops[i].RequestOp?
    ensures |q| == |ops|
    ensures forall i :: 0 <= i < |ops| ==>
      q[i] == Queued(ops[i].verb, ops[i].path, ops[i].options)
  {
    if ops == [] then [] else [Queued(ops[0].verb, ops[0].path, ops[0].options)] + Records(ops[1..])
  }

  /** While batching, the first request of a block only queues its record; the rest runs after it. */
  lemma RunQueuedStep(s: State, env: Env, ops: seq<Op>)
    requires s.batching && ops != [] && ops[0].RequestOp?
    ensures Run(s, env, ops)
      == Run(s.(queue := s.queue + [Queued(ops[0].verb, ops[0].path, ops[0].options)]), env, ops[1..])
  {
    var q := s.queue + [Queued(ops[0].verb, ops[0].path, ops[0].options)];
    assert Request(s, env, ops[0].verb, ops[0].path, ops[0].options) == (s.(queue := q), Ok(QueueValue(q)));
  }

  /** Queuing `x` and then `rest` queues `[x] + rest`. */
  lemma QueueAppendStep(s: State, x: Req, rest: seq<Req>)
    ensures var s1 := s.(queue := s.queue + [x]);
      s1.(queue := s1.queue + rest) == s.(queue := s.queue + ([x] + rest))
  {
    assert (s.queue + [x]) + rest == s.queue + ([x] + rest);
  }

  /** While batching, a block of requests appends one record per call, in call order. */
  lemma {:induction false} RunRequestsWhileBatching(s: State, env: Env, ops: seq<Op>)
    requires s.batching
    requires forall i :: 0 <= i < |ops| ==> ops[i].RequestOp?
    ensures Run(s, env, ops) == (s.(queue := s.queue + Records(ops)), None)
    decreases |ops|
  {
    if ops != [] {
      var x := Queued(ops[0].verb, ops[0].path, ops[0].options);
      var s1 := s.(queue := s.queue + [x]);
      RunQueuedStep(s, env, ops);
      RunRequestsWhileBatching(s1, env, ops[1..]);
      assert Records(ops) == [x] + Records(ops[1..]);
      QueueAppendStep(s, x, Records(ops[1..]));
    } else {
      assert s.queue + Records(ops) == s.queue;
    }
  }

  /**
   * `batch_request` with a block of N requests: nothing is sent while the
   * block runs; then, for N > 0, exactly one POST to /batches holding the N
   * records in call order; for N = 0 nothing at all and the result is nil.
   * Batching is off afterwards, and the queue is empty iff the flush succeeded.
   */
  lemma BatchOfRequests(s: State, env: Env, ops: seq<Op>)
    requires forall i :: 0 <= i < |ops| ==> ops[i].RequestOp?
    ensures var (s', r) := Batch(s, env, ops);
      && !s'.batching
      && (ops == [] ==> s'.sent == s.sent && s'.queue == [] && r == Ok(Nil))
      && (ops != [] ==>
            && s'.sent == s.sent + [BatchCall(Records(ops), env.toJson)]
            && r == CheckBatchReply(Records(ops), env.reply(|s.sent|, BatchCall(Records(ops), env.toJson)))
            && s'.queue == (if r.Ok? then [] else Records(ops)))
  {
    var s0 := s.(batching := true, queue := []);
    RunRequestsWhileBatching(s0, env, ops);
    assert [] + Records(ops) == Records(ops);
  }

  /**
   * An import inside the block raises: nothing is uploaded, batching stays
   * on and the records queued before it stay in the queue.
   */
  lemma BatchWithImportRaises(s: State, env: Env, pre: seq<Op>, filename: string, post: seq<Op>)
    requires forall i :: 0 <= i < |pre| ==> pre[i].RequestOp?
    ensures var (s', r) := Batch(s, env, pre + [ImportOp(filename)] + post);
      && r == Err(RuntimeError(ImportRefusal))
      && s'.batching && s'.sent == s.sent && s'.queue == Records(pre)
  {
    var s0 := s.(batching := true, queue := []);
    RunPrefix(s0, env, pre, [ImportOp(filename)] + post);
    RunRequestsWhileBatching(s0, env, pre);
    assert pre + [ImportOp(filename)] + post == pre + ([ImportOp(filename)] + post);
    assert [] + Records(pre) == Records(pre);
  }

  /** Running `a + b` runs `a`, then, if `a` raised nothing, `b`. */
  lemma {:induction false} RunPrefix(s: State, env: Env, a: seq<Op>, b: seq<Op>)
    ensures Run(s, env, a + b) ==
      (var (s', err) := Run(s, env, a); if err.Some? then (s', err) else Run(s', env, b))
    decreases |a|
  {
    if a != [] {
      assert (a + b)[0] == a[0];
      assert (a + b)[1..] == a[1..] + b;
      var (s1, r) := match a[0]
        case RequestOp(verb, path, options) => Request(s, env, verb, path, options)
        case ImportOp(filename) => GuardedUpload(s, env, ImportRefusal, "/imports", filename, filename)
        case BatchOp(block) => Batch(s, env, block);
      if r.Ok? {
        RunPrefix(s1, env, a[1..], b);
      }
    } else {
      assert a + b == b;
    }
  }

  /**
   * No nesting check: an inner `batch_request` restarts the queue, so the
   * records queued by the outer block before it are never sent; the inner
   * flush is the only POST, and the outer flush finds an empty queue.
   */
  lemma NestedBatchDropsOuterRecords(s: State, env: Env, pre: seq<Op>, inner: seq<Op>)
    requires forall i :: 0 <= i < |pre| ==> pre[i].RequestOp?
    requires forall i :: 0 <= i < |inner| ==> inner[i].RequestOp?
    requires inner != []
    requires CheckBatchReply(Records(inner), env.reply(|s.sent|, BatchCall(Records(inner), env.toJson))).Ok?
    ensures var (s', r) := Batch(s, env, pre + [BatchOp(inner)]);
      && s'.sent == s.sent + [BatchCall(Records(inner), env.toJson)]
      && r == Ok(Nil) && !s'.batching && s'.queue == []
  {
    var s0 := s.(batching := true, queue := []);
    RunPrefix(s0, env, pre, [BatchOp(inner)]);
    RunRequestsWhileBatching(s0, env, pre);
    var s1 := s0.(queue := s0.queue + Records(pre));
    BatchOfRequests(s1, env, inner);
    var (s2, r2) := Batch(s1, env, inner);
    assert r2.Ok? && s2.queue == [];
    assert Run(s1, env, [BatchOp(inner)]) == (s2, None);
    assert Run(s0, env, pre + [BatchOp(inner)]) == (s2, None);
    assert Flush(s2.(batching := false), env) == (s2.(batching := false), Ok(Nil));
  }

  /**
   * When the inner block raises, the exception leaves both blocks: batching
   * stays on, nothing is sent, the outer block's later calls never run, and
   * the queue holds what the inner block queued before raising.
   */
  lemma NestedBatchInnerRaises(s: State, env: Env, pre: seq<Op>, innerPre: seq<Op>, filename: string, post: seq<Op>)
    requires forall i :: 0 <= i < |pre| ==> pre[i].RequestOp?
    requires forall i :: 0 <= i < |innerPre| ==> innerPre[i].RequestOp?
    ensures var (s', r) := Batch(s, env, pre + [BatchOp(innerPre + [ImportOp(filename)])] + post);
      && r == Err(RuntimeError(ImportRefusal))
      && s'.batching && s'.sent == s.sent && s'.queue == Records(innerPre)
  {
    var inner := innerPre + [ImportOp(filename)];
    var s0 := s.(batching := true, queue := []);
    RunPrefix(s0, env, pre, [BatchOp(inner)] + post);
    RunRequestsWhileBatching(s0, env, pre);
    var s1 := s0.(queue := s0.queue + Records(pre));
    BatchWithImportRaises(s1, env, innerPre, filename, []);
    assert inner + [] == inner;
    assert pre + [BatchOp(inner)] + post == pre + ([BatchOp(inner)] + post);
  }

  /** An import outside any batch is uploaded; inside one it is refused before any upload. */
  lemma ImportGuard(s: State, env: Env, filename: string)
    ensures s.batching ==>
      GuardedUpload(s, env, ImportRefusal, "/imports", filename, filename) == (s, Err(RuntimeError(ImportRefusal)))
    ensures !s.batching ==>
      GuardedUpload(s, env, ImportRefusal, "/imports", filename, filename).0.sent
        == s.sent + [Upload("/imports", filename, filename)]
  {
  }

  // ---------------------------------------------------------------------------
  // The client object
  // ---------------------------------------------------------------------------

  /**
   * The batching state of one `Socrata` object (a client, or a View, which
   * is a Socrata of its own).  The transport is shared.
   */
  class Session {
    var batching: bool
    var queue: seq<Req>
    const transport: Transport
    const toJson: Value -> string

    ghost function St(): State
      reads this, transport
    {
      State(batching, queue, transport.sent)
    }

    function Environment(): Env {
      Env(transport.reply, toJson)
    }

    ghost predicate Valid()
      reads this, transport
    {
      transport.Valid()
    }

    /** `initialize`: batching off, queue empty. */
    constructor (transport: Transport, toJson: Value -> string)
      requires transport.Valid()
      ensures Valid()
      ensures this.transport == transport && this.toJson == toJson
      ensures !batching && queue == []
      ensures transport.sent == old(transport.sent)
    {
      this.transport := transport;
      this.toJson := toJson;
      batching := false;
      queue := [];
    }

    method Dispatch(verb: Verb, path: string, options: Entries) returns (r: Result<Value>)
      requires Valid()
      modifies this, transport
      ensures Valid()
      ensures (St(), r) == Request(old(St()), Environment(), verb, path, options)
    {
      if batching {
        queue := queue + [Queued(verb, path, options)];
        r := Ok(QueueValue(queue));
      } else {
        var response := transport.Send(HttpCall(verb, path, options));
        r := Checked(response);
      }
    }

    method GetRequest(path: string, options: Entries) returns (r: Result<Value>)
      requires Valid()
      modifies this, transport
      ensures Valid()
      ensures (St(), r) == Request(old(St()), Environment(), GET, path, options)
    {
      r := Dispatch(GET, path, options);
    }

    method PostRequest(path: string, options: Entries) returns (r: Result<Value>)
      requires Valid()
      modifies this, transport
      ensures Valid()
      ensures (St(), r) == Request(old(St()), Environment(), POST, path, options)
    {
      r := Dispatch(POST, path, options);
    }

    method PutRequest(path: string, options: Entries) returns (r: Result<Value>)
      requires Valid()
      modifies this, transport
      ensures Valid()
      ensures (St(), r) == Request(old(St()), Environment(), PUT, path, options)
    {
      r := Dispatch(PUT, path, options);
    }

    method DeleteRequest(path: string, options: Entries) returns (r: Result<Value>)
      requires Valid()
      modifies this, transport
      ensures Valid()
      ensures (St(), r) == Request(old(St()), Environment(), DELETE, path, options)
    {
      r := Dispatch(DELETE, path, options);
    }

    method FlushBatchQueue() returns (r: Result<Value>)
      requires Valid()
      modifies this, transport
      ensures Valid()
      ensures (St(), r) == Flush(old(St()), Environment())
    {
      if queue == [] {
        return Ok(Nil);
      }
      var reply := transport.Send(BatchCall(queue, toJson));
      if !reply.Arr? {
        return Err(RuntimeError(NotAnArrayMessage));
      }
      var i := 0;
      while i < |reply.elems|
        invariant 0 <= i <= |reply.elems|
        invariant ScanReply(queue, reply.elems, i) == ScanReply(queue, reply.elems, 0)
        invariant Valid() && St() == old(St()).(sent := old(St()).sent + [BatchCall(queue, toJson)])
      {
        var flag := Index(reply.elems[i], "error");
        if flag.Err? {
          return Err(flag.error);
        }
        if Truthy(flag.value) {
          return Err(EntryError(queue, i, reply.elems[i]));
        }
        i := i + 1;
      }
      queue := [];
      r := Ok(reply);
    }

    method UploadFile(path: string, filename: string, remoteName: string) returns (r: Result<Value>)
      requires Valid()
      modifies transport
      ensures Valid()
      ensures (St(), r) == UploadChecked(old(St()), Environment(), path, filename, remoteName)
    {
      var response := transport.Send(Upload(path, filename, remoteName));
      r := Checked(response);
    }

    /** `import`; the View wrapped around the answer is left to the caller. */
    method Import(filename: string) returns (r: Result<Value>)
      requires Valid()
      modifies transport
      ensures Valid()
      ensures (St(), r) == GuardedUpload(old(St()), Environment(), ImportRefusal, "/imports", filename, filename)
    {
      if batching {
        return Err(RuntimeError(ImportRefusal));
      }
      r := UploadFile("/imports", filename, filename);
    }

    method RunBlock(ops: seq<Op>) returns (err: Option<Error>)
      requires Valid()
      modifies this, transport
      ensures Valid()
      ensures (St(), err) == Run(old(St()), Environment(), ops)
      decreases ops, 0
    {
      var i := 0;
      while i < |ops|
        invariant 0 <= i <= |ops|
        invariant Valid()
        invariant Run(old(St()), Environment(), ops) == Run(St(), Environment(), ops[i..])
        decreases |ops| - i
      {
        assert ops[i..][1..] == ops[i + 1..];
        var r: Result<Value>;
        match ops[i] {
          case RequestOp(verb, path, options) =>
            r := Dispatch(verb, path, options);
          case ImportOp(filename) =>
            r := Import(filename);
          case BatchOp(block) =>
            r := BatchRequest(block);
        }
        if r.Err? {
          return Some(r.error);
        }
        i := i + 1;
      }
      err := None;
    }

    /** `batch_request` */
    method BatchRequest(block: seq<Op>) returns (r: Result<Value>)
      requires Valid()
      modifies this, transport
      ensures Valid()
      ensures (St(), r) == Batch(old(St()), Environment(), block)
      decreases block, 1
    {
      batching := true;
      queue := [];
      var err := RunBlock(block);
      if err.Some? {
        return Err(err.value);
      }
      batching := false;
      r := FlushBatchQueue();
    }

    /** `create`: posts the new view's payload; the View wrapped around the answer is left to the caller. */
    method Create(name: Value, description: Value, tags: seq<Value>, public: Value) returns (r: Result<Value>)
      requires Valid()
      modifies this, transport
      ensures Valid()
      ensures (St(), r) == Request(old(St()), Environment(), POST, "/views.json",
        [(Sym("body"), Str(toJson(Hash(CreatePayload(name, description, tags, public)))))])
    {
      r := PostRequest("/views.json", [(Sym("body"), Str(toJson(Hash(CreatePayload(name, description, tags, public)))))]);
    }
  }
}

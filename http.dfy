/**
 * The HTTP collaborator, reduced to what the client library can observe: it
 * is handed one call at a time and answers with a parsed JSON value.  The
 * remote service is a function from (index of the call, call) to its
 * answer, so every server behaviour is covered, and a ghost log records the
 * calls in the order they were made.
 */
module Http {
  import opened RubyValue

  datatype Verb = GET | POST | PUT | DELETE

  /** The `requestType` string a verb is queued under. */
  function VerbName(v: Verb): (name: string)
    ensures |name| >= 3
  {
    match v
    case GET => "GET"
    case POST => "POST"
    case PUT => "PUT"
    case DELETE => "DELETE"
  }

  datatype Call =
    | HttpCall(verb: Verb, path: string, options: Entries)        // HTTParty get/post/put/delete
    | Upload(path: string, filename: string, remoteName: string)  // multipart form POST of a file

  class Transport {
    /** The server: its parsed answer to the n-th call. */
    const reply: (nat, Call) -> Value
    var count: nat
    ghost var sent: seq<Call>

    ghost predicate Valid()
      reads this
    {
      count == |sent|
    }

    constructor (reply: (nat, Call) -> Value)
      ensures Valid() && sent == [] && this.reply == reply
    {
      this.reply := reply;
      count := 0;
      sent := [];
    }

    method Send(c: Call) returns (r: Value)
      requires Valid()
      modifies this
      ensures Valid()
      ensures sent == old(sent) + [c]
      ensures r == reply(|old(sent)|, c)
    {
      r := reply(count, c);
      count := count + 1;
      sent := sent + [c];
    }
  }
}

/** Request-response handlers: decode, call, encode, and one reply to whoever asked. */
module RequestResponse {
  import opened Wrappers
  import opened Handlers

  /** What the surroundings decide about one request: whether its payload decodes, what the
      user's function returns, and whether its response can be encoded. */
  datatype Request = Request(reply: string, decodes: bool, result: Option<Err>, encodes: bool)

  /** A reply goes to a subject and carries the response or an error. */
  datatype Reply = Reply(subject: string, err: Option<Err>)

  function Respond(r: Request): Option<Err> {
    if !r.decodes then Some(Wrapped("payload", ParseJSON))
    else if r.result.Some? then r.result
    else if !r.encodes then Some(Err(Plain("failed to marshal response"), []))
    else None
  }

  /** The replies owed to a history of requests: one to each with a reply subject, in
      order. */
  function RepliesTo(requests: seq<Request>): seq<Reply> {
    if requests == [] then []
    else
      var rest, r := RepliesTo(requests[..|requests| - 1]), requests[|requests| - 1];
      if r.reply == "" then rest else rest + [Reply(r.reply, Respond(r))]
  }

  class Responder {
    ghost var handled: seq<Request>
    var replies: seq<Reply>

    ghost predicate Valid()
      reads this
    {
      replies == RepliesTo(handled)
    }

    constructor ()
      ensures Valid() && handled == []
    {
      handled, replies := [], [];
    }

    method OnRequest(r: Request)
      requires Valid()
      modifies this
      ensures Valid() && handled == old(handled) + [r]
      ensures r.reply == "" ==> replies == old(replies)
    {
      assert (handled + [r])[..|handled|] == handled;
      handled := handled + [r];
      var err := Respond(r);
      if err.Some? {
        if r.reply != "" {
          replies := replies + [Reply(r.reply, err)];
        }
        return;
      }
      if r.reply != "" {
        replies := replies + [Reply(r.reply, None)];
      }
    }
  }

  function CountTo(requests: seq<Request>, subject: string): nat {
    if requests == [] then 0
    else CountTo(requests[..|requests| - 1], subject) + if requests[|requests| - 1].reply == subject then 1 else 0
  }

  function RepliedTo(replies: seq<Reply>, subject: string): nat {
    if replies == [] then 0
    else RepliedTo(replies[..|replies| - 1], subject) + if replies[|replies| - 1].subject == subject then 1 else 0
  }

  /** Exactly one reply: every reply subject gets as many replies as it sent requests, and
      a reply is a success exactly when decoding, handler and encoding all succeeded. */
  lemma {:induction false} ExactlyOneReply(requests: seq<Request>, subject: string)
    ensures RepliedTo(RepliesTo(requests), subject) == if subject == "" then 0 else CountTo(requests, subject)
  {
    if requests != [] {
      var n := |requests| - 1;
      var rest, r := RepliesTo(requests[..n]), requests[n];
      ExactlyOneReply(requests[..n], subject);
      if r.reply != "" {
        assert (rest + [Reply(r.reply, Respond(r))])[..|rest|] == rest;
      }
    }
  }

  /** Where the reply to one request of a history stands, and what it says. */
  lemma {:induction false} ReplyOf(requests: seq<Request>, k: nat) returns (i: nat)
    requires k < |requests| && requests[k].reply != ""
    ensures i == |RepliesTo(requests[..k])| < |RepliesTo(requests)|
    ensures RepliesTo(requests)[i].subject == requests[k].reply
    ensures RepliesTo(requests)[i].err.None? <==>
      requests[k].decodes && requests[k].result.None? && requests[k].encodes
    ensures requests[k].decodes && requests[k].result.Some? ==> RepliesTo(requests)[i].err == requests[k].result
    ensures !requests[k].decodes ==> RepliesTo(requests)[i].err.Some? && Is(RepliesTo(requests)[i].err.value, ParseJSON)
    ensures requests[k].decodes && requests[k].result.None? && !requests[k].encodes ==>
      RepliesTo(requests)[i].err.Some? && !Is(RepliesTo(requests)[i].err.value, ParseJSON)
  {
    var n := |requests| - 1;
    WrappedIs("payload", ParseJSON, ParseJSON);
    if k == n {
      i := |RepliesTo(requests[..n])|;
    } else {
      assert requests[..n][..k] == requests[..k];
      i := ReplyOf(requests[..n], k);
    }
  }
}

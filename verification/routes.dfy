/** The two routes both demo servers expose, handled one request at a time.

`/` answers a fixed greeting and leaves the counter alone; `/info` is the
server's counter step, which answers a record and moves the counter. A
server is therefore a greeting plus a step function `int -> (int, Response)`;
the two servers differ only in those and in the counter's start value.
 */
module Routes {
  import opened Data

  datatype Request = Root | Info

  /** A reply body: plain text for `/`, a record for `/info`. */
  datatype Reply = Text(body: string) | Json(data: Response)

  /** One request against the counter: the next counter and the reply. */
  function Handle(info: int -> (int, Response), greeting: string, count: int, request: Request)
    : (r: (int, Reply))
    ensures request.Root? ==> r.0 == count && r.1 == Text(greeting)
    ensures request.Info? ==> r.1.Json? && (r.0, r.1.data) == info(count)
  {
    match request
    case Root => (count, Text(greeting))
    case Info => var (next, data) := info(count); (next, Json(data))
  }

  /** The number of `/info` requests in a sequence. */
  function InfoCount(requests: seq<Request>): nat {
    if requests == [] then 0
    else (if requests[0].Info? then 1 else 0) + InfoCount(requests[1..])
  }

  /** The records among a sequence of replies, in order. */
  function Bodies(replies: seq<Reply>): seq<Response> {
    if replies == [] then []
    else (if replies[0].Json? then [replies[0].data] else []) + Bodies(replies[1..])
  }

  /** Handle a sequence of requests in order, threading the counter through.
      Every `/` request is answered with the greeting, whatever came before,
      and a sequence without `/info` requests leaves the counter untouched. */
  function Serve(info: int -> (int, Response), greeting: string, count: int, requests: seq<Request>)
    : (r: (int, seq<Reply>))
    ensures |r.1| == |requests|
    ensures forall i :: 0 <= i < |requests| ==> (requests[i].Root? <==> r.1[i] == Text(greeting))
    ensures forall i :: 0 <= i < |requests| ==> (requests[i].Info? <==> r.1[i].Json?)
    ensures InfoCount(requests) == 0 ==> r.0 == count
    decreases |requests|
  {
    if requests == [] then (count, [])
    else
      var (next, reply) := Handle(info, greeting, count, requests[0]);
      var (final, rest) := Serve(info, greeting, next, requests[1..]);
      (final, [reply] + rest)
  }

  /** Consecutive records have different shapes. */
  predicate Alternates(bodies: seq<Response>) {
    forall i :: 0 < i < |bodies| ==> bodies[i - 1].Base? != bodies[i].Base?
  }

  /** Records that take turns between two different shapes alternate. */
  lemma TakingTurnsAlternates(bodies: seq<Response>, even: Response, odd: Response)
    requires even.Base? != odd.Base?
    requires forall i :: 0 <= i < |bodies| ==> bodies[i] == if i % 2 == 0 then even else odd
    ensures Alternates(bodies)
  {
    forall i | 0 < i < |bodies|
      ensures bodies[i - 1].Base? != bodies[i].Base?
    {
      assert bodies[i - 1] == if (i - 1) % 2 == 0 then even else odd;
      assert bodies[i] == if i % 2 == 0 then even else odd;
    }
  }

  /** Two applications of the step bring the counter back to where it
      started. Nothing is said about the records the two steps answer. */
  ghost predicate CounterReturnsAfterTwoSteps(info: int -> (int, Response)) {
    forall c :: info(info(c).0).0 == c
  }

  /** For a step whose second application restores the counter, any run of
      requests answers `/info` with the first and the second step's record in
      turn, and ends at the start counter after an even number of `/info`
      requests and one step past it after an odd number. `/` requests in
      between do not disturb this. */
  lemma {:induction false} ServeCycles(
    info: int -> (int, Response), greeting: string, count: int, requests: seq<Request>)
    requires CounterReturnsAfterTwoSteps(info)
    ensures var (final, replies) := Serve(info, greeting, count, requests);
      var bodies := Bodies(replies);
      && |bodies| == InfoCount(requests)
      && final == (if |bodies| % 2 == 0 then count else info(count).0)
      && forall i :: 0 <= i < |bodies| ==>
           bodies[i] == (if i % 2 == 0 then info(count).1 else info(info(count).0).1)
    decreases |requests|
  {
    if requests != [] {
      var (next, reply) := Handle(info, greeting, count, requests[0]);
      var (final, rest) := Serve(info, greeting, next, requests[1..]);
      ServeCycles(info, greeting, next, requests[1..]);
      assert ([reply] + rest)[1..] == rest;
      var (_, replies) := Serve(info, greeting, count, requests);
      assert replies == [reply] + rest;
      if requests[0].Info? {
        assert info(next).0 == count;
        assert Bodies(replies) == [reply.data] + Bodies(rest);
      } else {
        assert Bodies(replies) == Bodies(rest);
      }
    }
  }
}

/** The plain JavaScript Express demo server: one counter `x`, starting at 1.

Every `/info` reply starts from the base record; an even `x` adds the
`optional` field and is incremented, an odd `x` is decremented. So the
directions are the reverse of the Kotlin server's, and so is the start
parity, which makes both answer the same sequence of records. Route
registration, the port, JSON serialisation and logging are not modelled.
 */
module VanillaServer {
  import opened Data
  import Routes
  import KotlinServer

  /** The value of `x` when the script starts. */
  const Start := 1
  /** The body of every `/` reply. */
  const Greeting := "Hi"

  /** `/info`: the record chosen by the parity of `x`, and `x` after the call. */
  function Info(x: int): (r: (int, Response))
    ensures r.1.Extended? <==> x % 2 == 0
    ensures r.1.Extended? ==> r.0 == x + 1 && r.1.optional == DefaultOptional
    ensures r.1.Base? ==> r.0 == x - 1
    ensures Abstract(r.1) == AbstractData()
    ensures r.0 % 2 != x % 2
  {
    var info := Base(123, "Sier", [Element(true)]);
    if x % 2 == 0 then (x + 1, WithOptional(info, "Added")) else (x - 1, info)
  }

  /** Two `/info` calls restore `x` and answer both shapes. */
  lemma InfoTwice(x: int)
    ensures Info(Info(x).0).0 == x
    ensures Info(Info(x).0).1.Base? != Info(x).1.Base?
  {
  }

  /** The replies to a sequence of requests made to a freshly started server,
      and `x` afterwards. */
  function Serve(requests: seq<Routes.Request>): (int, seq<Routes.Reply>) {
    Routes.Serve(Info, Greeting, Start, requests)
  }

  /** Whatever requests a fresh server receives, `x` stays 0 or 1, `/info`
      answers base, extended, base, ... in strict alternation, and every `/`
      is answered with the greeting. */
  lemma ServeFromStart(requests: seq<Routes.Request>)
    ensures Serve(requests).0 in {0, 1}
    ensures Serve(requests).0 == Start <==> |Routes.Bodies(Serve(requests).1)| % 2 == 0
    ensures |Routes.Bodies(Serve(requests).1)| == Routes.InfoCount(requests)
    ensures var bodies := Routes.Bodies(Serve(requests).1);
      forall i :: 0 <= i < |bodies| ==> bodies[i] == if i % 2 == 0 then Base() else Extended()
    ensures Routes.Alternates(Routes.Bodies(Serve(requests).1))
    ensures var replies := Serve(requests).1;
      forall i :: 0 <= i < |requests| ==> (requests[i].Root? <==> replies[i] == Routes.Text(Greeting))
  {
    forall c: int ensures Info(Info(c).0).0 == c {
      InfoTwice(c);
    }
    Routes.ServeCycles(Info, Greeting, Start, requests);
    var (count, replies) := Serve(requests);
    var bodies := Routes.Bodies(replies);
    assert count == (if |bodies| % 2 == 0 then Start else Info(Start).0);
    assert forall i :: 0 <= i < |bodies| ==> bodies[i] == if i % 2 == 0 then Base() else Extended();
    Routes.TakingTurnsAlternates(bodies, Base(), Extended());
  }

  /** Fed the same requests, the two servers answer `/info` with the same
      records in the same order; only their greetings differ. */
  lemma SameRecordsAsKotlinServer(requests: seq<Routes.Request>)
    ensures Routes.Bodies(Serve(requests).1) == Routes.Bodies(KotlinServer.Serve(requests).1)
  {
    ServeFromStart(requests);
    KotlinServer.ServeFromStart(requests);
  }
}

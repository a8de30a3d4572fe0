/** The Kotlin+Express demo server: one counter, starting at 2, behind `/info`.

An even counter answers the base record and is decremented; an odd counter
answers the extended record and is incremented. Route registration, the
listening port, JSON serialisation and logging are not modelled.
 */
module KotlinServer {
  import opened Data
  import Routes

  /** The counter's value when the endpoints are configured. */
  const Start := 2
  /** The body of every `/` reply. */
  const Greeting := "Hi! Kotlin+Express server"

  /** `/info`: the record chosen by the counter's parity, and the counter
      after the call. The chosen record always carries the default base
      fields; the step always flips the counter's parity. */
  function Info(count: int): (r: (int, Response))
    ensures r.1.Base? <==> count % 2 == 0
    ensures r.1.Base? ==> r.0 == count - 1
    ensures r.1.Extended? ==> r.0 == count + 1 && r.1.optional == DefaultOptional
    ensures Abstract(r.1) == AbstractData()
    ensures r.0 % 2 != count % 2
  {
    if count % 2 == 0 then (count - 1, Base()) else (count + 1, Extended())
  }

  /** Two `/info` calls restore the counter and answer both shapes. */
  lemma InfoTwice(count: int)
    ensures Info(Info(count).0).0 == count
    ensures Info(Info(count).0).1.Base? != Info(count).1.Base?
  {
  }

  /** The replies to a sequence of requests made to a freshly started server,
      and the counter afterwards. */
  function Serve(requests: seq<Routes.Request>): (int, seq<Routes.Reply>) {
    Routes.Serve(Info, Greeting, Start, requests)
  }

  /** Whatever requests a fresh server receives, the counter stays 1 or 2,
      `/info` answers base, extended, base, ... in strict alternation, and
      every `/` is answered with the greeting. */
  lemma ServeFromStart(requests: seq<Routes.Request>)
    ensures Serve(requests).0 in {1, 2}
    ensures Serve(requests).0 == Start <==> |Routes.Bodies(Serve(requests).1)| % 2 == 0
    ensures |Routes.Bodies(Serve(requests).1)| == Routes.InfoCount(requests)
    ensures var bodies := Routes.Bodies(Serve(requests).1);
      forall i :: 0 <= i < |bodies| ==> bodies[i] == if i % 2 == 0 then Base() else Extended()
    ensures Routes.Alternates(Routes.Bodies(Serve(requests).1))
    ensures var replies := Serve(requests).1;
      forall i :: 0 <= i < |requests| ==> (requests[i].Root? <==> replies[i] == Routes.Text(Greeting))
  {
    forall c: int ensures Info(Info(c).0).0 == c {
      InfoTwice(c);
    }
    Routes.ServeCycles(Info, Greeting, Start, requests);
    var (count, replies) := Serve(requests);
    var bodies := Routes.Bodies(replies);
    assert count == (if |bodies| % 2 == 0 then Start else Info(Start).0);
    assert forall i :: 0 <= i < |bodies| ==> bodies[i] == if i % 2 == 0 then Base() else Extended();
    Routes.TakingTurnsAlternates(bodies, Base(), Extended());
  }
}

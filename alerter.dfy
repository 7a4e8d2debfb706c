/**
  alerter.Run, the one gate every backend call of the issue handler passes
  through. In dry-run mode the operation is skipped and reported as a
  success; otherwise it is made and its error, if any, is returned. The Go
  function takes a closure; here the closure is the Call value it would make.
*/
module Alerter {
  import opened Wrappers
  import opened Ghutil

  /** The calls that reach the backend when these are run through Run: none in dry-run mode. */
  function Reach(dryrun: bool, calls: seq<Call>): (r: seq<Call>)
    ensures dryrun ==> r == []
    ensures !dryrun ==> r == calls
  {
    if dryrun then [] else calls
  }

  /** The error Run returns for a reply; a skipped call (None) has none. */
  function ErrorOf(reply: Option<Reply>): (r: Option<BackendError>)
    ensures r.Some? <==> reply.Some? && reply.value.Failed?
  {
    match reply
    case Some(Failed(e)) => Some(e)
    case _ => None
  }

  /** Run the call, or skip it in dry-run mode; reply is None exactly when it was skipped. */
  method Run(client: FakeClient, call: Call, dryrun: bool) returns (reply: Option<Reply>)
    modifies client
    ensures client.trace == old(client.trace) + Reach(dryrun, [call])
    ensures client.State() == Replay(old(client.State()), Reach(dryrun, [call]))
    ensures dryrun ==> reply == None
    ensures !dryrun ==> reply == Some(Step(old(client.State()), call).reply)
  {
    if dryrun {
      reply := None;
    } else {
      var r := client.Perform(call);
      reply := Some(r);
    }
  }
}

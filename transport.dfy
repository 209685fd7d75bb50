/**
 * The core publisher handed to a plugin at initialisation
 * (streamdeckcore.Publisher): a sink the plugin writes outbound messages to.
 * The websocket, its lock and its failure causes are not modelled; whether a
 * write succeeds is the connection's state.
 */
module Transport {
  import opened Wrappers
  import opened Core

  class Connection<M> {
    /** What the host has been sent, in order. */
    var sent: seq<M>
    /** Whether the socket currently accepts writes. */
    var open: bool

    constructor (open: bool)
      ensures sent == [] && this.open == open
    {
      sent := [];
      this.open := open;
    }

    /** One write: appended when the socket is open, refused and dropped otherwise. */
    method PublishEvent(m: M) returns (err: Option<Error>)
      modifies this`sent
      ensures open ==> err == None && sent == old(sent) + [m]
      ensures !open ==> err == Some(SendFailed) && sent == old(sent)
    {
      if open {
        sent := sent + [m];
        err := None;
      } else {
        err := Some(SendFailed);
      }
    }
  }
}

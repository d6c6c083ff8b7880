/**
 Closing the HTTP server. Node calls the close callback only after the listener is gone and the last socket has
 ended, whatever error it reports; a close that throws at once gives no such boundary. That behaviour of Node is
 what this class assumes of `close`; the rest is closeNodeServer.
 */
module ServerClose {

  /** The promise closeServer hands to the coordinator. Incomplete is a rejection with IncompleteServerClose. */
  datatype ClosePromise = NotCalled | Waiting | Fulfilled | Failed | Incomplete

  /** What calling server.close does at once. */
  datatype Closing = Accepted | ThrowsNotRunning | ThrowsOther

  datatype ServerEvent = Created | Listens | SocketOpens | SocketEnds | CallbackRuns(reportsOtherError: bool)

  class NodeServer {
    var created: bool
    var listening: bool
    var sockets: nat
    var promise: ClosePromise
    var threwNotRunning: bool

    ghost predicate Valid()
      reads this
    {
      && (!created ==> !listening && sockets == 0)
      && (promise.Waiting? ==> created && !listening)
      && (threwNotRunning ==> promise.Fulfilled?)
      && ((promise.Fulfilled? || promise.Failed?) && !threwNotRunning ==> !listening && sockets == 0)
    }

    constructor ()
      ensures Valid() && promise.NotCalled? && !created
    {
      created, listening, sockets, promise, threwNotRunning := false, false, 0, NotCalled, false;
    }

    /** A settled close is proof that no socket is left, unless the call itself threw that nothing was running. */
    lemma SettledMeansClosed()
      requires Valid() && (promise.Fulfilled? || promise.Failed?)
      ensures threwNotRunning || (!listening && sockets == 0)
    {
    }

    /** closeServer: nothing to do before the server exists; otherwise the promise follows the callback or the throw. */
    method Close(closing: Closing)
      requires Valid() && promise.NotCalled?
      modifies this`listening, this`promise, this`threwNotRunning
      ensures Valid() && !promise.NotCalled?
      ensures promise == if !created then Fulfilled else match closing case Accepted => Waiting case ThrowsNotRunning => Fulfilled case ThrowsOther => Incomplete
      ensures threwNotRunning == (created && closing.ThrowsNotRunning?)
      ensures listening == (old(listening) && (!created || !closing.Accepted?))
    {
      if !created {
        promise := Fulfilled;
        return;
      }
      match closing {
        case Accepted => listening, promise := false, Waiting;
        case ThrowsNotRunning => promise, threwNotRunning := Fulfilled, true;
        case ThrowsOther => promise := Incomplete;
      }
    }

    /** Node's side. The startup code creates and opens the server only before a shutdown has begun. */
    method Happens(e: ServerEvent)
      requires Valid() && (e.Created? || e.Listens? ==> promise.NotCalled?)
      modifies this`created, this`listening, this`sockets, this`promise
      ensures Valid() && (promise.NotCalled? <==> old(promise).NotCalled?) && (!e.Created? ==> created == old(created))
      ensures match e
              case Created => created && listening == old(listening) && sockets == old(sockets) && promise == old(promise)
              case Listens => listening == (created || old(listening)) && sockets == old(sockets) && promise == old(promise)
              case SocketOpens => sockets == old(sockets) + (if listening then 1 else 0) && listening == old(listening) && promise == old(promise)
              case SocketEnds => sockets == old(sockets) - (if old(sockets) > 0 then 1 else 0) && listening == old(listening) && promise == old(promise)
              case CallbackRuns(other) =>
                && sockets == old(sockets) && listening == old(listening)
                && promise == if !(old(promise).Waiting? && sockets == 0) then old(promise) else if other then Failed else Fulfilled
      ensures promise.Incomplete? <==> old(promise).Incomplete?
      ensures old(promise).Fulfilled? || old(promise).Failed? ==> promise == old(promise)
      ensures (old(promise).Fulfilled? || old(promise).Failed?) && !threwNotRunning ==> unchanged(this)
    {
      match e {
        case Created => created := true;
        case Listens => if created { listening := true; }
        case SocketOpens => if listening { sockets := sockets + 1; }
        case SocketEnds => if sockets > 0 { sockets := sockets - 1; }
        case CallbackRuns(reportsOtherError) =>
          if promise.Waiting? && sockets == 0 {
            promise := if reportsOtherError then Failed else Fulfilled;
          }
      }
    }
  }
}

/**
 * The client's connection hook (extension/src/websocketService.ts): the
 * socket's open flag, the queue of serialized messages written while the
 * socket is not open, the drain on open, the parse guard on every inbound
 * message and the connection flag the UI shows.
 *
 * Serialization is left to the caller: `SendMessage` takes the string
 * `JSON.stringify` produced, and `OnMessage` takes the parser as a function
 * that yields `None` where `JSON.parse` throws.
 */
module WebSocketService {
  import opened Protocol

  /** The queued strings that `if (message)` lets through: the non-empty ones, in order. */
  function NonEmpty(q: seq<string>): (r: seq<string>)
    ensures |r| <= |q|
    ensures forall x :: x in r <==> x in q && x != ""
  {
    if q == [] then [] else (if q[0] != "" then [q[0]] else []) + NonEmpty(q[1..])
  }

  /** Draining two queues one after the other drains them in that order. */
  lemma {:induction false} NonEmptyAppend(a: seq<string>, b: seq<string>)
    ensures NonEmpty(a + b) == NonEmpty(a) + NonEmpty(b)
  {
    if a == [] {
      assert a + b == b;
    } else {
      assert (a + b)[1..] == a[1..] + b;
      NonEmptyAppend(a[1..], b);
    }
  }

  /** A queue holding no empty string is sent whole. */
  lemma {:induction false} NonEmptyKeepsAll(q: seq<string>)
    requires forall i | 0 <= i < |q| :: q[i] != ""
    ensures NonEmpty(q) == q
  {
    if q != [] {
      NonEmptyKeepsAll(q[1..]);
    }
  }

  /**
   * The socket as the hook sees it. `open` is `readyState === OPEN`; `wire`
   * is every string handed to `ws.send`, in order; `M` is the type of a
   * parsed inbound message.
   */
  class Socket<M> {
    var open: bool
    var isConnected: bool
    var queue: seq<string>
    var wire: seq<string>
    var lastMessage: Option<M>

    /** A fresh hook: not yet open, not connected, nothing queued or sent, no message seen. */
    constructor ()
      ensures !open && !isConnected && queue == [] && wire == [] && lastMessage.None?
    {
      open := false;
      isConnected := false;
      queue := [];
      wire := [];
      lastMessage := None;
    }

    /** `sendMessage`: straight onto the wire while open, otherwise to the back of the queue. */
    method SendMessage(text: string)
      modifies this`queue, this`wire
      ensures open ==> wire == old(wire) + [text] && queue == old(queue)
      ensures !open ==> queue == old(queue) + [text] && wire == old(wire)
    {
      if open {
        wire := wire + [text];
      } else {
        queue := queue + [text];
      }
    }

    /**
     * `onopen`: marks the hook connected, then takes the queue front-first
     * and sends every non-empty entry; the queue ends empty.
     */
    method OnOpen()
      modifies this`open, this`isConnected, this`queue, this`wire
      ensures open && isConnected
      ensures queue == []
      ensures wire == old(wire) + NonEmpty(old(queue))
    {
      open := true;
      isConnected := true;
      while |queue| > 0
        invariant open && isConnected
        invariant wire + NonEmpty(queue) == old(wire) + NonEmpty(old(queue))
        decreases |queue|
      {
        var message := queue[0];
        assert NonEmpty(queue) == (if message != "" then [message] else []) + NonEmpty(queue[1..]);
        queue := queue[1..];
        if message != "" {
          wire := wire + [message];
        }
      }
    }

    /**
     * `onmessage`: a message that parses becomes `lastMessage` and, when a
     * callback is registered, is handed to it (the returned value); one that
     * does not parse changes nothing and reaches no callback.
     */
    method OnMessage(data: string, parse: string -> Option<M>, hasCallback: bool) returns (delivered: Option<M>)
      modifies this`lastMessage
      ensures parse(data).None? ==> lastMessage == old(lastMessage) && delivered.None?
      ensures parse(data).Some? ==> lastMessage == parse(data) && (delivered.Some? <==> hasCallback)
      ensures delivered.Some? ==> delivered == parse(data)
    {
      delivered := None;
      var parsed := parse(data);
      if parsed.Some? {
        lastMessage := parsed;
        if hasCallback {
          delivered := parsed;
        }
      }
    }

    /** `onclose`: the hook reports itself disconnected; the socket is no longer open. */
    method OnClose()
      modifies this`open, this`isConnected
      ensures !open && !isConnected
    {
      open := false;
      isConnected := false;
    }
  }

  /**
   * Messages written one after another while the socket is not open reach
   * the wire when it opens: first what was already queued, then the new
   * messages, each in the order it was written.
   */
  method SendAllThenOpen(socket: Socket<string>, messages: seq<string>)
    requires !socket.open
    requires forall i | 0 <= i < |messages| :: messages[i] != ""
    modifies socket
    ensures socket.open && socket.isConnected && socket.queue == []
    ensures socket.wire == old(socket.wire) + NonEmpty(old(socket.queue)) + messages
  {
    for i := 0 to |messages|
      invariant !socket.open
      invariant socket.wire == old(socket.wire)
      invariant socket.queue == old(socket.queue) + messages[..i]
    {
      assert messages[..i + 1] == messages[..i] + [messages[i]];
      socket.SendMessage(messages[i]);
    }
    assert messages[..|messages|] == messages;
    ghost var queued := socket.queue;
    socket.OnOpen();
    NonEmptyAppend(old(socket.queue), messages);
    NonEmptyKeepsAll(messages);
    assert socket.wire == old(socket.wire) + NonEmpty(queued);
  }
}

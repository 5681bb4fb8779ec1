/**
  Interleavings of the steps of `UdpServer.Process` on a fresh server, as a
  receive loop and the resolver would drive them.
 */
module ForwardingScenarios {
  import opened Basics
  import opened DedupKey
  import opened Forwarding

  /** A retransmission that arrives while the first copy is pending is dropped:
      one resolver call, one response; once the first copy has completed, the
      same key is admitted again. */
  method RetransmissionWhilePending(first: Datagram, again: Datagram, listener: Endpoint,
                                    decode: seq<byte> -> Option<Message>, id1: uint16, id2: uint16, id3: uint16,
                                    reply: Message)
    returns (dropped: Admission, later: Admission, events: seq<Event>)
    requires decode(first.buffer).Some? && decode(again.buffer).Some?
    requires again.remote == first.remote && decode(again.buffer).value.id == decode(first.buffer).value.id
    ensures dropped == Duplicate(RequestKey(decode(first.buffer).value.id, first.remote))
    ensures later.Admitted?
    ensures
      var q := decode(first.buffer).value;
      events == [IdAllocated(id1), ResolverQueried(q.(id := id1)),
                 ResponseSent(listener, first.remote, reply.(id := q.id)),
                 IdAllocated(id3), ResolverQueried(decode(again.buffer).value.(id := id3))]
  {
    var server := new UdpServer();
    var admitted := server.TryAdmit(first, listener, decode, id1);
    dropped := server.TryAdmit(again, listener, decode, id2);
    server.Complete(admitted.request, Some(reply));
    server.Release(admitted.request);
    later := server.TryAdmit(again, listener, decode, id3);
    events := server.trace;
  }

  /** The key is held until the response has been sent: a retransmission that
      arrives while the send is in progress is dropped too. */
  method RetransmissionWhileSending(first: Datagram, again: Datagram, listener: Endpoint,
                                    decode: seq<byte> -> Option<Message>, id1: uint16, id2: uint16,
                                    reply: Message)
    returns (dropped: Admission, events: seq<Event>)
    requires decode(first.buffer).Some? && decode(again.buffer).Some?
    requires again.remote == first.remote && decode(again.buffer).value.id == decode(first.buffer).value.id
    ensures dropped == Duplicate(RequestKey(decode(first.buffer).value.id, first.remote))
    ensures
      var q := decode(first.buffer).value;
      events == [IdAllocated(id1), ResolverQueried(q.(id := id1)),
                 ResponseSent(listener, first.remote, reply.(id := q.id))]
  {
    var server := new UdpServer();
    var admitted := server.TryAdmit(first, listener, decode, id1);
    server.Complete(admitted.request, Some(reply));
    dropped := server.TryAdmit(again, listener, decode, id2);
    server.Release(admitted.request);
    events := server.trace;
  }

  /** A failed resolver call sends nothing and releases the key, so the
      client's retry is forwarded afresh. */
  method RetryAfterResolverFailure(request: Datagram, listener: Endpoint,
                                   decode: seq<byte> -> Option<Message>, id1: uint16, id2: uint16)
    returns (retry: Admission, events: seq<Event>)
    requires decode(request.buffer).Some?
    ensures retry.Admitted? && retry.request.originalId == decode(request.buffer).value.id
    ensures
      var q := decode(request.buffer).value;
      events == [IdAllocated(id1), ResolverQueried(q.(id := id1)), IdAllocated(id2), ResolverQueried(q.(id := id2))]
  {
    var server := new UdpServer();
    var admitted := server.TryAdmit(request, listener, decode, id1);
    server.Complete(admitted.request, None);
    retry := server.TryAdmit(request, listener, decode, id2);
    events := server.trace;
  }

  /** Two clients that happen to choose the same query ID do not collide. */
  method SameIdFromTwoSenders(a: Datagram, b: Datagram, listener: Endpoint,
                              decode: seq<byte> -> Option<Message>, id1: uint16, id2: uint16)
    returns (first: Admission, second: Admission)
    requires decode(a.buffer).Some? && decode(b.buffer).Some?
    requires decode(a.buffer).value.id == decode(b.buffer).value.id && a.remote != b.remote
    ensures first.Admitted? && second.Admitted? && first.request.key != second.request.key
  {
    var server := new UdpServer();
    first := server.TryAdmit(a, listener, decode, id1);
    RequestKeyInjective(decode(a.buffer).value.id, a.remote, decode(b.buffer).value.id, b.remote);
    second := server.TryAdmit(b, listener, decode, id2);
  }

  /** Requests with distinct keys complete independently: a slow first request
      is answered after a fast second one. */
  method SlowFirstFastSecond(a: Datagram, b: Datagram, listenerA: Endpoint, listenerB: Endpoint,
                             decode: seq<byte> -> Option<Message>, idA: uint16, idB: uint16,
                             replyA: Message, replyB: Message)
    returns (events: seq<Event>)
    requires decode(a.buffer).Some? && decode(b.buffer).Some?
    requires decode(a.buffer).value.id != decode(b.buffer).value.id || a.remote != b.remote
    ensures
      var qa, qb := decode(a.buffer).value, decode(b.buffer).value;
      events == [IdAllocated(idA), ResolverQueried(qa.(id := idA)),
                 IdAllocated(idB), ResolverQueried(qb.(id := idB)),
                 ResponseSent(listenerB, b.remote, replyB.(id := qb.id)),
                 ResponseSent(listenerA, a.remote, replyA.(id := qa.id))]
  {
    var server := new UdpServer();
    var admittedA := server.TryAdmit(a, listenerA, decode, idA);
    RequestKeyInjective(decode(a.buffer).value.id, a.remote, decode(b.buffer).value.id, b.remote);
    var admittedB := server.TryAdmit(b, listenerB, decode, idB);
    server.Complete(admittedB.request, Some(replyB));
    server.Release(admittedB.request);
    server.Complete(admittedA.request, Some(replyA));
    server.Release(admittedA.request);
    events := server.trace;
  }

  /** The key of query 0x1234 from 127.0.0.1:5000. */
  lemma ExampleKey()
    ensures RequestKey(0x1234, Endpoint("127.0.0.1", 5000)) == "4660-127.0.0.1:5000"
  {
  }

  /** Query 0x1234 from 127.0.0.1:5000, forwarded as 0x5678: the resolver sees
      0x5678 and the client gets 0x1234 back. */
  method IdRewriteExchange(rest: seq<byte>, buffer: seq<byte>, listener: Endpoint,
                           decode: seq<byte> -> Option<Message>, reply: Message)
    returns (key: string, events: seq<Event>)
    requires decode(buffer) == Some(Message(0x1234, rest))
    ensures key == "4660-127.0.0.1:5000"
    ensures events == [IdAllocated(0x5678), ResolverQueried(Message(0x5678, rest)),
                       ResponseSent(listener, Endpoint("127.0.0.1", 5000), Message(0x1234, reply.rest))]
  {
    var server := new UdpServer();
    var client := Endpoint("127.0.0.1", 5000);
    var admitted := server.TryAdmit(Datagram(buffer, client), listener, decode, 0x5678);
    key := admitted.request.key;
    ExampleKey();
    server.Complete(admitted.request, Some(reply));
    server.Release(admitted.request);
    events := server.trace;
  }
}

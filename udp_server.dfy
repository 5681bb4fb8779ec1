/**
  The forwarding core of `UdpServer.Process`: duplicate suppression through the
  table of outstanding requests, the query-ID rewrite around the resolver call,
  and the release of the key on every path.

  `Process` has two suspension points: `await Resolver.QueryAsync(query)` and,
  on success, `await listener.SendAsync(...)`; the `finally` that releases the
  key runs only after the send has completed. It is modelled as three atomic
  steps which the caller may interleave with the steps of other requests:
  `TryAdmit` (everything before the resolver call returns), `Complete` (the
  resumption after it, which on failure already reaches the `finally`) and
  `Release` (the `finally` after a send). The codec, the resolver and the socket
  are outside the model: decoding is a function parameter, the resolver's
  answers are parameters, and what the server asks of the resolver and sends on
  a socket is recorded in `trace`.
 */
module Forwarding {
  import opened Basics
  import opened DedupKey

  /** A decoded DNS message. Only the header ID matters here; everything else is
      carried opaquely. */
  datatype Message = Message(id: uint16, rest: seq<byte>)

  /** What `UdpClient.ReceiveAsync` delivers: the payload and the sender. */
  datatype Datagram = Datagram(buffer: seq<byte>, remote: Endpoint)

  /** What the server does towards the outside world, in order. A listener is
      identified by the local endpoint its socket is bound to. */
  datatype Event =
    | IdAllocated(id: uint16)
    | ResolverQueried(query: Message)
    | ResponseSent(listener: Endpoint, remote: Endpoint, response: Message)

  /** A request between its admission and its release: what the code after
      an await still needs. */
  datatype InFlight = InFlight(key: string, originalId: uint16, remote: Endpoint, listener: Endpoint)

  /** How the first step of `Process` ended. */
  datatype Admission =
    | DecodeFailed
    | Duplicate(key: string)
    | Admitted(request: InFlight)

  class UdpServer {
    /** `outstandingRequests`: the key of every admitted, not yet released request. */
    var outstandingRequests: map<string, Message>
    /** The resolver calls made and the responses sent, oldest first. */
    var trace: seq<Event>
    /** The admitted, not yet released requests (the live `Process` calls
        past `TryAdd`), by key. */
    ghost var live: map<string, InFlight>
    /** The keys of the live requests whose response is being sent; the
        others are waiting for the resolver. */
    ghost var sending: set<string>

    /** Every key in the table belongs to exactly one live `Process` call, and
        every live call holds its key. */
    ghost predicate Valid()
      reads this
    {
      && outstandingRequests.Keys == live.Keys
      && (forall k :: k in live ==> live[k].key == k)
      && sending <= live.Keys
    }

    /** `r` is a live request waiting for its resolver call. */
    ghost predicate AwaitingResolver(r: InFlight)
      reads this
    {
      r.key in live && live[r.key] == r && r.key !in sending
    }

    /** `r` is a live request whose response is being sent. */
    ghost predicate AwaitingSend(r: InFlight)
      reads this
    {
      r.key in live && live[r.key] == r && r.key in sending
    }

    constructor ()
      ensures Valid()
      ensures outstandingRequests == map[] && trace == []
      ensures live == map[] && sending == {}
    {
      outstandingRequests := map[];
      trace := [];
      live := map[];
      sending := {};
    }

    /** Receipt of a datagram up to the resolver call: decode, derive the key,
        `TryAdd` it, and on admission rewrite the ID and dispatch the query.
        A stored query is the same object whose ID is then overwritten, so the
        entry holds the rewritten query. */
    method TryAdmit(request: Datagram, listener: Endpoint, decode: seq<byte> -> Option<Message>, nextId: uint16)
      returns (a: Admission)
      requires Valid()
      modifies this
      ensures Valid()
      ensures decode(request.buffer).None? ==> a == DecodeFailed && unchanged(this)
      ensures decode(request.buffer).Some? ==>
        var query := decode(request.buffer).value;
        var key := RequestKey(query.id, request.remote);
        if key in old(outstandingRequests) then
          a == Duplicate(key) && unchanged(this)
        else
          && a == Admitted(InFlight(key, query.id, request.remote, listener))
          && outstandingRequests == old(outstandingRequests)[key := query.(id := nextId)]
          && trace == old(trace) + [IdAllocated(nextId), ResolverQueried(query.(id := nextId))]
          && live == old(live)[key := a.request] && sending == old(sending)
          && AwaitingResolver(a.request)
    {
      match decode(request.buffer)
      case None =>
        a := DecodeFailed;
      case Some(query) =>
        var key := RequestKey(query.id, request.remote);
        if key in outstandingRequests {
          a := Duplicate(key);
          return;
        }
        outstandingRequests := outstandingRequests[key := query];
        var originalId := query.id;
        var rewritten := query.(id := nextId);
        outstandingRequests := outstandingRequests[key := rewritten];
        trace := trace + [IdAllocated(nextId), ResolverQueried(rewritten)];
        a := Admitted(InFlight(key, originalId, request.remote, listener));
        live := live[key := a.request];
    }

    /** Resumption after the resolver call. `reply` is `None` when `QueryAsync`
        failed: nothing is sent and the `finally` removes the key at once. On
        success the original ID is put back and the response goes to the sender
        through the listener that received the query; the key stays in the
        table until the send completes (`Release`). */
    method Complete(r: InFlight, reply: Option<Message>)
      requires Valid() && AwaitingResolver(r)
      modifies this
      ensures Valid()
      ensures reply.None? ==>
        && outstandingRequests == old(outstandingRequests) - {r.key}
        && trace == old(trace)
        && live == old(live) - {r.key} && sending == old(sending)
      ensures reply.Some? ==>
        && outstandingRequests == old(outstandingRequests)
        && trace == old(trace) + [ResponseSent(r.listener, r.remote, reply.value.(id := r.originalId))]
        && live == old(live) && sending == old(sending) + {r.key}
        && AwaitingSend(r)
    {
      if reply.Some? {
        var response := reply.value.(id := r.originalId);
        trace := trace + [ResponseSent(r.listener, r.remote, response)];
        sending := sending + {r.key};
      } else {
        outstandingRequests := outstandingRequests - {r.key};
        live := live - {r.key};
      }
    }

    /** The `finally` once the response has been sent: the key is removed and
        every other entry is kept. */
    method Release(r: InFlight)
      requires Valid() && AwaitingSend(r)
      modifies this
      ensures Valid()
      ensures outstandingRequests == old(outstandingRequests) - {r.key}
      ensures trace == old(trace)
      ensures live == old(live) - {r.key} && sending == old(sending) - {r.key}
    {
      outstandingRequests := outstandingRequests - {r.key};
      live := live - {r.key};
      sending := sending - {r.key};
    }

    /** `Process` run without interruption between its steps. The table and
        the live requests end as they began: either nothing was added, or the
        key added was removed again. */
    method Process(request: Datagram, listener: Endpoint, decode: seq<byte> -> Option<Message>,
                   nextId: uint16, reply: Option<Message>)
      requires Valid()
      modifies this
      ensures Valid()
      ensures outstandingRequests == old(outstandingRequests)
      ensures live == old(live) && sending == old(sending)
      ensures decode(request.buffer).None? ==> trace == old(trace)
      ensures decode(request.buffer).Some? ==>
        var query := decode(request.buffer).value;
        if RequestKey(query.id, request.remote) in old(outstandingRequests) then
          trace == old(trace)
        else
          trace == old(trace) + [IdAllocated(nextId), ResolverQueried(query.(id := nextId))]
                   + (if reply.Some? then [ResponseSent(listener, request.remote, reply.value.(id := query.id))] else [])
    {
      var a := TryAdmit(request, listener, decode, nextId);
      if a.Admitted? {
        Complete(a.request, reply);
        if reply.Some? {
          Release(a.request);
        }
        assert outstandingRequests == old(outstandingRequests);
        assert live == old(live);
      }
    }
  }
}

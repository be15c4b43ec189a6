/** internal/server/tag_hub.go: the fan-out of tag updates to WebSocket subscribers. */
module TagHub {
  import opened Base
  import PlcManager

  type Update = PlcManager.TagUpdate

  /** The buffer of a subscriber's channel (internal/server/api.go). */
  const CAPACITY := 16

  /** A subscriber: its filter, its channel, and the history of the channel: what was
      offered to it, what its reader took, and whether an offer ever met a full buffer. */
  datatype Subscriber = Subscriber(
    plc: string,
    tag: string,
    active: bool,
    open: bool,
    buffer: seq<Update>,
    offered: seq<Update>,
    consumed: seq<Update>,
    dropped: bool)

  const NEW_SUBSCRIBER := Subscriber("", "", false, true, [], [], [], false)

  /** tagSubscriber.matches: an empty name matches everything. */
  predicate Matches(s: Subscriber, u: Update) {
    s.active && (s.plc == "" || s.plc == u.plc) && (s.tag == "" || s.tag == u.tag)
  }

  /** The non-blocking send of publish: a full buffer drops the new update. */
  function Offer(s: Subscriber, u: Update): Subscriber {
    if |s.buffer| < CAPACITY then s.(buffer := s.buffer + [u], offered := s.offered + [u])
    else s.(offered := s.offered + [u], dropped := true)
  }

  function Consume(s: Subscriber): Subscriber
    requires s.buffer != []
  {
    s.(buffer := s.buffer[1..], consumed := s.consumed + [s.buffer[0]])
  }

  /** What the reader has taken and what waits for it is, in order, what was offered,
      less the updates that met a full buffer. */
  ghost predicate ChannelOk(s: Subscriber) {
    && |s.buffer| <= CAPACITY
    && Subsequence(s.consumed + s.buffer, s.offered)
    && (!s.dropped ==> s.consumed + s.buffer == s.offered)
  }

  /** An offer to a buffer with room joins its end; to a buffer of 16 it is dropped. */
  lemma OfferKeeps(s: Subscriber, u: Update)
    requires ChannelOk(s)
    ensures ChannelOk(Offer(s, u))
    ensures Offer(s, u) ==
            s.(offered := s.offered + [u],
               buffer := if |s.buffer| < 16 then s.buffer + [u] else s.buffer,
               dropped := s.dropped || |s.buffer| == 16)
  {
    SubsequenceGrows(s.consumed + s.buffer, s.offered, u);
    assert s.consumed + (s.buffer + [u]) == s.consumed + s.buffer + [u];
  }

  lemma ConsumeKeeps(s: Subscriber)
    requires ChannelOk(s) && s.buffer != []
    ensures ChannelOk(Consume(s))
    ensures [s.buffer[0]] + Consume(s).buffer == s.buffer && Consume(s).consumed == s.consumed + [s.buffer[0]]
  {
    assert s.buffer == [s.buffer[0]] + s.buffer[1..];
    assert s.consumed + [s.buffer[0]] + s.buffer[1..] == s.consumed + s.buffer;
  }

  // ----- the hub when its operations run one after the other -----

  class Hub {
    var clients: set<nat>
    var subs: map<nat, Subscriber>

    /** Clients are known and their channels are open. */
    ghost predicate Valid()
      reads this
    {
      && (forall id :: id in clients ==> id in subs && subs[id].open)
      && (forall id :: id in subs ==> ChannelOk(subs[id]))
    }

    constructor ()
      ensures Valid() && clients == {} && subs == map[]
    {
      clients, subs := {}, map[];
    }

    /** The WebSocket handler: a new channel with the request's filter, then register. */
    method Subscribe(plc: string, tag: string) returns (id: nat)
      requires Valid()
      modifies this
      ensures Valid() && id !in old(subs)
      ensures clients == old(clients) + {id}
      ensures subs == old(subs)[id := NEW_SUBSCRIBER.(plc := plc, tag := tag, active := true)]
    {
      id := FreshId(subs.Keys);
      subs := subs[id := NEW_SUBSCRIBER];
      SetFilter(id, plc, tag);
      clients := clients + {id};
    }

    method SetFilter(id: nat, plc: string, tag: string)
      requires Valid() && id in subs
      modifies this`subs
      ensures Valid() && subs == old(subs)[id := old(subs)[id].(plc := plc, tag := tag, active := true)]
    {
      subs := subs[id := subs[id].(plc := plc, tag := tag, active := true)];
    }

    /** unsubscribe: the client stays registered and gets nothing. */
    method Unsubscribe(id: nat)
      requires Valid() && id in subs
      modifies this`subs
      ensures Valid() && subs == old(subs)[id := old(subs)[id].(plc := "", tag := "", active := false)]
      ensures forall u :: !Matches(subs[id], u)
    {
      subs := subs[id := subs[id].(plc := "", tag := "", active := false)];
    }

    method Unregister(id: nat)
      requires Valid() && id in clients
      modifies this
      ensures Valid() && clients == old(clients) - {id}
      ensures subs == old(subs)[id := old(subs)[id].(open := false)]
    {
      clients := clients - {id};
      subs := subs[id := subs[id].(open := false)];
    }

    /** publish: every client whose filter is active and names no other PLC and no other
        tag gets the update at the end of its buffer if that has room, and loses it if not,
        whatever order the map iteration takes; nobody else is touched. */
    method Publish(u: Update)
      requires Valid()
      modifies this`subs
      ensures Valid() && subs.Keys == old(subs.Keys)
      ensures forall id :: id in subs ==>
                var s := old(subs)[id];
                if id in clients && s.active && s.plc in {"", u.plc} && s.tag in {"", u.tag} then
                  subs[id] == s.(offered := s.offered + [u],
                                 buffer := if |s.buffer| < 16 then s.buffer + [u] else s.buffer,
                                 dropped := s.dropped || |s.buffer| == 16)
                else subs[id] == s
    {
      var rest := clients;
      hide ChannelOk, Offer, Matches;
      while rest != {}
        invariant rest <= clients && subs.Keys == old(subs.Keys) && Valid()
        invariant forall id :: id in subs ==>
                    subs[id] == (if id in clients - rest && Matches(old(subs)[id], u) then Offer(old(subs)[id], u)
                                 else old(subs)[id])
        decreases rest
      {
        var id :| id in rest;
        if Matches(subs[id], u) {
          OfferKeeps(subs[id], u);
          subs := subs[id := Offer(subs[id], u)];
        }
        rest := rest - {id};
      }
      forall id | id in subs
        ensures Matches(old(subs)[id], u) ==> subs[id] == (if id in clients then Offer(old(subs)[id], u) else old(subs)[id])
        ensures Matches(old(subs)[id], u) <==>
                  && old(subs)[id].active && old(subs)[id].plc in {"", u.plc} && old(subs)[id].tag in {"", u.tag}
      {
        MatchesByName(old(subs)[id], u);
      }
      forall id | id in subs && id in clients
        ensures Offer(old(subs)[id], u) ==
                  old(subs)[id].(offered := old(subs)[id].offered + [u],
                                 buffer := if |old(subs)[id].buffer| < 16 then old(subs)[id].buffer + [u]
                                           else old(subs)[id].buffer,
                                 dropped := old(subs)[id].dropped || |old(subs)[id].buffer| == 16)
      {
        OfferKeeps(old(subs)[id], u);
      }
    }
  }

  /** A filter that names a PLC or a tag lets only that one pass. */
  lemma MatchesByName(s: Subscriber, u: Update)
    ensures Matches(s, u) <==> s.active && s.plc in {"", u.plc} && s.tag in {"", u.tag}
  {
  }

  method FreshId(ids: set<nat>) returns (id: nat)
    ensures id !in ids
  {
    id := 0;
    var rest := ids;
    while rest != {}
      invariant rest <= ids && forall other :: other in ids && other !in rest ==> other < id
      decreases rest
    {
      var k :| k in rest;
      if k >= id {
        id := k + 1;
      }
      rest := rest - {k};
    }
  }
}

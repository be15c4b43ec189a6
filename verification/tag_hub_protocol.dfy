/** The hub with any number of concurrent publishers, subscribers and readers: every
    lock, match and send is a step of its own. */
module TagHubProtocol {
  import opened Base
  import opened TagHub

  /** A publish call under the hub's read lock: the clients it has yet to visit, the one
      whose filter has just matched, and the verdicts and offers so far. */
  datatype Publisher = Publisher(
    u: Update,
    rest: set<nat>,
    matched: Option<nat>,
    verdicts: map<nat, bool>,
    offers: set<nat>)

  datatype State = State(clients: set<nat>, subs: map<nat, Subscriber>, pubs: map<nat, Publisher>)

  datatype Step =
    | Register(id: nat)
    | Unregister(id: nat)
    | SetFilter(id: nat, plc: string, tag: string)
    | Unsubscribe(id: nat)
    | Begin(p: nat, u: Update)
    | Visit(p: nat, id: nat)
    | Send(p: nat)
    | End(p: nat)
    | Read(id: nat)

  const START := State({}, map[], map[])

  /** register and unregister need the write lock, so no publish may be under way; a
      subscriber is registered once and unregistered once. */
  predicate Enabled(s: State, st: Step) {
    match st
    case Register(id) => s.pubs == map[] && id !in s.subs
    case Unregister(id) => s.pubs == map[] && id in s.clients && id in s.subs
    case SetFilter(id, _, _) => id in s.subs
    case Unsubscribe(id) => id in s.subs
    case Begin(p, _) => p !in s.pubs
    case Visit(p, id) => p in s.pubs && s.pubs[p].matched.None? && id in s.pubs[p].rest && id in s.subs
    case Send(p) => p in s.pubs && s.pubs[p].matched.Some? && s.pubs[p].matched.value in s.subs
    case End(p) => p in s.pubs && s.pubs[p].matched.None? && s.pubs[p].rest == {}
    case Read(id) => id in s.subs && s.subs[id].buffer != []
  }

  function Visited(s: State, p: nat, id: nat): Publisher
    requires p in s.pubs && id in s.subs
  {
    var pub := s.pubs[p];
    var yes := Matches(s.subs[id], pub.u);
    pub.(rest := pub.rest - {id}, matched := if yes then Some(id) else None, verdicts := pub.verdicts[id := yes])
  }

  function Sent(pub: Publisher): Publisher
    requires pub.matched.Some?
  {
    pub.(matched := None, offers := pub.offers + {pub.matched.value})
  }

  function Apply(s: State, st: Step): State
    requires Enabled(s, st)
  {
    match st
    case Register(id) => s.(clients := s.clients + {id}, subs := s.subs[id := NEW_SUBSCRIBER])
    case Unregister(id) => s.(clients := s.clients - {id}, subs := s.subs[id := s.subs[id].(open := false)])
    case SetFilter(id, plc, tag) => s.(subs := s.subs[id := s.subs[id].(plc := plc, tag := tag, active := true)])
    case Unsubscribe(id) => s.(subs := s.subs[id := s.subs[id].(plc := "", tag := "", active := false)])
    case Begin(p, u) => s.(pubs := s.pubs[p := Publisher(u, s.clients, None, map[], {})])
    case Visit(p, id) => s.(pubs := s.pubs[p := Visited(s, p, id)])
    case Send(p) =>
      var id := s.pubs[p].matched.value;
      s.(subs := s.subs[id := Offer(s.subs[id], s.pubs[p].u)], pubs := s.pubs[p := Sent(s.pubs[p])])
    case End(p) => s.(pubs := s.pubs - {p})
    case Read(id) => s.(subs := s.subs[id := Consume(s.subs[id])])
  }

  predicate IsRun(s: State, run: seq<Step>)
    decreases |run|
  {
    run == [] || (Enabled(s, run[0]) && IsRun(Apply(s, run[0]), run[1..]))
  }

  function After(s: State, run: seq<Step>): State
    requires IsRun(s, run)
    decreases |run|
  {
    if run == [] then s else After(Apply(s, run[0]), run[1..])
  }

  // ----- what every step keeps -----

  ghost predicate ClientsOk(s: State) {
    && (forall id :: id in s.clients ==> id in s.subs)
    && (forall id :: id in s.subs ==> (s.subs[id].open <==> id in s.clients))
  }

  ghost predicate ChannelsOk(s: State) {
    forall id :: id in s.subs ==> ChannelOk(s.subs[id])
  }

  /** A publish call has visited some clients and has the others to visit; it has made an
      offer to those whose filter matched, but for the one it is about to send to. */
  ghost predicate PublisherOk(clients: set<nat>, pub: Publisher) {
    && pub.rest + pub.verdicts.Keys == clients && pub.rest !! pub.verdicts.Keys
    && (forall id :: id in pub.verdicts && pub.verdicts[id] <==> id in pub.offers || pub.matched == Some(id))
    && (pub.matched.Some? ==> pub.matched.value !in pub.offers)
  }

  ghost predicate PublishersOk(s: State) {
    forall p :: p in s.pubs ==> PublisherOk(s.clients, s.pubs[p])
  }

  ghost predicate Inv(s: State) {
    ClientsOk(s) && ChannelsOk(s) && PublishersOk(s)
  }

  lemma VisitKeeps(s: State, p: nat, id: nat)
    requires PublishersOk(s) && Enabled(s, Visit(p, id))
    ensures PublisherOk(s.clients, Visited(s, p, id))
  {
    var pub, next := s.pubs[p], Visited(s, p, id);
    assert PublisherOk(s.clients, pub);
    assert next.verdicts.Keys == pub.verdicts.Keys + {id};
    hide Matches;
  }

  lemma SendKeeps(clients: set<nat>, pub: Publisher)
    requires PublisherOk(clients, pub) && pub.matched.Some?
    ensures PublisherOk(clients, Sent(pub))
  {
  }

  lemma StepKeeps(s: State, st: Step)
    requires Inv(s) && Enabled(s, st)
    ensures Inv(Apply(s, st))
  {
    hide ChannelOk, Matches, Offer, Consume;
    match st
    case Register(id) => NewChannel();
    case Begin(p, u) => assert s.clients + {} == s.clients;
    case SetFilter(id, plc, tag) => SameChannel(s.subs[id], Apply(s, st).subs[id]);
    case Unsubscribe(id) => SameChannel(s.subs[id], Apply(s, st).subs[id]);
    case Unregister(id) => SameChannel(s.subs[id], Apply(s, st).subs[id]);
    case Visit(p, id) =>
      VisitKeeps(s, p, id);
      hide PublisherOk, Visited;
    case Send(p) =>
      OfferKeeps(s.subs[s.pubs[p].matched.value], s.pubs[p].u);
      SendKeeps(s.clients, s.pubs[p]);
      hide PublisherOk, Sent;
    case Read(id) =>
      ConsumeKeeps(s.subs[id]);
      ReadStaysOpen(s.subs[id]);
    case End(p) =>
  }

  lemma NewChannel()
    ensures ChannelOk(NEW_SUBSCRIBER)
  {
  }

  lemma SameChannel(a: Subscriber, b: Subscriber)
    requires ChannelOk(a) && b == a.(plc := b.plc, tag := b.tag, active := b.active, open := b.open)
    ensures ChannelOk(b)
  {
  }

  lemma ReadStaysOpen(a: Subscriber)
    requires a.buffer != []
    ensures Consume(a).open == a.open
  {
  }

  lemma {:induction false} RunKeeps(s: State, run: seq<Step>)
    requires Inv(s) && IsRun(s, run)
    ensures Inv(After(s, run))
    decreases |run|
  {
    hide Inv, Enabled, Apply;
    if run != [] {
      StepKeeps(s, run[0]);
      RunKeeps(Apply(s, run[0]), run[1..]);
    }
  }

  // ----- what that means -----

  /** Some Send of the run to subscriber id found 16 updates in its buffer. */
  predicate MetFull(s: State, run: seq<Step>, id: nat)
    requires IsRun(s, run)
    decreases |run|
  {
    run != [] &&
    ((run[0].Send? && s.pubs[run[0].p].matched == Some(id) && |s.subs[id].buffer| == 16)
     || MetFull(Apply(s, run[0]), run[1..], id))
  }

  /** The flag of a subscriber that does not exist yet counts as not set. */
  predicate Dropped(s: State, id: nat) {
    id in s.subs && s.subs[id].dropped
  }

  lemma StepDrops(s: State, st: Step, id: nat)
    requires Inv(s) && Enabled(s, st)
    ensures Dropped(Apply(s, st), id) <==>
            Dropped(s, id) || (st.Send? && s.pubs[st.p].matched == Some(id) && |s.subs[id].buffer| == 16)
  {
    if st.Send? {
      OfferKeeps(s.subs[s.pubs[st.p].matched.value], s.pubs[st.p].u);
    }
    hide ChannelOk, Matches, Offer;
  }

  lemma {:induction false} DroppedIffFull(s: State, run: seq<Step>, id: nat)
    requires Inv(s) && IsRun(s, run)
    ensures Dropped(After(s, run), id) <==> Dropped(s, id) || MetFull(s, run, id)
    decreases |run|
  {
    hide Inv, Dropped, Apply;
    if run != [] {
      StepKeeps(s, run[0]);
      StepDrops(s, run[0], id);
      DroppedIffFull(Apply(s, run[0]), run[1..], id);
    }
  }

  /** In every run: what a subscriber has consumed followed by its buffer is, in order, a
      subsequence of what it was offered, and all of it if every Send of the run to it
      found fewer than 16 updates in the buffer, which never exceeds 16. */
  lemma Delivery(run: seq<Step>, id: nat)
    requires IsRun(START, run) && id in After(START, run).subs
    ensures var sub := After(START, run).subs[id];
            && |sub.buffer| <= 16
            && Subsequence(sub.consumed + sub.buffer, sub.offered)
            && (!MetFull(START, run, id) ==> sub.consumed + sub.buffer == sub.offered)
  {
    RunKeeps(START, run);
    DroppedIffFull(START, run, id);
  }

  /** In every run a Send puts the update at the end of the buffer of the one client it is
      for when that has room, and drops it when the buffer holds 16; a Read takes the
      oldest update of the buffer; neither touches another client. */
  lemma SendsAndReads(run: seq<Step>, st: Step)
    requires IsRun(START, run) && Enabled(After(START, run), st) && (st.Send? || st.Read?)
    ensures var s := After(START, run);
            var t, id := Apply(s, st), if st.Send? then s.pubs[st.p].matched.value else st.id;
            && t.subs.Keys == s.subs.Keys && (forall i :: i in s.subs && i != id ==> t.subs[i] == s.subs[i])
            && (st.Send? ==>
                  && t.subs[id].consumed == s.subs[id].consumed
                  && t.subs[id].buffer ==
                     if |s.subs[id].buffer| < 16 then s.subs[id].buffer + [s.pubs[st.p].u] else s.subs[id].buffer)
            && (st.Read? ==>
                  && s.subs[id].buffer == [s.subs[id].buffer[0]] + t.subs[id].buffer
                  && t.subs[id].consumed == s.subs[id].consumed + [s.subs[id].buffer[0]])
  {
    RunKeeps(START, run);
    var s := After(START, run);
    if st.Send? {
      OfferKeeps(s.subs[s.pubs[st.p].matched.value], s.pubs[st.p].u);
    } else {
      ConsumeKeeps(s.subs[st.id]);
    }
    hide After, IsRun, ChannelOk, Offer, Consume, PublisherOk;
  }

  /** A visit finds a match exactly when the client's filter is active at that moment and
      names no other PLC and no other tag. */
  lemma VisitFollowsFilter(s: State, p: nat, id: nat)
    requires Enabled(s, Visit(p, id))
    ensures var sub, u, t := s.subs[id], s.pubs[p].u, Apply(s, Visit(p, id));
            && t.pubs[p].u == u && t.subs == s.subs && id in t.pubs[p].verdicts
            && (t.pubs[p].verdicts[id] <==> sub.active && sub.plc in {"", u.plc} && sub.tag in {"", u.tag})
            && t.pubs[p].matched == if t.pubs[p].verdicts[id] then Some(id) else None
  {
    MatchesByName(s.subs[id], s.pubs[p].u);
    hide Matches;
  }

  /** What is offered to a subscriber is exactly the updates whose publish call found its
      filter matching: a Send is for the client of the publisher's last Visit, whose
      verdict was yes. Its channel is open, so no update is sent on a closed channel. */
  lemma SendsAreMatchedAndOpen(run: seq<Step>, p: nat)
    requires IsRun(START, run) && p in After(START, run).pubs && After(START, run).pubs[p].matched.Some?
    ensures var s := After(START, run);
            var pub, id := s.pubs[p], s.pubs[p].matched.value;
            && Enabled(s, Send(p))
            && id in pub.verdicts && pub.verdicts[id] && id !in pub.offers
            && s.subs[id].open
            && Apply(s, Send(p)).subs[id].offered == s.subs[id].offered + [pub.u]
  {
    RunKeeps(START, run);
    var s := After(START, run);
    hide After, IsRun, ChannelOk, Matches;
    assert PublisherOk(s.clients, s.pubs[p]);
  }

  /** A publish call returns having visited every client once and having offered the
      update to exactly those whose filter matched when it visited them. */
  lemma PublishIsComplete(run: seq<Step>, p: nat)
    requires IsRun(START, run) && Enabled(After(START, run), End(p))
    ensures var s := After(START, run);
            && s.pubs[p].verdicts.Keys == s.clients
            && s.pubs[p].offers == set id | id in s.clients && s.pubs[p].verdicts[id]
  {
    RunKeeps(START, run);
    var s := After(START, run);
    hide After, IsRun, ChannelOk, Matches;
    assert PublisherOk(s.clients, s.pubs[p]);
    assert s.pubs[p].verdicts.Keys == s.clients;
  }

  /** publish never blocks: whatever its subscribers and other publishers do, a publish
      call under way has a step to take. */
  lemma PublishNeverBlocks(run: seq<Step>, p: nat)
    requires IsRun(START, run) && p in After(START, run).pubs
    ensures var s := After(START, run);
            || Enabled(s, Send(p)) || Enabled(s, End(p))
            || exists id :: Enabled(s, Visit(p, id))
  {
    RunKeeps(START, run);
    var s := After(START, run);
    hide After, IsRun, ChannelOk, Matches;
    var pub := s.pubs[p];
    assert PublisherOk(s.clients, pub);
    if pub.matched.None? && pub.rest != {} {
      var id :| id in pub.rest;
      assert id in s.clients;
      assert Enabled(s, Visit(p, id));
    }
  }
}

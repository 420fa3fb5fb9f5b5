/**
  The in-process change feed (internal/events/hub.go): bounded queues, one per
  subscriber, and a hub that drops whoever stops reading.
 */
module Hub {
  import opened Sequences

  datatype Event = Event(project: int, story: int, stories: seq<int>, client: string)

  /** One story travels alone, several as a list. */
  function StoriesEvent(project: int, ids: seq<int>, client: string): Event {
    if |ids| == 1 then Event(project, ids[0], [], client) else Event(project, 0, ids, client)
  }

  const BUFFER: nat := 16

  datatype Status = Open | Dropped | Cancelled

  /** A subscriber's channel, with the project and the once-flag its cancel function captured. */
  datatype Channel = Channel(project: int, queue: seq<Event>, status: Status, done: bool)

  datatype Feed = Feed(subs: map<int, set<nat>>, channels: map<nat, Channel>, next: nat, dropped: nat)

  const SILENT := Feed(map[], map[], 0, 0)

  // ----- the steps on values -----

  function Registered(subs: map<int, set<nat>>, project: int): set<nat> {
    if project in subs then subs[project] else {}
  }

  /** Inner maps that became empty are deleted. */
  function Kept(subs: map<int, set<nat>>, project: int, ids: set<nat>): map<int, set<nat>> {
    if ids == {} then subs - {project} else subs[project := ids]
  }

  function Subscribed(f: Feed, project: int): Feed {
    f.(subs := f.subs[project := Registered(f.subs, project) + {f.next}],
       channels := f.channels[f.next := Channel(project, [], Open, false)],
       next := f.next + 1)
  }

  function CancelledBy(f: Feed, id: nat): Feed
    requires id in f.channels
  {
    var c := f.channels[id];
    if c.done then f
    else if id in Registered(f.subs, c.project) then
      f.(subs := Kept(f.subs, c.project, f.subs[c.project] - {id}),
         channels := f.channels[id := c.(status := Cancelled, done := true)])
    else
      f.(channels := f.channels[id := c.(done := true)])
  }

  /** Who among `to` has a full queue. */
  function Full(channels: map<nat, Channel>, to: set<nat>): set<nat> {
    set id | id in to && id in channels && |channels[id].queue| >= BUFFER
  }

  /** Offering `e` to the channels `to`: queued where it fits, dropped where it does not. */
  function Delivered(channels: map<nat, Channel>, e: Event, to: set<nat>): map<nat, Channel> {
    map id | id in channels :: if id in to then Offered(channels[id], e) else channels[id]
  }

  function Offered(c: Channel, e: Event): Channel {
    if |c.queue| < BUFFER then c.(queue := c.queue + [e]) else c.(status := Dropped)
  }

  function Published(f: Feed, e: Event): Feed {
    var to := Registered(f.subs, e.project);
    var full := Full(f.channels, to);
    f.(subs := Kept(f.subs, e.project, to - full), channels := Delivered(f.channels, e, to), dropped := f.dropped + |full|)
  }

  /** A receive takes the oldest queued event; with none it blocks, or reports the close. */
  function Received(f: Feed, id: nat): Feed
    requires id in f.channels
  {
    var c := f.channels[id];
    if c.queue == [] then f else f.(channels := f.channels[id := c.(queue := c.queue[1..])])
  }

  datatype Op = Subscribe(project: int) | Cancel(id: nat) | Publish(event: Event) | Receive(id: nat)

  ghost predicate Enabled(f: Feed, op: Op) {
    match op
    case Cancel(id) => id in f.channels
    case Receive(id) => id in f.channels
    case _ => true
  }

  function Apply(f: Feed, op: Op): Feed
    requires Enabled(f, op)
  {
    match op
    case Subscribe(p) => Subscribed(f, p)
    case Cancel(id) => CancelledBy(f, id)
    case Publish(e) => Published(f, e)
    case Receive(id) => Received(f, id)
  }

  // ----- what every interleaving keeps -----

  ghost predicate Member(f: Feed, id: nat, c: Channel) {
    && (c.status == Open <==> id in Registered(f.subs, c.project))
    && |c.queue| <= 16
    && (forall e | e in c.queue :: e.project == c.project)
    && (c.status == Cancelled ==> c.done)
  }

  function Ids(f: Feed, status: Status): set<nat> {
    set id | id in f.channels && f.channels[id].status == status
  }

  /** A channel is open exactly while it is registered, under its own project only;
      no project keeps an empty map; `dropped` counts the channels that fell behind. */
  ghost predicate FeedOk(f: Feed) {
    && (forall id: nat :: id in f.channels <==> id < f.next)
    && (forall id | id in f.channels :: Member(f, id, f.channels[id]))
    && SubsOk(f)
    && f.dropped == |Ids(f, Dropped)|
  }

  ghost predicate SubsOk(f: Feed) {
    && (forall p | p in f.subs :: f.subs[p] != {})
    && (forall p, id | p in f.subs && id in f.subs[p] :: id in f.channels && f.channels[id].project == p)
  }

  lemma SubscribeKeeps(f: Feed, project: int)
    requires FeedOk(f)
    ensures FeedOk(Subscribed(f, project))
  {
    var g := Subscribed(f, project);
    assert Ids(g, Dropped) == Ids(f, Dropped);
    forall id | id in g.channels ensures Member(g, id, g.channels[id]) {
      if id != f.next {
        SubscribeMember(f, project, id);
      }
    }
    SubscribeSubs(f, project);
  }

  lemma SubscribeMember(f: Feed, project: int, id: nat)
    requires id in f.channels && id != f.next && Member(f, id, f.channels[id])
    ensures Member(Subscribed(f, project), id, f.channels[id])
  {
  }

  lemma SubscribeSubs(f: Feed, project: int)
    requires SubsOk(f) && f.next !in f.channels
    ensures SubsOk(Subscribed(f, project))
  {
  }

  lemma CancelKeeps(f: Feed, id: nat)
    requires FeedOk(f) && id in f.channels
    ensures FeedOk(CancelledBy(f, id))
  {
    var g, c := CancelledBy(f, id), f.channels[id];
    assert Member(f, id, c);
    assert Ids(g, Dropped) == Ids(f, Dropped);
    forall i | i in g.channels ensures Member(g, i, g.channels[i]) {
      assert Member(f, i, f.channels[i]);
    }
  }

  lemma PublishKeeps(f: Feed, e: Event)
    requires FeedOk(f)
    ensures FeedOk(Published(f, e))
  {
    var g := Published(f, e);
    forall i | i in g.channels ensures Member(g, i, g.channels[i]) {
      PublishMember(f, e, i);
    }
    PublishCounts(f, e);
    assert SubsOk(g);
  }

  lemma PublishMember(f: Feed, e: Event, i: nat)
    requires i in f.channels && Member(f, i, f.channels[i])
    requires i in Registered(f.subs, e.project) ==> f.channels[i].project == e.project
    ensures Member(Published(f, e), i, Published(f, e).channels[i])
  {
  }

  lemma PublishCounts(f: Feed, e: Event)
    requires FeedOk(f)
    ensures |Ids(Published(f, e), Dropped)| == |Ids(f, Dropped)| + |Full(f.channels, Registered(f.subs, e.project))|
  {
    var was, full := Ids(f, Dropped), Full(f.channels, Registered(f.subs, e.project));
    assert Ids(Published(f, e), Dropped) == was + full;
    FullAreOpen(f, e.project);
    assert was !! full;
  }

  lemma FullAreOpen(f: Feed, project: int)
    requires FeedOk(f)
    ensures Full(f.channels, Registered(f.subs, project)) <= Ids(f, Open)
  {
    forall i | i in Full(f.channels, Registered(f.subs, project)) ensures f.channels[i].status == Open {
      assert Member(f, i, f.channels[i]);
    }
  }

  lemma ReceiveKeeps(f: Feed, id: nat)
    requires FeedOk(f) && id in f.channels
    ensures FeedOk(Received(f, id))
  {
    var g := Received(f, id);
    assert Ids(g, Dropped) == Ids(f, Dropped);
    forall i | i in g.channels ensures Member(g, i, g.channels[i]) {
      assert Member(f, i, f.channels[i]);
    }
  }

  lemma StepKeeps(f: Feed, op: Op)
    requires FeedOk(f) && Enabled(f, op)
    ensures FeedOk(Apply(f, op))
  {
    match op {
      case Subscribe(p) => SubscribeKeeps(f, p);
      case Cancel(id) => CancelKeeps(f, id);
      case Publish(e) => PublishKeeps(f, e);
      case Receive(id) => ReceiveKeeps(f, id);
    }
  }

  ghost predicate Run(states: seq<Feed>, ops: seq<Op>) {
    && |states| == |ops| + 1 && states[0] == SILENT
    && forall i | 0 <= i < |ops| :: Enabled(states[i], ops[i]) && states[i + 1] == Apply(states[i], ops[i])
  }

  lemma {:induction false} RunKeepsFeed(states: seq<Feed>, ops: seq<Op>, i: nat)
    requires Run(states, ops) && i < |states|
    ensures FeedOk(states[i])
  {
    if i > 0 {
      RunKeepsFeed(states, ops, i - 1);
      StepKeeps(states[i - 1], ops[i - 1]);
    } else {
      assert Ids(SILENT, Dropped) == {};
    }
  }

  // ----- nothing is lost silently -----

  /** The events published for a project during the steps from `i` up to `j`. */
  function News(ops: seq<Op>, i: nat, j: nat, project: int): seq<Event>
    requires i <= j <= |ops|
    decreases j
  {
    if i == j then []
    else
      var before := News(ops, i, j - 1, project);
      match ops[j - 1]
      case Publish(e) => if e.project == project then before + [e] else before
      case _ => before
  }

  /** The events subscriber `id` has received by step `j`. */
  function Read(states: seq<Feed>, ops: seq<Op>, j: nat, id: nat): seq<Event>
    requires j <= |ops| < |states|
  {
    if j == 0 then []
    else
      var before := Read(states, ops, j - 1, id);
      if ops[j - 1] == Receive(id) && id in states[j - 1].channels && states[j - 1].channels[id].queue != [] then
        before + [states[j - 1].channels[id].queue[0]]
      else before
  }

  ghost predicate IsOpen(states: seq<Feed>, j: nat, id: nat)
    requires j < |states|
  {
    id in states[j].channels && states[j].channels[id].status == Open
  }

  /** The step that took the channel from open to closed. */
  ghost predicate ClosesAt(states: seq<Feed>, k: nat, id: nat)
    requires k + 1 < |states|
  {
    IsOpen(states, k, id) && !IsOpen(states, k + 1, id)
  }

  /** Received and queued make up exactly the news since the subscription up to step `k`. */
  ghost predicate Holds(states: seq<Feed>, ops: seq<Op>, i: nat, j: nat, k: nat, id: nat, project: int)
    requires i <= k <= j <= |ops| < |states| && id in states[j].channels
  {
    Read(states, ops, j, id) + states[j].channels[id].queue == News(ops, i, k, project)
  }

  lemma {:induction false} NothingReadBefore(states: seq<Feed>, ops: seq<Op>, j: nat, id: nat)
    requires Run(states, ops) && j <= |ops| && id !in states[j].channels
    ensures Read(states, ops, j, id) == []
  {
    if j > 0 {
      assert id !in states[j - 1].channels;
      NothingReadBefore(states, ops, j - 1, id);
    }
  }

  /** One step of a subscriber's channel. */
  lemma ChannelStep(f: Feed, op: Op, id: nat)
    requires FeedOk(f) && Enabled(f, op) && id in f.channels
    ensures id in Apply(f, op).channels
    ensures var c, d := f.channels[id], Apply(f, op).channels[id];
            && d.project == c.project
            && (d.status == Open ==> c.status == Open)
            && (d.queue == if op == Receive(id) && c.queue != [] then c.queue[1..]
                           else if op.Publish? && op.event.project == c.project && c.status == Open && d.status == Open
                           then c.queue + [op.event] else c.queue)
            && (c.status == Open && d.status == Dropped ==>
                  op.Publish? && op.event.project == c.project && |c.queue| == 16)
            && (c.status == Open && d.status == Cancelled ==> op == Cancel(id))
  {
    assert Member(f, id, f.channels[id]);
  }

  /** One step of a subscriber's account: what it read and what its queue holds. */
  lemma AccountStep(states: seq<Feed>, ops: seq<Op>, j: nat, id: nat)
    requires Run(states, ops) && j < |ops| && id in states[j].channels
    ensures id in states[j + 1].channels && states[j + 1].channels[id].project == states[j].channels[id].project
    ensures var c, d := states[j].channels[id], states[j + 1].channels[id];
            && (d.status == Open ==> c.status == Open)
            && Read(states, ops, j + 1, id) + d.queue == Read(states, ops, j, id) + c.queue +
                 (if d.status == Open then News(ops, j, j + 1, c.project) else [])
            && (c.status == Open && d.status != Open ==> Explained(states, ops, j, id, c.project))
  {
    RunKeepsFeed(states, ops, j);
    ChannelStep(states[j], ops[j], id);
    var c := states[j].channels[id];
    assert News(ops, j, j, c.project) == [];
    var read := Read(states, ops, j, id);
    if ops[j] == Receive(id) && c.queue != [] {
      assert (read + [c.queue[0]]) + c.queue[1..] == read + c.queue;
    } else if ops[j].Publish? {
      assert read + (c.queue + [ops[j].event]) == (read + c.queue) + [ops[j].event];
    }
  }

  lemma {:induction false} NewsSplit(ops: seq<Op>, i: nat, j: nat, project: int)
    requires i <= j < |ops|
    ensures News(ops, i, j + 1, project) == News(ops, i, j, project) + News(ops, j, j + 1, project)
  {
    assert News(ops, j, j, project) == [];
  }

  /** Why the channel closed at step `k`: its own cancel, or a publish that found sixteen events unread. */
  ghost predicate Explained(states: seq<Feed>, ops: seq<Op>, k: nat, id: nat, project: int)
    requires k < |ops| < |states| && id in states[k].channels
  {
    ops[k] == Cancel(id) || (ops[k].Publish? && ops[k].event.project == project && |states[k].channels[id].queue| == 16)
  }

  ghost predicate ClosedWith(states: seq<Feed>, ops: seq<Op>, i: nat, j: nat, k: nat, id: nat, project: int)
    requires i < j <= |ops| < |states| && id in states[j].channels
  {
    && i < k < j && ClosesAt(states, k, id)
    && Explained(states, ops, k, id, project)
    && Holds(states, ops, i + 1, j, k, id, project)
  }

  /** The state of the account of the subscription made at step `i`. */
  ghost predicate AccountOk(states: seq<Feed>, ops: seq<Op>, i: nat, j: nat, project: int)
    requires i < j <= |ops| < |states|
  {
    var id := states[i].next;
    && id in states[j].channels && states[j].channels[id].project == project
    && (IsOpen(states, j, id) ==> Holds(states, ops, i + 1, j, j, id, project))
    && (!IsOpen(states, j, id) ==> exists k :: ClosedWith(states, ops, i, j, k, id, project))
  }

  lemma AccountOpens(states: seq<Feed>, ops: seq<Op>, i: nat, project: int)
    requires Run(states, ops) && i < |ops| && ops[i] == Subscribe(project)
    ensures AccountOk(states, ops, i, i + 1, project)
  {
    RunKeepsFeed(states, ops, i);
    NothingReadBefore(states, ops, i, states[i].next);
    assert News(ops, i + 1, i + 1, project) == [];
  }

  lemma AccountContinues(states: seq<Feed>, ops: seq<Op>, i: nat, j: nat, project: int)
    requires Run(states, ops) && i < j < |ops| && AccountOk(states, ops, i, j, project)
    ensures AccountOk(states, ops, i, j + 1, project)
  {
    var id := states[i].next;
    AccountStep(states, ops, j, id);
    if IsOpen(states, j + 1, id) {
      NewsSplit(ops, i + 1, j, project);
    } else if IsOpen(states, j, id) {
      assert ClosedWith(states, ops, i, j + 1, j, id, project);
    } else {
      var k :| ClosedWith(states, ops, i, j, k, id, project);
      assert ClosedWith(states, ops, i, j + 1, k, id, project);
    }
  }

  /** For every interleaving and the subscription made at step `i`: while its channel
      is open, what was received plus what is queued is every event published for its
      project since. Once closed, it is exactly everything up to the closing step. */
  lemma NothingLostSilently(states: seq<Feed>, ops: seq<Op>, i: nat, j: nat, project: int)
    requires Run(states, ops) && i < j <= |ops| && ops[i] == Subscribe(project)
    ensures AccountOk(states, ops, i, j, project)
  {
    AccountOpens(states, ops, i, project);
    forall k | i < k < |ops| && AccountOk(states, ops, i, k, project) ensures AccountOk(states, ops, i, k + 1, project) {
      AccountContinues(states, ops, i, k, project);
    }
    AccountAt(states, ops, i, j, project);
  }

  lemma {:induction false} AccountAt(states: seq<Feed>, ops: seq<Op>, i: nat, j: nat, project: int)
    requires i < j <= |ops| < |states| && AccountOk(states, ops, i, i + 1, project)
    requires forall k | i < k < |ops| && AccountOk(states, ops, i, k, project) :: AccountOk(states, ops, i, k + 1, project)
    ensures AccountOk(states, ops, i, j, project)
    decreases j
  {
    if j > i + 1 {
      AccountAt(states, ops, i, j - 1, project);
    }
  }

  /** The feed once `e` was offered to the subscribers `to`, the rest still to come. */
  function AfterOffers(f: Feed, e: Event, to: set<nat>): Feed
    requires e.project in f.subs
  {
    f.(subs := f.subs[e.project := f.subs[e.project] - Full(f.channels, to)],
       channels := Delivered(f.channels, e, to),
       dropped := f.dropped + |Full(f.channels, to)|)
  }

  /** Each subscriber is offered to once, on its own channel, so the order does not matter. */
  lemma OfferOne(f: Feed, e: Event, to: set<nat>, id: nat)
    requires e.project in f.subs && id in f.channels && id !in to && id in f.subs[e.project]
    ensures var g := AfterOffers(f, e, to);
            && id in g.channels && g.channels[id] == f.channels[id] && id in g.subs[e.project]
            && AfterOffers(f, e, to + {id}) == AfterOffers(g, e, {id})
  {
    var g := AfterOffers(f, e, to);
    assert Full(g.channels, {id}) == Full(f.channels, {id});
    assert Full(f.channels, to + {id}) == Full(f.channels, to) + Full(f.channels, {id});
    assert Full(f.channels, to) !! Full(f.channels, {id});
    assert Delivered(f.channels, e, to + {id}) == Delivered(g.channels, e, {id});
    assert f.subs[e.project] - Full(f.channels, to + {id}) == g.subs[e.project] - Full(g.channels, {id});
  }

  lemma OfferNone(f: Feed, e: Event)
    requires e.project in f.subs
    ensures AfterOffers(f, e, {}) == f
  {
    assert Full(f.channels, {}) == {};
    assert f.subs[e.project] - {} == f.subs[e.project];
    assert f.subs[e.project := f.subs[e.project]] == f.subs;
    assert Delivered(f.channels, e, {}) == f.channels;
  }

  lemma NobodyListens(f: Feed, e: Event)
    requires e.project !in f.subs
    ensures Published(f, e) == f
  {
    assert f.subs - {e.project} == f.subs && Full(f.channels, {}) == {};
    assert Delivered(f.channels, e, {}) == f.channels;
  }

  function Streams(channels: map<nat, Channel>, project: int): set<nat> {
    set id | id in channels && channels[id].status == Open && (project == 0 || channels[id].project == project)
  }

  // ----- the hub as the source runs it -----

  class Broker {
    var subs: map<int, set<nat>>
    var channels: map<nat, Channel>
    var next: nat
    var dropped: nat

    ghost function State(): Feed
      reads this
    {
      Feed(subs, channels, next, dropped)
    }

    constructor ()
      ensures State() == SILENT
    {
      subs, channels, next, dropped := map[], map[], 0, 0;
    }

    /** A send on a closed channel panics. True if the event fitted. */
    method TrySend(id: nat, e: Event) returns (sent: bool)
      requires id in channels && channels[id].status == Open
      modifies this`channels
      ensures sent <==> |old(channels)[id].queue| < BUFFER
      ensures channels == if sent then old(channels)[id := old(channels)[id].(queue := old(channels)[id].queue + [e])] else old(channels)
    {
      sent := |channels[id].queue| < BUFFER;
      if sent {
        channels := channels[id := channels[id].(queue := channels[id].queue + [e])];
      }
    }

    /** Closing a closed channel panics. */
    method Close(id: nat, why: Status)
      requires id in channels && channels[id].status == Open && why != Open
      modifies this`channels
      ensures channels == old(channels)[id := old(channels)[id].(status := why)]
    {
      channels := channels[id := channels[id].(status := why)];
    }

    method DeleteIfEmpty(project: int)
      modifies this`subs
      ensures subs == if Registered(old(subs), project) == {} then old(subs) - {project} else old(subs)
    {
      if project !in subs || subs[project] == {} {
        subs := subs - {project};
      }
    }

    method Subscribe(project: int) returns (id: nat)
      modifies this
      ensures State() == Subscribed(old(State()), project) && id == old(next)
    {
      id := next;
      next := next + 1;
      if project !in subs {
        subs := subs[project := {}];
      }
      subs := subs[project := subs[project] + {id}];
      channels := channels[id := Channel(project, [], Open, false)];
    }

    /** The function Subscribe hands back; it acts once. */
    method Cancel(id: nat)
      requires FeedOk(State()) && id in channels
      modifies this
      ensures State() == CancelledBy(old(State()), id) && FeedOk(State())
    {
      CancelKeeps(State(), id);
      var c := channels[id];
      assert Member(State(), id, c);
      if !c.done {
        channels := channels[id := c.(done := true)];
        if c.project in subs && id in subs[c.project] {
          subs := subs[c.project := subs[c.project] - {id}];
          Close(id, Cancelled);
        }
        DeleteIfEmpty(c.project);
      }
    }

    /** Queues the event, or drops a stuck subscriber rather than stall every writer. */
    method Offer(id: nat, e: Event)
      requires id in channels && channels[id].status == Open
      requires e.project in subs && id in subs[e.project]
      modifies this`subs, this`channels, this`dropped
      ensures State() == AfterOffers(old(State()), e, {id})
    {
      ghost var f := State();
      OfferNone(f, e);
      var sent := TrySend(id, e);
      if sent {
        assert Full(f.channels, {id}) == {};
      } else {
        assert Full(f.channels, {id}) == {id};
        subs := subs[e.project := subs[e.project] - {id}];
        Close(id, Dropped);
        dropped := dropped + 1;
      }
      assert channels == Delivered(f.channels, e, {id});
    }

    /** Offers `e` to every subscriber of its project, in whatever order the map yields. */
    method OfferAll(e: Event)
      requires FeedOk(State()) && e.project in subs
      modifies this`subs, this`channels, this`dropped
      ensures State() == AfterOffers(old(State()), e, old(subs)[e.project])
    {
      ghost var f := State();
      var todo := subs[e.project];
      ghost var to: set<nat> := {};
      OfferNone(f, e);
      while exists id :: id in todo
        invariant todo + to == f.subs[e.project] && todo !! to
        invariant State() == AfterOffers(f, e, to)
        decreases todo
      {
        var id :| id in todo;
        assert Member(f, id, f.channels[id]);
        OfferOne(f, e, to, id);
        Offer(id, e);
        todo, to := todo - {id}, to + {id};
      }
      assert todo == {};
      assert to == f.subs[e.project];
    }

    method Publish(e: Event)
      requires FeedOk(State())
      modifies this
      ensures State() == Published(old(State()), e) && FeedOk(State())
    {
      PublishKeeps(State(), e);
      ghost var f := State();
      if e.project in subs {
        OfferAll(e);
        assert subs - {e.project} == f.subs - {e.project};
      } else {
        NobodyListens(f, e);
      }
      DeleteIfEmpty(e.project);
    }

    /** Takes the oldest queued event, if any. */
    method Receive(id: nat) returns (e: Option<Event>)
      requires id in channels
      modifies this`channels
      ensures State() == Received(old(State()), id)
      ensures e == if old(channels)[id].queue == [] then None else Some(old(channels)[id].queue[0])
    {
      e := None;
      var queue := channels[id].queue;
      if queue != [] {
        e := Some(queue[0]);
        channels := channels[id := channels[id].(queue := queue[1..])];
      }
    }

    /** Counts the open channels, of one project or of all. */
    method Subscribers(project: int) returns (n: nat)
      requires FeedOk(State())
      ensures n == |Streams(channels, project)|
    {
      forall id | id in channels ensures Member(State(), id, channels[id]) {
      }
      if project != 0 {
        assert Streams(channels, project) == Registered(subs, project);
        return if project in subs then |subs[project]| else 0;
      }
      n := 0;
      var todo := subs.Keys;
      ghost var seen: set<nat> := {};
      while exists p :: p in todo
        invariant todo <= subs.Keys && n == |seen|
        invariant seen == set id | id in Streams(channels, 0) && channels[id].project !in todo
        decreases todo
      {
        var p :| p in todo;
        assert seen !! subs[p] by {
          forall id | id in subs[p] ensures channels[id].project == p {
          }
        }
        n := n + |subs[p]|;
        seen := seen + subs[p];
        todo := todo - {p};
      }
      assert seen == Streams(channels, 0);
    }
  }
}

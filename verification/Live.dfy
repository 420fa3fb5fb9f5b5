/**
  The board's side of the change feed (web/src/lib/live.ts): bursts of events
  are coalesced behind one timer, and a reconnect asks for a refetch.
 */
module Live {
  import opened Sequences
  import Hub

  /** What the browser delivers. A malformed payload carries no client and no ids. */
  datatype Input =
    | Opened(at: int)
    | Failed(at: int)
    | Arrived(at: int, client: string, ids: seq<int>)
    | Fired(at: int)
    | Closed(at: int)

  /** `deadline` is the armed timer; `calls` is every onChange so far, with the ids it reported. */
  datatype Link = Link(deadline: Option<int>, seen: bool, pending: set<int>, closed: bool, calls: seq<set<int>>)

  const FRESH := Link(None, false, {}, false, [])

  /** Zero is not an id. */
  function Real(ids: seq<int>): set<int> {
    set id | id in ids && id != 0
  }

  /** The ids of a payload: the single one, if it was sent, then the list. */
  function PayloadIds(e: Hub.Event): seq<int> {
    (if e.story != 0 then [e.story] else []) + e.stories
  }

  /** What the hub announces about a set of stories is what the board hears. */
  lemma AnnouncedIdsArrive(project: int, ids: seq<int>, client: string)
    ensures var e := Hub.StoriesEvent(project, ids, client);
            && e.project == project && e.client == client
            && forall id :: id in Real(PayloadIds(e)) <==> id in ids && id != 0
  {
    if |ids| == 1 {
      assert ids == [ids[0]];
    } else {
      assert PayloadIds(Hub.StoriesEvent(project, ids, client)) == ids;
    }
  }

  /** An event another tab caused; only a non-empty client id can be one's own. */
  predicate Foreign(client: string, me: string) { client == "" || client != me }

  function Scheduled(l: Link, ids: seq<int>, at: int, debounce: int): Link {
    l.(pending := l.pending + Real(ids), deadline := Some(at + debounce))
  }

  function React(l: Link, input: Input, me: string, debounce: int): Link {
    match input
    case Opened(at) => (if l.seen then Scheduled(l, [], at, debounce) else l).(seen := true)
    case Failed(_) => l
    case Arrived(at, client, ids) => if Foreign(client, me) then Scheduled(l, ids, at, debounce) else l
    case Fired(_) => l.(deadline := None, pending := {}, calls := l.calls + [l.pending])
    case Closed(_) => l.(deadline := None, closed := true)
  }

  /** A timer runs no earlier than its deadline; a closed source delivers nothing. */
  ghost predicate Enabled(l: Link, input: Input) {
    match input
    case Fired(at) => l.deadline.Some? && l.deadline.value <= at
    case _ => !l.closed
  }

  ghost predicate Run(states: seq<Link>, inputs: seq<Input>, me: string, debounce: int) {
    && |states| == |inputs| + 1 && states[0] == FRESH
    && (forall i | 0 <= i < |inputs| :: Enabled(states[i], inputs[i]) && states[i + 1] == React(states[i], inputs[i], me, debounce))
    && (forall i, j | 0 <= i < j < |inputs| :: inputs[i].at <= inputs[j].at)
  }

  // ----- what a run owes the board, read off the inputs alone -----

  predicate EverOpened(inputs: seq<Input>, i: nat)
    requires i <= |inputs|
  {
    exists k | 0 <= k < i :: inputs[k].Opened?
  }

  /** Input `i` is a foreign event, or a reconnect that may have missed some. */
  predicate Calls(inputs: seq<Input>, i: nat, me: string)
    requires i < |inputs|
  {
    match inputs[i]
    case Opened(_) => EverOpened(inputs, i)
    case Arrived(_, client, _) => client == "" || client != me
    case _ => false
  }

  function IdsOf(inputs: seq<Input>, i: nat, me: string): set<int>
    requires i < |inputs|
  {
    match inputs[i]
    case Arrived(_, client, ids) => if client == "" || client != me then set id | id in ids && id != 0 else {}
    case _ => {}
  }

  /** The step after the last firing before `j`. */
  function Since(inputs: seq<Input>, j: nat): (s: nat)
    requires j <= |inputs|
    ensures s <= j
    ensures forall k | s <= k < j :: !inputs[k].Fired?
    ensures s == 0 || inputs[s - 1].Fired?
  {
    if j == 0 then 0 else if inputs[j - 1].Fired? then j else Since(inputs, j - 1)
  }

  ghost function Mentioned(inputs: seq<Input>, s: nat, j: nat, me: string): set<int>
    requires s <= j <= |inputs|
    decreases j
  {
    if s == j then {} else Mentioned(inputs, s, j - 1, me) + IdsOf(inputs, j - 1, me)
  }

  ghost predicate Due(inputs: seq<Input>, s: nat, j: nat, me: string)
    requires s <= j <= |inputs|
  {
    exists k | s <= k < j :: Calls(inputs, k, me)
  }

  /** The state of the link is exactly what the inputs since the last firing call for. */
  ghost predicate Exact(states: seq<Link>, inputs: seq<Input>, j: nat, me: string)
    requires j <= |inputs| < |states|
  {
    var s := Since(inputs, j);
    && states[j].seen == EverOpened(inputs, j)
    && states[j].pending == Mentioned(inputs, s, j, me)
    && (states[j].deadline.Some? <==> !states[j].closed && Due(inputs, s, j, me))
    && (states[j].closed <==> exists k | 0 <= k < j :: inputs[k].Closed?)
  }

  lemma DueStep(inputs: seq<Input>, s: nat, j: nat, me: string)
    requires s <= j < |inputs|
    ensures Due(inputs, s, j + 1, me) <==> Due(inputs, s, j, me) || Calls(inputs, j, me)
    ensures EverOpened(inputs, j + 1) <==> EverOpened(inputs, j) || inputs[j].Opened?
  {
  }

  lemma {:induction false} LinkIsExact(states: seq<Link>, inputs: seq<Input>, j: nat, me: string, debounce: int)
    requires Run(states, inputs, me, debounce) && j <= |inputs|
    ensures Exact(states, inputs, j, me)
  {
    if j > 0 {
      LinkIsExact(states, inputs, j - 1, me, debounce);
      ExactStep(states, inputs, j - 1, me, debounce);
    }
  }

  lemma ExactStep(states: seq<Link>, inputs: seq<Input>, j: nat, me: string, debounce: int)
    requires Run(states, inputs, me, debounce) && j < |inputs| && Exact(states, inputs, j, me)
    ensures Exact(states, inputs, j + 1, me)
  {
    var s := Since(inputs, j);
    DueStep(inputs, s, j, me);
    assert Since(inputs, j + 1) == if inputs[j].Fired? then j + 1 else s;
    assert states[j + 1] == React(states[j], inputs[j], me, debounce);
    if inputs[j].Fired? {
      assert !states[j].closed;
    }
  }

  /** An onChange after input `i` reported its ids. */
  ghost predicate ReportedAt(states: seq<Link>, inputs: seq<Input>, i: nat, k: nat, me: string)
    requires i < k < |inputs| < |states|
  {
    inputs[k].Fired? && IdsOf(inputs, i, me) <= states[k].pending && states[k + 1].calls == states[k].calls + [states[k].pending]
  }

  /** Every foreign event is covered: its ids are in the first onChange after it, or
      the timer that will report them is armed, unless the link was closed meanwhile. */
  lemma EventsAreCovered(states: seq<Link>, inputs: seq<Input>, i: nat, j: nat, me: string, debounce: int)
    requires Run(states, inputs, me, debounce) && i < j <= |inputs| && Calls(inputs, i, me)
    ensures if i < Since(inputs, j) then exists k :: i < k < j && ReportedAt(states, inputs, i, k, me)
            else IdsOf(inputs, i, me) <= states[j].pending && (states[j].deadline.Some? || states[j].closed)
  {
    var s := Since(inputs, j);
    if i < s {
      var k := FirstFiring(inputs, i, s - 1);
      FiringReports(states, inputs, i, k, me, debounce);
    } else {
      LinkIsExact(states, inputs, j, me, debounce);
      MentionedGrows(inputs, s, i, j, me);
    }
  }

  lemma FiringReports(states: seq<Link>, inputs: seq<Input>, i: nat, k: nat, me: string, debounce: int)
    requires Run(states, inputs, me, debounce) && i < k < |inputs| && inputs[k].Fired?
    requires forall m | i <= m < k :: !inputs[m].Fired?
    ensures ReportedAt(states, inputs, i, k, me)
  {
    LinkIsExact(states, inputs, k, me, debounce);
    SinceBefore(inputs, i, k);
    MentionedGrows(inputs, Since(inputs, k), i, k, me);
  }

  /** The first firing at or after `i`, given that `last` is one. */
  lemma FirstFiring(inputs: seq<Input>, i: nat, last: nat) returns (k: nat)
    requires i <= last < |inputs| && inputs[last].Fired?
    ensures i <= k <= last && inputs[k].Fired?
    ensures forall m | i <= m < k :: !inputs[m].Fired?
  {
    k := i;
    while !inputs[k].Fired?
      invariant i <= k <= last
      invariant forall m | i <= m < k :: !inputs[m].Fired?
      decreases last - k
    {
      k := k + 1;
    }
  }

  lemma SinceBefore(inputs: seq<Input>, i: nat, k: nat)
    requires i <= k <= |inputs| && forall m | i <= m < k :: !inputs[m].Fired?
    ensures Since(inputs, k) <= i
  {
    if Since(inputs, k) > i {
      assert false;
    }
  }

  lemma {:induction false} MentionedGrows(inputs: seq<Input>, s: nat, i: nat, j: nat, me: string)
    requires s <= i < j <= |inputs|
    ensures IdsOf(inputs, i, me) <= Mentioned(inputs, s, j, me)
    decreases j
  {
    if i < j - 1 {
      MentionedGrows(inputs, s, i, j - 1, me);
    }
  }

  /** Bursts are coalesced: nothing that called for a refetch lies less than the
      debounce before the onChange that answers it. */
  lemma QuietBeforeFiring(states: seq<Link>, inputs: seq<Input>, i: nat, k: nat, me: string, debounce: int)
    requires Run(states, inputs, me, debounce) && i < k < |inputs| && inputs[k].Fired? && Calls(inputs, i, me)
    ensures inputs[i].at + debounce <= inputs[k].at
  {
    Waits(states, inputs, i, k, me, debounce);
  }

  lemma {:induction false} Waits(states: seq<Link>, inputs: seq<Input>, i: nat, j: nat, me: string, debounce: int)
    requires Run(states, inputs, me, debounce) && i < j <= |inputs| && Calls(inputs, i, me)
    ensures states[j].deadline.Some? ==> inputs[i].at + debounce <= states[j].deadline.value
  {
    LinkIsExact(states, inputs, j - 1, me, debounce);
    if i < j - 1 {
      Waits(states, inputs, i, j - 1, me, debounce);
      assert inputs[i].at <= inputs[j - 1].at;
    }
    assert states[j] == React(states[j - 1], inputs[j - 1], me, debounce);
  }

  // ----- the connection as the source runs it -----

  class Connection {
    const me: string
    const debounce: int
    var timer: Option<int>
    var seen: bool
    var pending: set<int>
    var closed: bool
    ghost var calls: seq<set<int>>

    ghost function State(): Link
      reads this
    {
      Link(timer, seen, pending, closed, calls)
    }

    constructor (me: string, debounce: int)
      ensures State() == FRESH && this.me == me && this.debounce == debounce
    {
      this.me, this.debounce := me, debounce;
      timer, seen, pending, closed, calls := None, false, {}, false, [];
    }

    /** Notes the ids and restarts the timer. */
    method Schedule(ids: seq<int>, at: int)
      modifies this
      ensures State() == Scheduled(old(State()), ids, at, debounce)
    {
      var i := 0;
      while i < |ids|
        invariant 0 <= i <= |ids|
        invariant State() == old(State()).(pending := old(pending) + Real(ids[..i]))
      {
        if ids[i] != 0 {
          pending := pending + {ids[i]};
        }
        assert ids[..i + 1] == ids[..i] + [ids[i]];
        i := i + 1;
      }
      assert ids[..i] == ids;
      timer := Some(at + debounce);
    }

    method OnOpen(at: int)
      modifies this
      ensures State() == React(old(State()), Opened(at), me, debounce)
    {
      if seen {
        Schedule([], at);
      }
      seen := true;
    }

    method OnEvent(at: int, client: string, ids: seq<int>)
      modifies this
      ensures State() == React(old(State()), Arrived(at, client, ids), me, debounce)
    {
      if client != "" && client == me {
        return;
      }
      Schedule(ids, at);
    }

    /** The timer's callback; what it passes to onChange. */
    method Fire(at: int) returns (ids: set<int>)
      requires Enabled(State(), Fired(at))
      modifies this
      ensures State() == React(old(State()), Fired(at), me, debounce) && ids == old(pending)
    {
      timer := None;
      ids := pending;
      pending := {};
      calls := calls + [ids];
    }

    method Close(at: int)
      modifies this
      ensures State() == React(old(State()), Closed(at), me, debounce)
    {
      timer := None;
      closed := true;
    }
  }
}

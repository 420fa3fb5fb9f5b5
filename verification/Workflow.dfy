/** The activity log of a story, read back as the story's life. */
module Workflow {
  import opened States
  import opened StoryModel

  /** The events of one story, oldest first. */
  function History(log: seq<Activity>, id: int): seq<Event> {
    if log == [] then []
    else
      var rest := History(log[..|log| - 1], id);
      if log[|log| - 1].story == id then rest + [log[|log| - 1].event] else rest
  }

  /** Where a story is in its life; `Broken` is a log that makes no sense. */
  datatype Life = Unborn | Live(state: State) | Trashed(state: State) | Broken

  function LifeOf(st: Story): Life {
    if st.deletedAt.Some? then Trashed(st.state) else Live(st.state)
  }

  /** What one event makes of a story. State changes must start from the state
      the story is in and be allowed by the workflow, dragging included; only
      live stories change, only trashed ones are restored. */
  function Next(l: Life, e: Event): Life {
    match e
    case Created(sec) =>
      if l.Unborn? && sec != Done then Live(EntryState(sec)) else Broken
    case StateChanged(from, to) =>
      if l == Live(from) && CanTransition(from, to) then Live(to) else Broken
    case Moved(source, target) =>
      if l.Live? && SectionOf(l.state) == source && source != target && target != Done &&
         CanTransition(l.state, EntryState(target))
      then Live(EntryState(target)) else Broken
    case Deleted =>
      if l.Live? then Trashed(l.state) else Broken
    case Restored =>
      if l.Trashed? then Live(l.state) else Broken
    case Reopened =>
      if l == Live(Accepted) then l else Broken
    case _ =>
      if l.Live? then l else Broken
  }

  function Replay(l: Life, events: seq<Event>): Life {
    if events == [] then l
    else Next(Replay(l, events[..|events| - 1]), events[|events| - 1])
  }

  lemma {:induction false} ReplayAppend(l: Life, a: seq<Event>, b: seq<Event>)
    ensures Replay(l, a + b) == Replay(Replay(l, a), b)
  {
    if b == [] {
      assert a + b == a;
    } else {
      assert (a + b)[..|a + b| - 1] == a + b[..|b| - 1];
      ReplayAppend(l, a, b[..|b| - 1]);
    }
  }

  lemma {:induction false} HistoryLogged(log: seq<Activity>, id: int, events: seq<Event>, other: int)
    ensures History(Logged(log, id, events), other) ==
            if other == id then History(log, other) + events else History(log, other)
  {
    if events == [] {
      assert Logged(log, id, events) == log;
    } else {
      var most := events[..|events| - 1];
      HistoryLogged(log, id, most, other);
      var all := Logged(log, id, events);
      assert all[..|all| - 1] == Logged(log, id, most);
      assert events == most + [events[|events| - 1]];
    }
  }

  lemma {:induction false} HistoryWithout(log: seq<Activity>, gone: set<int>, id: int)
    ensures History(LogWithout(log, gone), id) == if id in gone then [] else History(log, id)
  {
    if log != [] {
      var rest, last := LogWithout(log[..|log| - 1], gone), log[|log| - 1];
      HistoryWithout(log[..|log| - 1], gone, id);
      assert (rest + [last])[..|rest|] == rest;
    }
  }

  /** Events that leave the state and the trash flag alone. */
  predicate Quiet(e: Event) { e.TypeChanged? || e.EstimateChanged? || e.OwnerChanged? }

  lemma {:induction false} QuietReplay(s: State, events: seq<Event>)
    requires forall e | e in events :: Quiet(e)
    ensures Replay(Live(s), events) == Live(s)
  {
    if events != [] {
      assert events[|events| - 1] in events;
      QuietReplay(s, events[..|events| - 1]);
    }
  }

  /** Every state the story was in, in order. */
  function Visited(events: seq<Event>): seq<State> {
    if events == [] then []
    else
      var rest := Visited(events[..|events| - 1]);
      match events[|events| - 1]
      case Created(sec) => rest + [EntryState(sec)]
      case StateChanged(_, to) => rest + [to]
      case Moved(_, target) => rest + [EntryState(target)]
      case _ => rest
  }

  predicate Planned(s: State) { s == InIcebox || s == InBacklog || s == Unstarted }

  /** A walk through the workflow from a planning state. */
  ghost predicate Walk(states: seq<State>) {
    && (states != [] ==> Planned(states[0]))
    && forall i | 0 < i < |states| :: CanTransition(states[i - 1], states[i])
  }

  /** The states a sensible log goes through are a walk through the workflow. */
  lemma {:induction false} VisitedIsWalk(events: seq<Event>)
    requires var l := Replay(Unborn, events); l.Live? || l.Trashed?
    ensures Walk(Visited(events)) && Visited(events) != []
    ensures Visited(events)[|Visited(events)| - 1] == Replay(Unborn, events).state
  {
    var most, e := events[..|events| - 1], events[|events| - 1];
    if e.Created? {
      UnbornVisited(most);
    } else {
      VisitedIsWalk(most);
    }
  }

  lemma {:induction false} UnbornVisited(events: seq<Event>)
    requires Replay(Unborn, events) == Unborn
    ensures events == []
  {
  }

  /** Every acceptance follows started, finished and delivered, in that order
      and with no planning state in between. */
  lemma {:induction false} AcceptedAfterWork(states: seq<State>, k: nat) returns (i: nat, j: nat, l: nat)
    requires Walk(states) && k < |states| && states[k] == Accepted
    ensures i < j < l < k
    ensures states[i] == Started && states[j] == Finished && states[l] == Delivered
    ensures forall m | i <= m <= k :: !Planned(states[m])
  {
    assert CanTransition(states[k - 1], states[k]);
    assert states[k - 1] == Delivered && CanTransition(states[k - 2], states[k - 1]);
    if states[k - 2] == Accepted {
      i, j, l := AcceptedAfterWork(states, k - 2);
    } else {
      assert states[k - 2] == Finished && CanTransition(states[k - 3], states[k - 2]);
      i, j, l := k - 3, k - 2, k - 1;
    }
  }
}

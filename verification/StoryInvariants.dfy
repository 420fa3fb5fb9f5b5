/** What every transaction of the story service keeps true of the store. */
module StoryInvariants {
  import opened Sequences
  import opened Position
  import opened States
  import opened StoryModel
  import opened StoryPlacement
  import opened StoryRoom
  import opened Blockers
  import opened Workflow

  // ----- rows -----

  /** A story's fields fit each other and its project's setting. */
  ghost predicate RowOk(projects: map<int, bool>, st: Story) {
    && st.project in projects
    && (st.acceptedAt.Some? <==> st.state == Accepted)
    && (st.acceptedAt.Some? ==> st.acceptedAt.value >= 0)
    && (st.kind == Feature && (InProgress(st.state) || st.state == Accepted) ==> st.estimate.Some?)
    && (st.kind != Feature && st.estimate.Some? ==> projects[st.project])
    && (st.estimate.Some? ==> ValidEstimate(st.estimate.value))
  }

  ghost predicate RowsOk(db: Db) {
    forall id | id in db.stories :: id > 0 && RowOk(db.projects, db.stories[id])
  }

  // ----- blockers -----

  ghost predicate LinksOk(db: Db, s: int, list: seq<int>) {
    && s in db.stories && |list| <= MAX_BLOCKERS && NoDup(list)
    && forall b | b in list :: b in db.stories && db.stories[b].project == db.stories[s].project
  }

  ghost predicate GraphOk(db: Db) {
    (forall s | s in db.blockers :: LinksOk(db, s, db.blockers[s])) && Acyclic(db.blockers)
  }

  // ----- history -----

  /** Replaying a story's log gives the state and the trash flag it has now. */
  ghost predicate LogOk(db: Db) {
    && (forall id | id in db.stories :: Replay(Unborn, History(db.log, id)) == LifeOf(db.stories[id]))
    && (forall id | id !in db.stories :: History(db.log, id) == [])
  }

  // ----- positions -----

  ghost predicate PositionsOk(db: Db) {
    && |db.stories| <= db.meter.total
    && (forall id | id in db.stories :: Within(db.stories[id].position, db.meter.total))
    && (forall key :: Roomy(db.stories, db.meter, key))
  }

  ghost predicate Inv(db: Db) {
    RowsOk(db) && GraphOk(db) && LogOk(db) && PositionsOk(db)
  }

  // ----- the parts every transaction shares -----

  /** Rewriting positions and storing one row again. */
  ghost predicate Stored(before: map<int, Story>, after: map<int, Story>, id: int, st: Story) {
    && after.Keys == before.Keys + {id} && after[id] == st
    && forall x | x in before && x != id :: after[x] == before[x].(position := after[x].position)
  }

  lemma PlacedIsStored(before: map<int, Story>, key: Key, moving: int, id: int, w: Where, st: Story)
    requires Place(before, key, moving, w).Ok?
    ensures Stored(before, Place(before, key, moving, w).value.stories[id := st], id, st)
  {
    PlaceCorrect(before, key, moving, w);
  }

  lemma RowsKept(db: Db, db': Db, id: int, st: Story)
    requires RowsOk(db) && db'.projects == db.projects && Stored(db.stories, db'.stories, id, st)
    requires id > 0 && RowOk(db.projects, st)
    ensures RowsOk(db')
  {
  }

  /** The links keep meaning something as long as no story leaves or changes project. */
  lemma LinksKept(db: Db, db': Db, id: int, st: Story)
    requires GraphOk(db) && db'.blockers == db.blockers && Stored(db.stories, db'.stories, id, st)
    requires id in db.stories ==> st.project == db.stories[id].project
    ensures GraphOk(db')
  {
    forall s | s in db'.blockers ensures LinksOk(db', s, db'.blockers[s]) {
      assert LinksOk(db, s, db.blockers[s]);
    }
  }

  /** Replacing a story's links by a list that passed the checks. */
  lemma LinksReplaced(db: Db, db': Db, id: int, ids: seq<int>, list: seq<int>, seen: map<int, Story>)
    requires GraphOk(db) && id in db'.stories
    requires db'.stories.Keys == seen.Keys && forall x | x in seen :: seen[x].project == db'.stories[x].project
    requires db.stories.Keys <= seen.Keys && forall x | x in db.stories :: seen[x].project == db.stories[x].project
    requires CleanBlockers(seen, db.blockers, id, seen[id].project, ids) == Ok(list)
    requires db'.blockers == db.blockers[id := list]
    ensures GraphOk(db')
  {
    DistinctMembers(ids);
    forall b | b in list ensures b != id && !Reachable(db.blockers, b, id) && b in seen && seen[b].project == seen[id].project {
      assert BlockerAllowed(seen, db.blockers, id, seen[id].project, b);
      ReachesSound(db.blockers, b, id);
    }
    ReplaceKeepsAcyclic(db.blockers, id, list);
    forall s | s in db'.blockers ensures LinksOk(db', s, db'.blockers[s]) {
      if s != id { assert LinksOk(db, s, db.blockers[s]); }
    }
  }

  lemma LogKept(db: Db, db': Db, id: int, st: Story, events: seq<Event>)
    requires LogOk(db) && Stored(db.stories, db'.stories, id, st)
    requires db'.log == Logged(db.log, id, events)
    requires Replay(if id in db.stories then LifeOf(db.stories[id]) else Unborn, events) == LifeOf(st)
    ensures LogOk(db')
  {
    forall x ensures History(db'.log, x) == if x == id then History(db.log, x) + events else History(db.log, x) {
      HistoryLogged(db.log, id, events, x);
    }
    forall x | x in db'.stories ensures Replay(Unborn, History(db'.log, x)) == LifeOf(db'.stories[x]) {
      if x == id {
        ReplayAppend(Unborn, History(db.log, x), events);
        assert Replay(Unborn, History(db.log, x)) == if x in db.stories then LifeOf(db.stories[x]) else Unborn;
      } else {
        assert LifeOf(db'.stories[x]) == LifeOf(db.stories[x]);
      }
    }
  }

  /** No position changed, and stories only left their scopes. */
  lemma PositionsKept(db: Db, db': Db)
    requires PositionsOk(db) && db'.meter == db.meter && db'.stories.Keys <= db.stories.Keys
    requires forall x | x in db'.stories :: db'.stories[x].position == db.stories[x].position
    requires forall key, x | x in ScopeOf(db'.stories, key) :: x in ScopeOf(db.stories, key)
    ensures PositionsOk(db')
  {
    SubsetSize(db'.stories.Keys, db.stories.Keys);
    assert |db'.stories| == |db'.stories.Keys| && |db.stories| == |db.stories.Keys|;
    forall key ensures Roomy(db'.stories, db'.meter, key) {
      RoomKept(db.stories, db'.stories, db.meter, key);
    }
  }

  /** Taking stories out of a scope leaves at least as much room in it. */
  lemma RoomKept(before: map<int, Story>, after: map<int, Story>, meter: Meter, key: Key)
    requires Roomy(before, meter, key)
    requires forall x | x in ScopeOf(after, key) :: x in ScopeOf(before, key) && after[x].position == before[x].position
    ensures Roomy(after, meter, key)
  {
    var t := TallyOf(meter, key);
    if !t.reopened {
      SpreadShrinks(ScopeOf(before, key), ScopeOf(after, key), Pow2(16 - t.since), Pow2(16 - t.since));
    }
  }

  lemma {:induction false} SubsetSize(a: set<int>, b: set<int>)
    requires a <= b
    ensures |a| <= |b|
    decreases |a|
  {
    if exists x :: x in a {
      var x :| x in a;
      SubsetSize(a - {x}, b - {x});
    } else {
      assert a == {};
    }
  }

  /** One placement: the bounds grow by a gap and the section's room is accounted for. */
  lemma PositionsPlaced(before: map<int, Story>, meter: Meter, key: Key, id: int, w: Where, st: Story)
    requires |before.Keys + {id}| <= meter.total + 1 && |before| <= meter.total
    requires forall x | x in before && x != id :: Within(before[x].position, meter.total)
    requires forall k :: Roomy(before - {id}, meter, k)
    requires Place(before, key, id, w).Ok? && InScope(st, key)
    requires st.position == Place(before, key, id, w).value.position
    ensures var p := Place(before, key, id, w).value;
            var after, meter' := p.stories[id := st], Counted(meter, key, p.rebalanced);
            && |after| <= meter'.total
            && (forall x | x in after :: Within(after[x].position, meter'.total))
            && (forall k :: Roomy(after, meter', k))
  {
    var p := Place(before, key, id, w).value;
    var after, meter' := p.stories[id := st], Counted(meter, key, p.rebalanced);
    PlaceCorrect(before, key, id, w);
    PositionsBounded(before, key, id, w, st, meter.total);
    assert after.Keys == before.Keys + {id} && |after| == |after.Keys|;
    forall k ensures Roomy(after, meter', k) {
      if k == key {
        RoomPlaced(before, meter, key, id, w, st);
      } else {
        RoomElsewhere(before, meter, key, k, id, w, st);
      }
    }
  }

  lemma RoomElsewhere(before: map<int, Story>, meter: Meter, key: Key, other: Key, id: int, w: Where, st: Story)
    requires key != other && Roomy(before - {id}, meter, other)
    requires Place(before, key, id, w).Ok? && InScope(st, key)
    ensures var p := Place(before, key, id, w).value;
            Roomy(p.stories[id := st], Counted(meter, key, p.rebalanced), other)
  {
    ScopeElsewhere(before, key, other, id, w, st);
    ScopeMinus(before, other, id);
  }

  lemma ScopeMinus(stories: map<int, Story>, key: Key, id: int)
    ensures ScopeOf(stories - {id}, key) == ScopeOf(stories, key) - {id}
  {
  }

  lemma ScopeElsewhere(before: map<int, Story>, key: Key, other: Key, id: int, w: Where, st: Story)
    requires key != other && Place(before, key, id, w).Ok? && InScope(st, key)
    ensures ScopeOf(Place(before, key, id, w).value.stories[id := st], other) == ScopeOf(before, other) - {id}
  {
    PlaceCorrect(before, key, id, w);
    RowsInScope(before, key, id);
    OtherSections(before, Place(before, key, id, w).value.stories, key, other, id, Rows(before, key, id), st);
  }

  lemma RoomPlaced(before: map<int, Story>, meter: Meter, key: Key, id: int, w: Where, st: Story)
    requires Roomy(before - {id}, meter, key)
    requires Place(before, key, id, w).Ok? && InScope(st, key)
    requires st.position == Place(before, key, id, w).value.position
    ensures var p := Place(before, key, id, w).value;
            Roomy(p.stories[id := st], Counted(meter, key, p.rebalanced), key)
  {
    PlaceIgnoresMoved(before, key, id, w, st);
    RoomCounted(before - {id}, meter, key, id, w, st);
  }

  lemma RoomCounted(others: map<int, Story>, meter: Meter, key: Key, id: int, w: Where, st: Story)
    requires Roomy(others, meter, key)
    requires Place(others, key, id, w).Ok? && InScope(st, key)
    requires st.position == Place(others, key, id, w).value.position
    ensures var p := Place(others, key, id, w).value;
            Roomy(p.stories[id := st], Counted(meter, key, p.rebalanced), key)
  {
    var t, p := TallyOf(meter, key), Place(others, key, id, w).value;
    if p.rebalanced && !t.reopened {
      RebalanceIsDue(others, key, id, w, t.since);
    }
    TallyCounted(meter, key, p.rebalanced);
    if !t.reopened || p.rebalanced {
      PlaceSpread(others, key, id, w, st, t.since);
    }
  }

  lemma TallyCounted(meter: Meter, key: Key, rebalanced: bool)
    ensures var t := TallyOf(meter, key);
            TallyOf(Counted(meter, key, rebalanced), key) ==
              Tally(t.placed + 1, if rebalanced then t.rebalanced + 1 else t.rebalanced,
                    Since(t.since, rebalanced), t.reopens, t.reopened && !rebalanced)
  {
  }

  /** A placement never looks at the story it moves. */
  lemma PlaceIgnoresMoved(before: map<int, Story>, key: Key, id: int, w: Where, st: Story)
    ensures var others := before - {id};
            match (Place(before, key, id, w), Place(others, key, id, w))
            case (Ok(p), Ok(q)) =>
              p.position == q.position && p.rebalanced == q.rebalanced && p.stories[id := st] == q.stories[id := st]
            case (Err(e), Err(f)) => e == f
            case _ => false
  {
    var others, rows := before - {id}, Rows(before, key, id);
    assert ScopeOf(others, key) - {id} == ScopeOf(before, key) - {id};
    RowsInScope(before, key, id);
    if IndexFor(rows, w).Some? {
      SameSlots(before, id, rows, IndexFor(rows, w).value);
    }
  }

  lemma SameSlots(before: map<int, Story>, id: int, rows: seq<int>, k: nat)
    requires k <= |rows| && NoDup(rows) && id !in rows && forall i | 0 <= i < |rows| :: rows[i] in before
    ensures var others := before - {id};
            && Slot(others, rows, k) == Slot(before, rows, k)
            && Slot(Renumbered(others, rows), rows, k) == Slot(Renumbered(before, rows), rows, k)
            && Renumbered(others, rows) == Renumbered(before, rows) - {id}
  {
    var others := before - {id};
    assert forall i | 0 <= i < |rows| :: rows[i] in rows && rows[i] in others && others[rows[i]] == before[rows[i]];
    assert Renumbered(others, rows) == Renumbered(before, rows) - {id};
  }

  lemma PositionsBounded(before: map<int, Story>, key: Key, id: int, w: Where, st: Story, n: nat)
    requires |before| <= n && forall x | x in before && x != id :: Within(before[x].position, n)
    requires Place(before, key, id, w).Ok? && st.position == Place(before, key, id, w).value.position
    ensures var after := Place(before, key, id, w).value.stories[id := st];
            forall x | x in after :: Within(after[x].position, n + 1)
  {
    var p, rows := Place(before, key, id, w).value, Rows(before, key, id);
    PlaceCorrect(before, key, id, w);
    RowsInScope(before, key, id);
    RowsAreFew(before, rows);
    OthersBounded(before, p.stories, rows, p.rebalanced, id, n);
    SlotBounded(p.stories, rows, IndexFor(rows, w).value, id, n);
    var after := p.stories[id := st];
    forall x | x in after ensures Within(after[x].position, n + 1) {
      if x != id {
        WithinGrows(p.stories[x].position, n);
      }
    }
  }

  lemma WithinGrows(x: int, n: nat)
    requires Within(x, n)
    ensures Within(x, n + 1)
  {
    assert (n + 1) * GAP == n * GAP + GAP;
  }

  lemma OthersBounded(before: map<int, Story>, after: map<int, Story>, rows: seq<int>, rebalanced: bool, id: int, n: nat)
    requires forall x | x in before && x != id :: Within(before[x].position, n)
    requires NoDup(rows) && |rows| <= n && forall i | 0 <= i < |rows| :: rows[i] in before
    requires after == if rebalanced then Renumbered(before, rows) else before
    ensures forall x | x in after && x != id :: Within(after[x].position, n)
  {
    forall x | x in after && x != id ensures Within(after[x].position, n) {
      if rebalanced && x in rows {
        SpacedWithin(before, rows, IndexOf(rows, x), n);
      }
    }
  }

  lemma SlotBounded(stories: map<int, Story>, rows: seq<int>, k: nat, id: int, n: nat)
    requires id !in rows && forall x | x in stories && x != id :: Within(stories[x].position, n)
    ensures Slot(stories, rows, k).Some? ==> Within(Slot(stories, rows, k).value, n + 1)
  {
    if k > 0 { RowBounded(stories, rows, k - 1, id, n); }
    RowBounded(stories, rows, k, id, n);
    MidpointBounded(PositionAt(stories, rows, k - 1), PositionAt(stories, rows, k), n);
  }

  lemma RowBounded(stories: map<int, Story>, rows: seq<int>, i: nat, id: int, n: nat)
    requires id !in rows && forall x | x in stories && x != id :: Within(stories[x].position, n)
    ensures var p := PositionAt(stories, rows, i); p.Some? ==> Within(p.value, n)
  {
    if i < |rows| && rows[i] in stories {
      var x := rows[i];
      assert x in rows;
      assert x != id;
      assert Within(stories[x].position, n);
    }
  }

  lemma MidpointBounded(prev: Option<int>, next: Option<int>, n: nat)
    requires (prev.Some? ==> Within(prev.value, n)) && (next.Some? ==> Within(next.value, n))
    ensures Between(prev, next).Some? ==> Within(Between(prev, next).value, n + 1)
  {
    assert (n + 1) * GAP == n * GAP + GAP;
  }

  lemma SpacedWithin(stories: map<int, Story>, rows: seq<int>, i: nat, n: nat)
    requires NoDup(rows) && i < |rows| <= n && rows[i] in stories
    ensures Within(Renumbered(stories, rows)[rows[i]].position, n)
  {
    RenumberedAt(stories, rows, i);
    assert (i + 1) * GAP <= n * GAP;
  }

  lemma RowsAreFew(stories: map<int, Story>, rows: seq<int>)
    requires NoDup(rows) && forall i | 0 <= i < |rows| :: rows[i] in stories
    ensures |rows| <= |stories|
  {
    var shown := set x | x in rows;
    NoDupSize(rows);
    SubsetSize(shown, stories.Keys);
    assert |stories| == |stories.Keys|;
  }
}

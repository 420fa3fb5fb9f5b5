/**
  The ordering engine refines plain lists: whatever the positions, and whether
  or not a section had to be rebalanced, each transaction changes the displayed
  order of a panel exactly as "take the story out, put it in at the index".
 */
module StoryOrder {
  import opened Sequences
  import opened Ordering
  import opened States
  import opened StoryModel
  import opened StoryPlacement

  /** A panel as displayed. */
  ghost function Panel(stories: map<int, Story>, key: Key): seq<int> {
    Order(ScopeOf(stories, key))
  }

  /** The section without one story, in order. */
  lemma RowsArePanel(stories: map<int, Story>, key: Key, id: int)
    ensures Rows(stories, key, id) == Minus(Panel(stories, key), {id})
  {
    RowsAre(stories, key, id, Panel(stories, key));
  }

  lemma PanelWithout(before: map<int, Story>, after: map<int, Story>, key: Key, id: int)
    requires ScopeOf(after, key) == ScopeOf(before, key) - {id}
    ensures Panel(after, key) == Minus(Panel(before, key), {id})
  {
    DisplayMinus(ScopeOf(before, key), Panel(before, key), {id});
    OrderIs(ScopeOf(after, key), Minus(Panel(before, key), {id}));
  }

  /** What storing a placed story does to every panel. */
  ghost predicate PlacedAt(before: map<int, Story>, after: map<int, Story>, key: Key, id: int, k: nat) {
    && k <= |Minus(Panel(before, key), {id})|
    && Panel(after, key) == InsertAt(Minus(Panel(before, key), {id}), k, id)
    && forall other: Key | other != key :: Panel(after, other) == Minus(Panel(before, other), {id})
  }

  lemma PlacedInto(before: map<int, Story>, key: Key, id: int, w: Where, st: Story)
    requires Place(before, key, id, w).Ok? && InScope(st, key)
    requires st.position == Place(before, key, id, w).value.position
    ensures var after := Place(before, key, id, w).value.stories[id := st];
            var k := IndexFor(Minus(Panel(before, key), {id}), w);
            k.Some? && PlacedAt(before, after, key, id, k.value)
  {
    var p := Place(before, key, id, w).value;
    var rows := Rows(before, key, id);
    var after := p.stories[id := st];
    PlaceCorrect(before, key, id, w);
    RowsArePanel(before, key, id);
    RowsInScope(before, key, id);
    var k := IndexFor(rows, w).value;
    StoredAtIndex(p.stories, key, id, rows, k, st);
    OrderIs(ScopeOf(after, key), InsertAt(rows, k, id));
    forall other: Key | other != key ensures Panel(after, other) == Minus(Panel(before, other), {id}) {
      OtherSections(before, p.stories, key, other, id, rows, st);
      PanelWithout(before, after, other, id);
    }
  }

  /** Moving a story takes it out of its panel and puts it in at the index that
      the request's neighbours name; nothing else changes order. */
  lemma MoveOrder(db: Db, id: int, input: MoveInput)
    requires MoveTx(db, id, input).Ok?
    ensures var key := Key(db.stories[id].project, input.section);
            var k := IndexFor(Minus(Panel(db.stories, key), {id}), Where(input.prev, input.next, false));
            k.Some? && PlacedAt(db.stories, MoveTx(db, id, input).value.db.stories, key, id, k.value)
  {
    var row := db.stories[id];
    var key, w := Key(row.project, input.section), Where(input.prev, input.next, false);
    var p := Place(db.stories, key, id, w).value;
    PlacedInto(db.stories, key, id, w, MoveTx(db, id, input).value.db.stories[id]);
  }

  /** A move is refused for its neighbours exactly when the one it names is not
      among the section's other stories. */
  lemma MoveRefusal(db: Db, id: int, input: MoveInput)
    requires MoveTarget(input.section) && id in db.stories && !MoveRefused(db.stories[id], input.section)
    ensures var rows := Minus(Panel(db.stories, Key(db.stories[id].project, input.section)), {id});
            MoveTx(db, id, input).Ok? <==>
              if input.prev.Some? then input.prev.value in rows
              else input.next.Some? ==> input.next.value in rows
  {
    var key := Key(db.stories[id].project, input.section);
    RowsArePanel(db.stories, key, id);
  }

  /** A new story goes on top of the icebox, at the bottom of the other panels,
      or right after the story it is told to follow. */
  lemma CreateOrder(db: Db, id: int, project: int, actor: int, input: CreateInput)
    requires 0 !in db.stories && id !in db.stories
    requires CreateTx(db, id, project, actor, input).Ok?
    ensures var key := Key(project, CreateSection(input));
            var after := CreateTx(db, id, project, actor, input).value.stories;
            var k := IndexFor(Panel(db.stories, key), CreateWhere(input));
            && k.Some? && k.value <= |Panel(db.stories, key)|
            && Panel(after, key) == InsertAt(Panel(db.stories, key), k.value, id)
            && forall other: Key | other != key :: Panel(after, other) == Panel(db.stories, other)
  {
    var key, w := Key(project, CreateSection(input)), CreateWhere(input);
    var after := CreateTx(db, id, project, actor, input).value.stories;
    SameRows(db.stories, key, 0, id);
    PlacedInto(db.stories, key, id, w, after[id]);
    forall other: Key ensures Minus(Panel(db.stories, other), {id}) == Panel(db.stories, other) {
      NotShown(db.stories, other, id);
    }
  }

  lemma NotShown(stories: map<int, Story>, key: Key, id: int)
    requires id !in ScopeOf(stories, key)
    ensures Minus(Panel(stories, key), {id}) == Panel(stories, key)
  {
    assert ScopeOf(stories, key) - {id} == ScopeOf(stories, key);
    assert forall x | x in Panel(stories, key) :: x in ScopeOf(stories, key);
    MinusNothing(Panel(stories, key), {id});
  }

  lemma SameRows(stories: map<int, Story>, key: Key, a: int, b: int)
    requires a !in stories && b !in stories
    ensures Rows(stories, key, a) == Rows(stories, key, b)
    ensures forall w :: Place(stories, key, a, w) == Place(stories, key, b, w)
  {
    assert ScopeOf(stories, key) - {a} == ScopeOf(stories, key) == ScopeOf(stories, key) - {b};
  }

  /** A restored story goes to the bottom of the panel it was in; an accepted
      one stays out of the order. */
  lemma RestoreOrder(db: Db, id: int)
    requires RestoreTx(db, id).Ok?
    ensures var key := Key(db.stories[id].project, SectionOf(db.stories[id].state));
            var after := RestoreTx(db, id).value.stories;
            if db.stories[id].state == Accepted then
              forall other: Key :: Panel(after, other) == Panel(db.stories, other)
            else
              PlacedAt(db.stories, after, key, id, |Minus(Panel(db.stories, key), {id})|)
  {
    var row := db.stories[id].(deletedAt := None);
    var key := Key(row.project, SectionOf(row.state));
    var stories := db.stories[id := row];
    var after := RestoreTx(db, id).value.stories;
    if row.state == Accepted {
      forall other: Key ensures Panel(after, other) == Panel(db.stories, other) {
        assert ScopeOf(after, other) == ScopeOf(db.stories, other);
      }
    } else {
      forall other: Key ensures ScopeOf(stories, other) - {id} == ScopeOf(db.stories, other) - {id} {
      }
      PlacedInto(stories, key, id, AT_BOTTOM, after[id]);
      forall other: Key ensures Minus(Panel(stories, other), {id}) == Minus(Panel(db.stories, other), {id}) {
        RowsArePanel(stories, other, id);
        RowsArePanel(db.stories, other, id);
      }
    }
  }

  /** Trashing a story takes it out of its panel. */
  lemma DeleteOrder(db: Db, id: int, now: int, key: Key)
    requires DeleteTx(db, id, now).Ok?
    ensures Panel(DeleteTx(db, id, now).value.stories, key) == Minus(Panel(db.stories, key), {id})
  {
    var after := DeleteTx(db, id, now).value.stories;
    assert ScopeOf(after, key) == ScopeOf(db.stories, key) - {id};
    PanelWithout(db.stories, after, key, id);
  }

  /**
    An update moves its story only. A workflow step into another panel puts it
    at the bottom there; a step inside the panel, and an update without a step,
    leave it where it is; accepting takes it out. Reopening lets it back in
    wherever its frozen position falls among the others.
   */
  lemma UpdateOrder(db: Db, id: int, actor: Actor, input: UpdateInput, now: int)
    requires UpdateTx(db, id, actor, input, now).Ok?
    ensures var st, after := db.stories[id], UpdateTx(db, id, actor, input, now).value.stories;
            var to := after[id].state;
            var key := Key(st.project, SectionOf(to));
            && (SectionOf(st.state) != SectionOf(to) ==>
                  PlacedAt(db.stories, after, key, id, |Minus(Panel(db.stories, key), {id})|))
            && (SectionOf(st.state) == SectionOf(to) ==>
                  forall other: Key :: Minus(Panel(after, other), {id}) == Minus(Panel(db.stories, other), {id}))
            && (SectionOf(st.state) == SectionOf(to) && st.state != Accepted && to != Accepted ==>
                  forall other: Key :: Panel(after, other) == Panel(db.stories, other))
            && (to == Accepted ==> forall other: Key :: id !in Panel(after, other))
  {
    var st, after := db.stories[id], UpdateTx(db, id, actor, input, now).value.stories;
    var to := after[id].state;
    var key := Key(st.project, SectionOf(to));
    UpdateFrame(db, id, actor, input, now);
    if SectionOf(st.state) != SectionOf(to) {
      PlacedInto(db.stories, key, id, AT_BOTTOM, after[id]);
    } else {
      forall other: Key ensures Minus(Panel(after, other), {id}) == Minus(Panel(db.stories, other), {id}) {
        RowsArePanel(after, other, id);
        RowsArePanel(db.stories, other, id);
        assert ScopeOf(after, other) - {id} == ScopeOf(db.stories, other) - {id};
      }
      if st.state != Accepted && to != Accepted {
        forall other: Key ensures Panel(after, other) == Panel(db.stories, other) {
          ScopesPartition(st.state, other.section);
          ScopesPartition(to, other.section);
          assert ScopeOf(after, other) == ScopeOf(db.stories, other);
        }
      }
    }
    if to == Accepted {
      forall other: Key ensures id !in Panel(after, other) {
        assert id !in ScopeOf(after, other);
      }
    }
  }

  /** A reopened story comes back right behind the stories ordered before its frozen
      position, ids deciding between equal ones; no other panel changes. */
  lemma ReopenOrder(db: Db, id: int, actor: Actor, input: UpdateInput, now: int)
    requires UpdateTx(db, id, actor, input, now).Ok?
    requires db.stories[id].state == Accepted && UpdateTx(db, id, actor, input, now).value.stories[id].state != Accepted
    ensures var st, after := db.stories[id], UpdateTx(db, id, actor, input, now).value.stories;
            var key := Key(st.project, Current);
            var k := |Earlier(ScopeOf(db.stories, key), id, st.position as real)|;
            && k <= |Panel(db.stories, key)| && Panel(after, key) == InsertAt(Panel(db.stories, key), k, id)
            && forall other: Key | other != key :: Panel(after, other) == Panel(db.stories, other)
  {
    var st, after := db.stories[id], UpdateTx(db, id, actor, input, now).value.stories;
    var key := Key(st.project, Current);
    UpdateFrame(db, id, actor, input, now);
    var m := ScopeOf(db.stories, key);
    DisplayAdded(m, Panel(db.stories, key), id, st.position as real);
    assert ScopeOf(after, key) == m[id := st.position as real];
    OrderIs(ScopeOf(after, key), InsertAt(Panel(db.stories, key), |Earlier(m, id, st.position as real)|, id));
    forall other: Key | other != key ensures Panel(after, other) == Panel(db.stories, other) {
      ScopesPartition(after[id].state, other.section);
      assert ScopeOf(after, other) == ScopeOf(db.stories, other);
    }
  }

  /** What an accepted update leaves alone, and how it steps. */
  lemma UpdateFrame(db: Db, id: int, actor: Actor, input: UpdateInput, now: int)
    requires UpdateTx(db, id, actor, input, now).Ok?
    ensures var st, db' := db.stories[id], UpdateTx(db, id, actor, input, now).value;
            var to := db'.stories[id];
            && id in db.stories && st.deletedAt.None? && to.project == st.project && to.deletedAt.None?
            && (to.state != st.state ==> input.state == Some(to.state) && CanTransition(st.state, to.state))
            && (to.state == st.state ==> to.acceptedAt == st.acceptedAt)
            && (SectionOf(st.state) == SectionOf(to.state) ==> to.position == st.position && db'.stories == db.stories[id := to])
            && (SectionOf(st.state) == SectionOf(to.state) ==>
                  db'.meter == if st.state == Accepted && to.state != Accepted
                               then Reentered(db.meter, Key(st.project, Current)) else db.meter)
            && (SectionOf(st.state) != SectionOf(to.state) ==>
                  var key := Key(st.project, SectionOf(to.state));
                  var p := Place(db.stories, key, id, AT_BOTTOM);
                  && InScope(to, key) && p.Ok?
                  && to.position == p.value.position && db'.stories == p.value.stories[id := to]
                  && db'.meter == Counted(db.meter, key, p.value.rebalanced))
  {
    var st := db.stories[id];
    FieldsFrame(db, st, input);
    var edited := Fields(db, st, input).value;
    var stepped := WithState(db.stories, db.meter, edited, id, actor, input.state, now).value;
    StepFrame(db.stories, db.meter, edited, id, actor, input.state, now);
    PointRulesFrame(db, stepped.draft, input.estimate);
  }

  predicate SamePlace(a: Story, b: Story) {
    a.project == b.project && a.state == b.state && a.position == b.position &&
    a.acceptedAt == b.acceptedAt && a.deletedAt == b.deletedAt
  }

  lemma FieldsFrame(db: Db, st: Story, input: UpdateInput)
    ensures Fields(db, st, input).Ok? ==> SamePlace(st, Fields(db, st, input).value.row)
  {
  }

  lemma PointRulesFrame(db: Db, d: Draft, estimate: Opt<int>)
    ensures WithPointRules(db, d, estimate).Ok? ==> SamePlace(d.row, WithPointRules(db, d, estimate).value.row)
  {
  }

  lemma StepFrame(stories: map<int, Story>, meter: Meter, d: Draft, id: int, actor: Actor, to: Option<State>, now: int)
    requires WithState(stories, meter, d, id, actor, to, now).Ok? && d.row.deletedAt.None?
    ensures var st, stepped := d.row, WithState(stories, meter, d, id, actor, to, now).value;
            var row := stepped.draft.row;
            && row.project == st.project && row.deletedAt.None?
            && (row.state != st.state ==> to == Some(row.state) && CanTransition(st.state, row.state))
            && (row.state == st.state ==> stepped == Stepped(d, stories, meter))
            && (SectionOf(st.state) == SectionOf(row.state) ==> row.position == st.position && stepped.stories == stories)
            && (SectionOf(st.state) == SectionOf(row.state) ==>
                  stepped.meter == if st.state == Accepted && row.state != Accepted
                                   then Reentered(meter, Key(st.project, Current)) else meter)
            && (SectionOf(st.state) != SectionOf(row.state) ==>
                  var key := Key(st.project, SectionOf(row.state));
                  var p := Place(stories, key, id, AT_BOTTOM);
                  && InScope(row, key) && p.Ok?
                  && row.position == p.value.position && stepped.stories == p.value.stories
                  && stepped.meter == Counted(meter, key, p.value.rebalanced))
  {
  }
}

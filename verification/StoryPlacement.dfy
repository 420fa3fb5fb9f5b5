/** What placing a story does to the order of its panel, and to all the others. */
module StoryPlacement {
  import opened Sequences
  import opened Ordering
  import opened Position
  import opened States
  import opened StoryModel

  lemma RowsAre(stories: map<int, Story>, key: Key, moving: int, s: seq<int>)
    requires Displays(ScopeOf(stories, key), s)
    ensures Rows(stories, key, moving) == Minus(s, {moving})
  {
    DisplayMinus(ScopeOf(stories, key), s, {moving});
    OrderIs(ScopeOf(stories, key) - {moving}, Minus(s, {moving}));
  }

  lemma RowsInScope(stories: map<int, Story>, key: Key, moving: int)
    ensures var rows := Rows(stories, key, moving);
            && Displays(ScopeOf(stories, key) - {moving}, rows) && NoDup(rows)
            && moving !in rows
            && forall i | 0 <= i < |rows| :: rows[i] in stories && InScope(stories[rows[i]], key)
  {
    var m, rows := ScopeOf(stories, key) - {moving}, Rows(stories, key, moving);
    DisplayNoDup(m, rows);
    forall i | 0 <= i < |rows| ensures rows[i] in stories && InScope(stories[rows[i]], key) {
      DisplayMember(m, rows, i);
    }
  }

  lemma IndexInNoDup(s: seq<int>, i: nat)
    requires NoDup(s) && i < |s|
    ensures IndexOf(s, s[i]) == i
  {
    assert s[i] in s;
  }

  /** Rebalancing gives the i-th story of the section the i-th even position. */
  lemma RenumberedAt(stories: map<int, Story>, rows: seq<int>, i: nat)
    requires NoDup(rows) && i < |rows| && rows[i] in stories
    ensures Renumbered(stories, rows)[rows[i]] == stories[rows[i]].(position := Spaced(i))
  {
    IndexInNoDup(rows, i);
    assert rows[i] in rows;
  }

  /** A rebalance keeps the displayed order of its section. */
  lemma RenumberedKeepsOrder(stories: map<int, Story>, key: Key, moving: int)
    ensures var rows := Rows(stories, key, moving);
            Displays(ScopeOf(Renumbered(stories, rows), key) - {moving}, rows)
  {
    RowsInScope(stories, key, moving);
    var rows := Rows(stories, key, moving);
    var after := Renumbered(stories, rows);
    var m := ScopeOf(after, key) - {moving};
    assert forall x :: x in m <==> x in ScopeOf(stories, key) - {moving};
    forall i, j | 0 <= i < j < |rows| ensures Before(m, rows[i], rows[j]) {
      RenumberedAt(stories, rows, i);
      RenumberedAt(stories, rows, j);
      assert rows[i] in rows && rows[j] in rows;
      assert i * GAP < j * GAP;
    }
  }

  /** After a rebalance there is room at every index. */
  lemma RenumberedHasRoom(stories: map<int, Story>, rows: seq<int>, k: nat)
    requires NoDup(rows) && k <= |rows| && forall i | 0 <= i < |rows| :: rows[i] in stories
    ensures Slot(Renumbered(stories, rows), rows, k).Some?
  {
    if 0 < k < |rows| {
      RenumberedAt(stories, rows, k - 1);
      RenumberedAt(stories, rows, k);
    }
  }

  /** Placing rewrites positions only, and only of the section's other stories. */
  predicate SameButPositions(before: map<int, Story>, after: map<int, Story>, rows: seq<int>) {
    && before.Keys == after.Keys
    && forall id | id in before ::
         after[id] == before[id].(position := after[id].position) && (id !in rows ==> after[id] == before[id])
  }

  /**
    The contract of a placement: the section's other stories keep their order,
    every other section keeps its positions, and the new position puts the
    story at the index the request names.
   */
  lemma PlaceCorrect(stories: map<int, Story>, key: Key, moving: int, w: Where)
    ensures var rows := Rows(stories, key, moving);
            match Place(stories, key, moving, w)
            case Err(e) => e == Invalid && IndexFor(rows, w).None?
            case Ok(p) =>
              && IndexFor(rows, w).Some?
              && SameButPositions(stories, p.stories, rows)
              && (!p.rebalanced ==> p.stories == stories)
              && Slot(p.stories, rows, IndexFor(rows, w).value) == Some(p.position)
              && Displays(ScopeOf(p.stories, key) - {moving}, rows)
  {
    var rows := Rows(stories, key, moving);
    RowsInScope(stories, key, moving);
    if IndexFor(rows, w).Some? {
      RenumberedKeepsOrder(stories, key, moving);
      RenumberedHasRoom(stories, rows, IndexFor(rows, w).value);
    }
  }

  lemma StoredScope(stories: map<int, Story>, key: Key, id: int, st: Story)
    requires InScope(st, key)
    ensures ScopeOf(stories[id := st], key) == (ScopeOf(stories, key) - {id})[id := st.position as real]
  {
  }

  /** Storing the moved story at its new position inserts it at the index. */
  lemma StoredAtIndex(stories: map<int, Story>, key: Key, id: int, rows: seq<int>, k: nat, st: Story)
    requires Displays(ScopeOf(stories, key) - {id}, rows) && k <= |rows|
    requires InScope(st, key) && Slot(stories, rows, k) == Some(st.position)
    ensures Displays(ScopeOf(stories[id := st], key), InsertAt(rows, k, id))
  {
    var m := ScopeOf(stories, key) - {id};
    if k > 0 { DisplayMember(m, rows, k - 1); }
    if k < |rows| { DisplayMember(m, rows, k); }
    DisplayInsert(m, rows, k, id, st.position as real);
    StoredScope(stories, key, id, st);
  }

  lemma OneScope(st: Story, key: Key, other: Key)
    requires key != other && InScope(st, key)
    ensures !InScope(st, other)
  {
    ScopesPartition(st.state, key.section);
    ScopesPartition(st.state, other.section);
  }

  /** Sections other than the one placed into only lose the moved story. */
  lemma OtherSections(before: map<int, Story>, after: map<int, Story>, key: Key, other: Key, id: int, rows: seq<int>, st: Story)
    requires SameButPositions(before, after, rows)
    requires forall i | 0 <= i < |rows| :: rows[i] in before && InScope(before[rows[i]], key)
    requires key != other && InScope(st, key)
    ensures ScopeOf(after[id := st], other) == ScopeOf(before, other) - {id}
  {
    forall i | 0 <= i < |rows| ensures !InScope(before[rows[i]], other) {
      OneScope(before[rows[i]], key, other);
    }
    OneScope(st, key, other);
    var m, m' := ScopeOf(before, other) - {id}, ScopeOf(after[id := st], other);
    forall x ensures x in m <==> x in m' {
    }
    forall x | x in m ensures m[x] == m'[x] {
      assert after[x] == before[x];
    }
  }
}

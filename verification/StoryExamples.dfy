/** Runs that reach what the general theorems only bound: a tie, and a drop that the board guesses wrong. */
module StoryExamples {
  import opened Sequences
  import opened Ordering
  import opened Position
  import opened States
  import opened StoryModel
  import opened StoryOrder
  import opened StoryRuns
  import opened StoryTies
  import opened StoryUpdates
  import opened StoryViews
  import opened Board

  const ADMIN := Actor(1, true)

  function Pointed(section: Section): CreateInput {
    CreateInput(None, Some(1), Some(section), None, [], None)
  }

  function Feature1(state: State, owner: Option<int>, acceptedAt: Option<int>): Story {
    Story(1, Feature, state, Some(1), GAP, 1, owner, acceptedAt, None)
  }

  lemma Extended(run: seq<Db>, ops: seq<Op>, op: Op)
    requires Follows(run, ops) && Enabled(run[|ops|], op)
    ensures Follows(run + [Apply(run[|ops|], op)], ops + [op])
  {
  }

  /** A story created into an empty section gets the first position. */
  lemma CreatedAlone(db: Db, id: int, section: Section)
    requires section != Done && 1 in db.projects && 0 !in db.stories && id !in db.stories
    requires forall x | x in db.stories :: !InScope(db.stories[x], Key(1, section))
    ensures var db' := Apply(db, Create(id, 1, 1, Pointed(section)));
            db'.stories == db.stories[id := Feature1(EntryState(section), None, None)] && db'.projects == db.projects
  {
    var key := Key(1, section);
    var m := ScopeOf(db.stories, key) - {0};
    forall x ensures x !in m {
    }
    OrderIs(m, []);
    assert Rows(db.stories, key, 0) == [];
  }

  /** A workflow step inside the current section. */
  lemma Stepped1(db: Db, was: Story, to: State)
    requires 1 in db.stories && db.stories[1] == was && was == Feature1(was.state, was.owner, was.acceptedAt)
    requires CanTransition(was.state, to) && to != was.state && SectionOf(was.state) == Current && SectionOf(to) == Current && to != Started
    requires was.acceptedAt.Some? <==> was.state == Accepted
    ensures var db' := Apply(db, Update(1, ADMIN, StateUpdate(to), 0));
            && db'.stories == db.stories[1 := Feature1(to, was.owner, if to == Accepted then Some(0) else None)]
            && db'.projects == db.projects
  {
  }

  lemma Started1(db: Db, was: Story)
    requires 1 in db.stories && db.stories[1] == was && was == Feature1(Unstarted, None, None)
    ensures var db' := Apply(db, Update(1, ADMIN, StateUpdate(Started), 0));
            db'.stories == db.stories[1 := Feature1(Started, Some(1), None)] && db'.projects == db.projects
  {
  }

  lemma CreatedOne() returns (run: seq<Db>, ops: seq<Op>)
    ensures Follows(run, ops) && |ops| == 2
    ensures run[2].stories == map[1 := Feature1(Unstarted, None, None)] && 1 in run[2].projects
  {
    run, ops := [EMPTY], [];
    run, ops := Next(run, ops, AddProject(1, false));
    CreatedAlone(run[1], 1, Current);
    run, ops := Next(run, ops, Create(1, 1, 1, Pointed(Current)));
  }

  lemma FinishedOne() returns (run: seq<Db>, ops: seq<Op>)
    ensures Follows(run, ops) && |ops| == 4
    ensures run[4].stories == map[1 := Feature1(Finished, Some(1), None)] && 1 in run[4].projects
  {
    run, ops := CreatedOne();
    Started1(run[2], run[2].stories[1]);
    run, ops := Next(run, ops, Update(1, ADMIN, StateUpdate(Started), 0));
    Stepped1(run[3], run[3].stories[1], Finished);
    run, ops := Next(run, ops, Update(1, ADMIN, StateUpdate(Finished), 0));
  }

  /** A story is created, worked on and accepted at the first position of the section. */
  lemma AcceptedOne() returns (run: seq<Db>, ops: seq<Op>)
    ensures Follows(run, ops) && |ops| == 6
    ensures run[6].stories == map[1 := Feature1(Accepted, Some(1), Some(0))] && 1 in run[6].projects
  {
    run, ops := FinishedOne();
    Stepped1(run[4], run[4].stories[1], Delivered);
    run, ops := Next(run, ops, Update(1, ADMIN, StateUpdate(Delivered), 0));
    Stepped1(run[5], run[5].stories[1], Accepted);
    run, ops := Next(run, ops, Update(1, ADMIN, StateUpdate(Accepted), 0));
  }

  /** The next story takes the position the first one froze at. */
  lemma SecondOne() returns (run: seq<Db>, ops: seq<Op>)
    ensures Follows(run, ops) && |ops| == 7 && 1 in run[7].projects
    ensures run[7].stories == map[1 := Feature1(Accepted, Some(1), Some(0)), 2 := Feature1(Unstarted, None, None)]
  {
    run, ops := AcceptedOne();
    CreatedAlone(run[6], 2, Current);
    run, ops := Next(run, ops, Create(2, 1, 1, Pointed(Current)));
  }

  /** An administrator reopens the first story, and both sit on one position. */
  lemma TieIsReached() returns (run: seq<Db>, ops: seq<Op>)
    ensures Follows(run, ops) && |ops| == 9
    ensures ReopensOnto(run[7], ops[7], Key(1, Current))
    ensures Tied3(run[9].stories)
  {
    run, ops := SecondOne();
    Stepped1(run[7], run[7].stories[1], Delivered);
    assert run[7].stories[2].position == GAP;
    run, ops := Next(run, ops, Update(1, ADMIN, StateUpdate(Delivered), 0));
    CreatedAlone(run[8], 3, Icebox);
    run, ops := Next(run, ops, Create(3, 1, 1, Pointed(Icebox)));
  }

  lemma Next(run: seq<Db>, ops: seq<Op>, op: Op) returns (run': seq<Db>, ops': seq<Op>)
    requires Follows(run, ops) && Enabled(run[|ops|], op)
    ensures Follows(run', ops') && run' == run + [Apply(run[|ops|], op)] && ops' == ops + [op]
  {
    run', ops' := run + [Apply(run[|ops|], op)], ops + [op];
    Extended(run, ops, op);
  }

  ghost predicate Tied3(stories: map<int, Story>) {
    stories == map[1 := Feature1(Delivered, Some(1), None), 2 := Feature1(Unstarted, None, None),
                   3 := Feature1(InIcebox, None, None)]
  }

  /** Dropping the third story between the two tied ones: the server rebalances and
      puts it there, the board's midpoint is a third tie and ids put it last. */
  lemma TiedDropDisagrees(db: Db, cards: Cards)
    requires Tied3(db.stories) && Mirrors(db, 1, 0, cards)
    ensures Panel(db.stories, Key(1, Current)) == SectionStories(cards, Current) == [1, 2]
    ensures var r := MoveTx(db, 3, MoveRequest([1, 2], 3, Current, 1));
            && r.Ok? && r.value.renormalized && Panel(r.value.db.stories, Key(1, Current)) == [1, 3, 2]
            && SectionStories(ApplyMove(cards, 3, Current, 1), Current) == [1, 2, 3]
  {
    ServerDrops(db);
    BoardDrops(db, cards);
  }

  lemma TiedPanel(stories: map<int, Story>)
    requires Tied3(stories)
    ensures Panel(stories, Key(1, Current)) == [1, 2] && Minus([1, 2], {3}) == [1, 2]
    ensures Rows(stories, Key(1, Current), 3) == [1, 2]
  {
    var m := ScopeOf(stories, Key(1, Current));
    OrderIs(m, [1, 2]);
    assert m - {3} == m;
  }

  lemma TiedRebalances(stories: map<int, Story>)
    requires Tied3(stories)
    ensures var p := Place(stories, Key(1, Current), 3, Where(Some(1), Some(2), false)); p.Ok? && p.value.rebalanced
  {
    TiedPanel(stories);
    assert IndexOf([1, 2], 1) == 0;
    assert PositionAt(stories, [1, 2], 0) == PositionAt(stories, [1, 2], 1) == Some(GAP);
  }

  lemma ServerDrops(db: Db)
    requires Tied3(db.stories)
    ensures Panel(db.stories, Key(1, Current)) == [1, 2]
    ensures var r := MoveTx(db, 3, MoveRequest([1, 2], 3, Current, 1));
            r.Ok? && r.value.renormalized && Panel(r.value.db.stories, Key(1, Current)) == [1, 3, 2]
  {
    TiedPanel(db.stories);
    TiedRebalances(db.stories);
    var input := MoveInput(Current, Some(1), Some(2));
    assert MoveRequest([1, 2], 3, Current, 1) == input;
    MoveOrder(db, 3, input);
    assert InsertAt([1, 2], 1, 3) == [1, 3, 2];
  }

  const CARDS3: Cards := map[
    1 := Card(Current, Delivered, GAP as real), 2 := Card(Current, Unstarted, GAP as real), 3 := Card(Icebox, InIcebox, GAP as real)]

  lemma TiedCards(db: Db, cards: Cards)
    requires Tied3(db.stories) && Mirrors(db, 1, 0, cards)
    ensures cards == CARDS3
  {
    forall x ensures x in cards <==> x == 1 || x == 2 || x == 3 {
      assert x in cards <==> x in db.stories && OnBoard(db.stories[x], 1, 0);
    }
    assert 1 in cards && 2 in cards && 3 in cards;
    assert cards[1] == Card(Current, Delivered, GAP as real);
  }

  lemma CardsShow()
    ensures SectionStories(CARDS3, Current) == [1, 2] && Minus([1, 2], {3}) == [1, 2]
    ensures SectionStories(CARDS3[3 := Card(Current, Unstarted, GAP as real)], Current) == [1, 2, 3]
  {
    OrderIs(CardScope(CARDS3, Current), [1, 2]);
    OrderIs(CardScope(CARDS3[3 := Card(Current, Unstarted, GAP as real)], Current), [1, 2, 3]);
  }

  lemma BoardDrops(db: Db, cards: Cards)
    requires Tied3(db.stories) && Mirrors(db, 1, 0, cards)
    ensures SectionStories(cards, Current) == [1, 2]
    ensures SectionStories(ApplyMove(cards, 3, Current, 1), Current) == [1, 2, 3]
  {
    TiedCards(db, cards);
    CardsShow();
    assert ApplyMove(CARDS3, 3, Current, 1) == CARDS3[3 := Card(Current, Unstarted, GAP as real)];
  }
}

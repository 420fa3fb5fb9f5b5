/** Which items of a bulk creation succeed, item by item, and what they become
    (internal/mcpserver/tools.go). */
module StoryCreations {
  import opened Sequences
  import opened States
  import opened StoryModel
  import opened StoryOrder
  import opened Blockers
  import opened StoryInvariants
  import opened StoryLinks
  import opened StoryEffects
  import opened StoryBulk
  import opened StoryRuns

  // ----- what each item asks for -----

  /** The items it names come earlier and were created. */
  predicate LinksNamed(item: Item, i: nat, created: seq<Option<int>>) {
    forall j | j in item.blockedByItems :: 0 <= j < i && j < |created| && created[j].Some?
  }

  /** The ids it waits on: those it names, then those its items were created as. */
  function LinkIds(item: Item, created: seq<Option<int>>): seq<int> {
    item.input.blockedBy + seq(|item.blockedByItems|, n requires 0 <= n < |item.blockedByItems| =>
      var j := item.blockedByItems[n]; if 0 <= j < |created| && created[j].Some? then created[j].value else 0)
  }

  /** Created by an item before `i`. */
  ghost predicate MadeBefore(created: seq<Option<int>>, i: nat, b: int) {
    exists j | 0 <= j < i && j < |created| :: created[j] == Some(b)
  }

  /** A live story of the project, from before the call or by an earlier item, from which
      no chain of fifty-one links leaves. */
  ghost predicate MayBlock(db: Db, project: int, created: seq<Option<int>>, i: nat, g: Graph, b: int) {
    && ((b in db.stories && db.stories[b].deletedAt.None? && db.stories[b].project == project) || MadeBefore(created, i, b))
    && !Deep(g, b, 51)
  }

  /** Points from the scale, on a feature or where the project allows them. */
  predicate PointsFit(db: Db, project: int, input: CreateInput)
    requires project in db.projects
  {
    input.estimate.Some? ==>
      input.estimate.value in {0, 1, 2, 3, 5, 8} && (input.kind == None || input.kind == Some(Feature) || db.projects[project])
  }

  /** Item `i` is in order, given what the items before it were created as. */
  ghost predicate Fits(db: Db, project: int, items: seq<Item>, i: nat, created: seq<Option<int>>, g: Graph)
    requires i < |items| && project in db.projects
  {
    var item := items[i];
    && PointsFit(db, project, item.input)
    && (item.input.owner.Some? ==> item.input.owner.value in db.users)
    && LinksNamed(item, i, created)
    && |set b | b in LinkIds(item, created)| <= 20
    && forall b | b in LinkIds(item, created) :: MayBlock(db, project, created, i, g, b)
  }

  /** The created story is what the item asked for, and waits on what it named. */
  ghost predicate Became(after: Db, key: int, project: int, actor: int, section: Section, item: Item, created: seq<Option<int>>) {
    && key in after.stories && Fresh(after.stories[key], project, actor, item.input.(section := Some(section)))
    && FirstMentions(BlockersOf(after.blockers, key), LinkIds(item, created))
  }

  // ----- one item -----

  function Asked(c: Creation, item: Item, section: Section): CreateInput {
    item.input.(section := Some(section), blockedBy := LinkIds(item, c.created),
                after := if c.done == [] then None else Some(c.done[|c.done| - 1]))
  }

  lemma BlockersNamed(i: nat, item: Item, created: seq<Option<int>>)
    ensures ItemBlockers(i, item, created) == if LinksNamed(item, i, created) then Ok(LinkIds(item, created)) else Err(Invalid)
  {
  }

  lemma ItemCreated(c: Creation, n: nat, item: Item, key: int, project: int, actor: int, section: Section)
    requires GraphOk(c.db) && 0 !in c.db.stories && key !in c.db.stories
    ensures var c', ok := CreateItem(c, n, item, key, project, actor, section),
                          LinksNamed(item, n, c.created) && MayCreate(c.db, project, Asked(c, item, section));
            && c'.created == c.created + [if ok then Some(key) else None]
            && c'.done == (if ok then c.done + [key] else c.done)
            && (!ok ==> c'.db == c.db)
            && (ok ==> CreateTx(c.db, key, project, actor, Asked(c, item, section)) == Ok(c'.db))
            && (ok ==> CreateKeepsRows(c.db, c'.db, key, project, actor, Asked(c, item, section)))
  {
    BlockersNamed(n, item, c.created);
    CreateExactly(c.db, key, project, actor, Asked(c, item, section));
  }

  // ----- the chain -----

  /** The store in the middle of the chain: what was there before but for positions, and
      what was created since. */
  ghost predicate Midway(db: Db, c: Creation, project: int, n: nat) {
    && Inv(c.db) && c.db.projects == db.projects && c.db.users == db.users && |c.created| == n
    && OldKept(db, c.db) && NewMade(db, c, project, n)
  }

  ghost predicate OldKept(db: Db, after: Db) {
    && (forall x | x in db.stories :: x in after.stories && after.stories[x] == db.stories[x].(position := after.stories[x].position))
    && (forall x | x in db.stories :: BlockersOf(after.blockers, x) == BlockersOf(db.blockers, x))
  }

  ghost predicate NewMade(db: Db, c: Creation, project: int, n: nat) {
    && (forall x | x in c.db.stories :: x in db.stories || MadeBefore(c.created, n, x))
    && (forall x | MadeBefore(c.created, n, x) ::
          x in c.db.stories && c.db.stories[x].project == project && c.db.stories[x].deletedAt.None?)
  }

  /** Chains do not change where links do not. */
  lemma {:induction false} DeepSame(g: Graph, h: Graph, inside: set<int>, b: int, n: nat)
    requires forall x | x in inside :: BlockersOf(g, x) == BlockersOf(h, x)
    requires forall x, y | x in inside && y in BlockersOf(g, x) :: y in inside
    requires b in inside
    ensures Deep(g, b, n) <==> Deep(h, b, n)
    decreases n
  {
    if n > 0 {
      forall c | c in BlockersOf(g, b) ensures Deep(g, c, n - 1) <==> Deep(h, c, n - 1) {
        DeepSame(g, h, inside, c, n - 1);
      }
    }
  }

  lemma DeepKept(before: Db, after: Db, b: int)
    requires GraphOk(before) && b in before.stories
    requires forall x | x in before.stories :: BlockersOf(after.blockers, x) == BlockersOf(before.blockers, x)
    ensures Deep(after.blockers, b, 51) <==> Deep(before.blockers, b, 51)
  {
    forall x, y | x in before.stories && y in BlockersOf(before.blockers, x) ensures y in before.stories {
      assert LinksOk(before, x, before.blockers[x]);
    }
    DeepSame(before.blockers, after.blockers, before.stories.Keys, b, 51);
  }

  /** In the middle of the chain an item is accepted if and only if it fits. */
  lemma FitsMidway(db: Db, c: Creation, items: seq<Item>, n: nat, project: int, section: Section)
    requires Midway(db, c, project, n) && n < |items| && project in db.projects && section != Done
    requires c.done != [] ==> c.done[|c.done| - 1] in Panel(c.db.stories, Key(project, section))
    ensures Fits(db, project, items, n, c.created, c.db.blockers) <==>
            LinksNamed(items[n], n, c.created) && MayCreate(c.db, project, Asked(c, items[n], section))
  {
    forall b | b in LinkIds(items[n], c.created)
      ensures MayBlock(db, project, c.created, n, c.db.blockers, b) <==>
              b in c.db.stories && c.db.stories[b].deletedAt.None? && c.db.stories[b].project == project && !Deep(c.db.blockers, b, 51)
    {
    }
  }

  /** What was decided stays decided while more is created. */
  lemma FitsLater(db: Db, c: Creation, d: Creation, items: seq<Item>, n: nat, i: nat, project: int)
    requires Midway(db, c, project, n) && i <= n < |items| && project in db.projects
    requires |d.created| == n + 1 && d.created[..n] == c.created
    requires forall x | x in c.db.stories :: BlockersOf(d.db.blockers, x) == BlockersOf(c.db.blockers, x)
    ensures Fits(db, project, items, i, d.created, d.db.blockers) <==> Fits(db, project, items, i, c.created, c.db.blockers)
    ensures LinksNamed(items[i], i, c.created) ==> LinkIds(items[i], d.created) == LinkIds(items[i], c.created)
  {
    SameLinks(items[i], i, c.created, d.created);
    if LinksNamed(items[i], i, c.created) {
      forall b | b in LinkIds(items[i], c.created)
        ensures MayBlock(db, project, d.created, i, d.db.blockers, b) <==> MayBlock(db, project, c.created, i, c.db.blockers, b)
      {
        assert MadeBefore(d.created, i, b) <==> MadeBefore(c.created, i, b) by { SameMade(i, c.created, d.created, b); }
        if MadeBefore(c.created, i, b) {
          assert MadeBefore(c.created, n, b);
        }
        if b in c.db.stories {
          DeepKept(c.db, d.db, b);
        }
      }
    }
  }

  lemma SameMade(i: nat, before: seq<Option<int>>, after: seq<Option<int>>, b: int)
    requires i <= |before| <= |after| && after[..|before|] == before
    ensures MadeBefore(after, i, b) <==> MadeBefore(before, i, b)
  {
    forall j | 0 <= j < i ensures after[j] == before[j] {
      assert after[j] == after[..|before|][j];
    }
  }

  lemma SameLinks(item: Item, i: nat, before: seq<Option<int>>, after: seq<Option<int>>)
    requires i <= |before| <= |after| && after[..|before|] == before
    ensures LinksNamed(item, i, after) <==> LinksNamed(item, i, before)
    ensures LinksNamed(item, i, before) ==> LinkIds(item, after) == LinkIds(item, before)
  {
    forall j | 0 <= j < i ensures after[j] == before[j] {
      assert after[j] == after[..|before|][j];
    }
    if LinksNamed(item, i, before) {
      forall n | 0 <= n < |item.blockedByItems|
        ensures var j := item.blockedByItems[n]; 0 <= j < i && after[j] == before[j]
      {
        assert item.blockedByItems[n] in item.blockedByItems;
      }
    }
  }

  /** After `n` items: which were created, and as what. */
  ghost predicate Decided(db: Db, c: Creation, project: int, actor: int, section: Section, items: seq<Item>, keys: seq<int>, n: nat)
    requires n <= |items| == |keys| && project in db.projects
  {
    && Midway(db, c, project, n)
    && (forall i | 0 <= i < n :: Settled(db, c, project, actor, section, items, keys, i))
  }

  ghost predicate Settled(db: Db, c: Creation, project: int, actor: int, section: Section, items: seq<Item>, keys: seq<int>, i: nat)
    requires i < |items| == |keys| && i < |c.created| && project in db.projects
  {
    var fits := Fits(db, project, items, i, c.created, c.db.blockers);
    && c.created[i] == (if fits then Some(keys[i]) else None)
    && (fits ==> Became(c.db, keys[i], project, actor, section, items[i], c.created))
  }

  lemma MadeGrows(c: Creation, d: Creation, made: Option<int>, n: nat, x: int)
    requires |c.created| == n && d.created == c.created + [made]
    ensures MadeBefore(d.created, n + 1, x) <==> MadeBefore(c.created, n, x) || made == Some(x)
  {
    assert d.created[..n] == c.created && d.created[n] == made;
    SameMade(n, c.created, d.created, x);
    if MadeBefore(d.created, n + 1, x) && made != Some(x) {
      var j :| 0 <= j < n + 1 && d.created[j] == Some(x);
      assert j < n;
    }
  }

  /** One more item leaves the middle of the chain as it should be. */
  lemma StillMidway(db: Db, c: Creation, d: Creation, project: int, actor: int, section: Section, item: Item, key: int, n: nat)
    requires Midway(db, c, project, n) && key !in c.db.stories && Inv(d.db)
    requires CreateKeepsRows(c.db, d.db, key, project, actor, Asked(c, item, section)) && d.created == c.created + [Some(key)]
    ensures Midway(db, d, project, n + 1)
  {
    ItemBecame(c, d, project, actor, section, item, key);
    OldStays(db, c.db, d.db);
    NewStays(db, c, d, project, key, n);
  }

  lemma OldStays(db: Db, before: Db, after: Db)
    requires OldKept(db, before) && OldKept(before, after)
    ensures OldKept(db, after)
  {
  }

  lemma NewStays(db: Db, c: Creation, d: Creation, project: int, key: int, n: nat)
    requires NewMade(db, c, project, n) && |c.created| == n && d.created == c.created + [Some(key)]
    requires OthersKept(c.db.stories, d.db.stories, key) && d.db.stories[key].project == project && d.db.stories[key].deletedAt.None?
    ensures NewMade(db, d, project, n + 1)
  {
    forall x ensures MadeBefore(d.created, n + 1, x) <==> MadeBefore(c.created, n, x) || x == key {
      MadeGrows(c, d, Some(key), n, x);
    }
  }

  lemma ItemBecame(c: Creation, d: Creation, project: int, actor: int, section: Section, item: Item, key: int)
    requires GraphOk(c.db) && key !in c.db.stories
    requires CreateKeepsRows(c.db, d.db, key, project, actor, Asked(c, item, section))
    ensures forall x | x in c.db.stories :: BlockersOf(d.db.blockers, x) == BlockersOf(c.db.blockers, x)
    ensures Became(d.db, key, project, actor, section, item, c.created)
  {
    forall x | x in c.db.stories ensures BlockersOf(d.db.blockers, x) == BlockersOf(c.db.blockers, x) {
      LinksElsewhere(c.db.blockers, d.db.blockers, key, LinkIds(item, c.created), x);
    }
    if LinkIds(item, c.created) == [] {
      NoLinksYet(c.db, key);
    }
  }

  lemma LinksElsewhere(g: Graph, h: Graph, key: int, ids: seq<int>, x: int)
    requires x != key && (if ids == [] then h == g else Relinked(g, h, key, ids))
    ensures BlockersOf(h, x) == BlockersOf(g, x)
  {
    if ids != [] {
      assert x in h <==> x in h - {key};
      assert x in g <==> x in g - {key};
      assert x in h ==> (h - {key})[x] == h[x];
      assert x in g ==> (g - {key})[x] == g[x];
    }
  }

  lemma NoLinksYet(db: Db, key: int)
    requires GraphOk(db) && key !in db.stories
    ensures BlockersOf(db.blockers, key) == []
  {
    forall s | s in db.blockers ensures s in db.stories {
      assert LinksOk(db, s, db.blockers[s]);
    }
  }

  lemma StillSettled(
    db: Db, c: Creation, d: Creation, project: int, actor: int, section: Section, items: seq<Item>, keys: seq<int>, n: nat, i: nat)
    requires Midway(db, c, project, n) && i < n < |items| == |keys| && project in db.projects
    requires Settled(db, c, project, actor, section, items, keys, i)
    requires |d.created| == n + 1 && d.created[..n] == c.created
    requires forall x | x in c.db.stories :: BlockersOf(d.db.blockers, x) == BlockersOf(c.db.blockers, x)
    requires forall x | x in c.db.stories :: x in d.db.stories && d.db.stories[x] == c.db.stories[x].(position := d.db.stories[x].position)
    ensures Settled(db, d, project, actor, section, items, keys, i)
  {
    FitsLater(db, c, d, items, n, i, project);
    assert d.created[i] == d.created[..n][i];
  }

  /** The last story created is shown, to be followed by the next. */
  lemma LastCreatedShown(db: Db, project: int, actor: int, section: Section, items: seq<Item>, keys: seq<int>)
    requires |keys| == |items| && FreshKeys(db, keys) && 0 !in db.stories
    ensures var c := CreateEach(db, project, actor, section, items, keys);
            c.done != [] ==> c.done[|c.done| - 1] in Panel(c.db.stories, Key(project, section))
  {
    CreateEachOrder(db, project, actor, section, items, keys);
    var c := CreateEach(db, project, actor, section, items, keys);
    if c.done != [] {
      assert c.done[|c.done| - 1] in c.done;
    }
  }

  lemma KeyUnused(db: Db, c: Creation, project: int, actor: int, section: Section, items: seq<Item>, keys: seq<int>, n: nat)
    requires n < |items| == |keys| && project in db.projects && FreshKeys(db, keys)
    requires Decided(db, c, project, actor, section, items, keys, n)
    ensures keys[n] !in c.db.stories && keys[n] > 0
  {
    assert keys[n] in keys;
    forall x | MadeBefore(c.created, n, x) ensures x in keys[..n] {
      var j :| 0 <= j < n && c.created[j] == Some(x);
      assert Settled(db, c, project, actor, section, items, keys, j);
      assert keys[..n][j] == x;
    }
    assert keys[n] !in keys[..n];
    NotMade(db, c, project, n, keys[n]);
  }

  lemma NotMade(db: Db, c: Creation, project: int, n: nat, x: int)
    requires NewMade(db, c, project, n) && x !in db.stories && !MadeBefore(c.created, n, x)
    ensures x !in c.db.stories
  {
  }

  /** The store after one more item, and what the step kept. */
  lemma MidwayNext(db: Db, c: Creation, project: int, actor: int, section: Section, items: seq<Item>, key: int, n: nat)
    requires Midway(db, c, project, n) && n < |items| && project in db.projects && section != Done
    requires key > 0 && key !in c.db.stories
    requires c.done != [] ==> c.done[|c.done| - 1] in Panel(c.db.stories, Key(project, section))
    ensures var d, fits := CreateItem(c, n, items[n], key, project, actor, section), Fits(db, project, items, n, c.created, c.db.blockers);
            && Midway(db, d, project, n + 1) && StepKept(c, d)
            && d.created == c.created + [if fits then Some(key) else None]
            && (fits ==> Became(d.db, key, project, actor, section, items[n], c.created))
  {
    var item := items[n];
    var d := CreateItem(c, n, item, key, project, actor, section);
    ItemCreated(c, n, item, key, project, actor, section);
    FitsMidway(db, c, items, n, project, section);
    if Fits(db, project, items, n, c.created, c.db.blockers) {
      CreateKeeps(c.db, key, project, actor, Asked(c, item, section));
      ItemBecame(c, d, project, actor, section, item, key);
      StillMidway(db, c, d, project, actor, section, item, key, n);
    } else {
      forall x ensures MadeBefore(d.created, n + 1, x) <==> MadeBefore(c.created, n, x) {
        MadeGrows(c, d, None, n, x);
      }
    }
  }

  ghost predicate StepKept(c: Creation, d: Creation) {
    && |d.created| == |c.created| + 1 && d.created[..|c.created|] == c.created
    && (forall x | x in c.db.stories :: BlockersOf(d.db.blockers, x) == BlockersOf(c.db.blockers, x))
    && (forall x | x in c.db.stories :: x in d.db.stories && d.db.stories[x] == c.db.stories[x].(position := d.db.stories[x].position))
  }

  lemma DecidesNext(db: Db, c: Creation, project: int, actor: int, section: Section, items: seq<Item>, keys: seq<int>, n: nat)
    requires n < |items| == |keys| && project in db.projects && section != Done && FreshKeys(db, keys)
    requires Decided(db, c, project, actor, section, items, keys, n)
    requires c.done != [] ==> c.done[|c.done| - 1] in Panel(c.db.stories, Key(project, section))
    ensures Decided(db, CreateItem(c, n, items[n], keys[n], project, actor, section), project, actor, section, items, keys, n + 1)
  {
    var d := CreateItem(c, n, items[n], keys[n], project, actor, section);
    KeyUnused(db, c, project, actor, section, items, keys, n);
    MidwayNext(db, c, project, actor, section, items, keys[n], n);
    FitsLater(db, c, d, items, n, n, project);
    forall i | 0 <= i < n ensures Settled(db, d, project, actor, section, items, keys, i) {
      assert Settled(db, c, project, actor, section, items, keys, i);
      StillSettled(db, c, d, project, actor, section, items, keys, n, i);
    }
  }

  lemma DecidesOne(db: Db, project: int, actor: int, section: Section, items: seq<Item>, keys: seq<int>, n: nat)
    requires Inv(db) && project in db.projects && section != Done && n < |items| == |keys| && FreshKeys(db, keys)
    requires Decided(db, CreateEach(db, project, actor, section, items[..n], keys[..n]), project, actor, section, items, keys, n)
    ensures Decided(db, CreateEach(db, project, actor, section, items[..n + 1], keys[..n + 1]), project, actor, section, items, keys, n + 1)
  {
    FreshPrefix(db, keys, n);
    LastCreatedShown(db, project, actor, section, items[..n], keys[..n]);
    assert items[..n + 1][..n] == items[..n] && keys[..n + 1][..n] == keys[..n];
    DecidesNext(db, CreateEach(db, project, actor, section, items[..n], keys[..n]), project, actor, section, items, keys, n);
  }

  lemma {:induction false} Decides(db: Db, project: int, actor: int, section: Section, items: seq<Item>, keys: seq<int>, n: nat)
    requires Inv(db) && project in db.projects && section != Done && n <= |items| == |keys| && FreshKeys(db, keys)
    ensures Decided(db, CreateEach(db, project, actor, section, items[..n], keys[..n]), project, actor, section, items, keys, n)
  {
    if n > 0 {
      Decides(db, project, actor, section, items, keys, n - 1);
      DecidesOne(db, project, actor, section, items, keys, n - 1);
    }
  }

  lemma FreshPrefix(db: Db, keys: seq<int>, n: nat)
    requires FreshKeys(db, keys) && n <= |keys|
    ensures FreshKeys(db, keys[..n])
  {
    forall k | k in keys[..n] ensures k > 0 && k !in db.stories {
      assert k in keys;
    }
  }

  /** Bulk creation creates item `i` if and only if it fits, as what it asked for and waiting
      on what it named; all that was there before keeps its row but for the position, and its links. */
  lemma CreateEachExactly(db: Db, project: int, actor: int, section: Section, items: seq<Item>, keys: seq<int>)
    requires Inv(db) && project in db.projects && section != Done && |keys| == |items| && FreshKeys(db, keys)
    ensures var c := CreateEach(db, project, actor, section, items, keys);
            && |c.created| == |items|
            && (forall i | 0 <= i < |items| :: Settled(db, c, project, actor, section, items, keys, i))
            && OldKept(db, c.db)
  {
    Decides(db, project, actor, section, items, keys, |items|);
    assert items[..|items|] == items && keys[..|items|] == keys;
  }

  /** If no item names blockers and each has its points and its owner in order, all are created. */
  lemma AllCreated(db: Db, project: int, actor: int, section: Section, items: seq<Item>, keys: seq<int>)
    requires Inv(db) && project in db.projects && section != Done && |keys| == |items| && FreshKeys(db, keys)
    requires forall i | 0 <= i < |items| ::
               && items[i].input.blockedBy == [] && items[i].blockedByItems == []
               && PointsFit(db, project, items[i].input) && (items[i].input.owner.Some? ==> items[i].input.owner.value in db.users)
    ensures var c := CreateEach(db, project, actor, section, items, keys);
            |c.created| == |items| && forall i | 0 <= i < |items| :: c.created[i] == Some(keys[i])
  {
    CreateEachExactly(db, project, actor, section, items, keys);
    var c := CreateEach(db, project, actor, section, items, keys);
    forall i | 0 <= i < |items| ensures c.created[i] == Some(keys[i]) {
      assert Settled(db, c, project, actor, section, items, keys, i);
      assert LinkIds(items[i], c.created) == [];
      var none := set b | b in LinkIds(items[i], c.created);
      assert none == {};
    }
  }
}

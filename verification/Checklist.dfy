/** The task list of a story, kept as positions 1 to n (internal/story/tasks.go). */
module Checklist {
  import opened Sequences
  import opened Ordering
  import opened StoryPlacement

  datatype Task = Task(story: int, done: bool, position: int)

  /** The tasks of one story with their positions. */
  function TasksOf(tasks: map<int, Task>, story: int): Scope {
    map id | id in tasks && tasks[id].story == story :: tasks[id].position as real
  }

  /** The list as it is shown. */
  ghost function Shown(tasks: map<int, Task>, story: int): seq<int> {
    Order(TasksOf(tasks, story))
  }

  function Clamped(index: int, n: nat): nat {
    if index < 0 then 0 else if index > n then n else index
  }

  /** The list with one task taken out and put back at an index. */
  ghost function Reordered(tasks: map<int, Task>, id: int, index: int): seq<int>
    requires id in tasks
  {
    var others := Minus(Shown(tasks, tasks[id].story), {id});
    InsertAt(others, Clamped(index, |others|), id)
  }

  /** Tasks numbered by their place in a list. */
  function Numbered(tasks: map<int, Task>, list: seq<int>): map<int, Task> {
    map id | id in tasks :: if id in list then tasks[id].(position := IndexOf(list, id) + 1) else tasks[id]
  }

  lemma ReorderedMembers(tasks: map<int, Task>, id: int, index: int)
    requires id in tasks
    ensures NoDup(Reordered(tasks, id, index))
    ensures Lists(tasks, Reordered(tasks, id, index), tasks[id].story)
  {
    var scope := TasksOf(tasks, tasks[id].story);
    var others := Minus(Order(scope), {id});
    DisplayMinus(scope, Order(scope), {id});
    DisplayNoDup(scope - {id}, others);
    forall i | 0 <= i < |others| ensures others[i] != id { DisplayMember(scope - {id}, others, i); }
    InsertedOnce(others, Clamped(index, |others|), id);
  }

  lemma InsertedOnce(s: seq<int>, k: nat, x: int)
    requires NoDup(s) && k <= |s| && forall i | 0 <= i < |s| :: s[i] != x
    ensures NoDup(InsertAt(s, k, x))
    ensures forall y :: y in InsertAt(s, k, x) <==> y in s || y == x
  {
    var t := InsertAt(s, k, x);
    forall i, j | 0 <= i < j < |t| ensures t[i] != t[j] {
      assert t[i] == if i < k then s[i] else if i == k then x else s[i - 1];
      assert t[j] == if j < k then s[j] else if j == k then x else s[j - 1];
    }
    assert s == s[..k] + s[k..];
    forall y ensures y in t <==> y in s || y == x {
    }
  }

  lemma NumberedStep(tasks: map<int, Task>, list: seq<int>, i: nat)
    requires NoDup(list) && i < |list| && list[i] in tasks
    ensures var was, x := Numbered(tasks, list[..i]), list[i];
            was[x] == tasks[x] && Numbered(tasks, list[..i + 1]) == was[x := tasks[x].(position := i + 1)]
  {
    var a, b := list[..i], list[..i + 1];
    IndexInNoDup(b, i);
    forall x | x in tasks && x in a ensures IndexOf(a, x) == IndexOf(b, x) {
      IndexInNoDup(b, IndexOf(a, x));
    }
    forall x ensures x in b <==> x in a || x == list[i] {
    }
  }

  lemma Commute(tasks: map<int, Task>, x: int, t: Task, y: int, u: Task)
    requires x != y
    ensures tasks[x := t][y := u] == tasks[y := u][x := t]
  {
  }

  lemma Overwrite(tasks: map<int, Task>, x: int, t: Task, u: Task)
    ensures tasks[x := t][x := u] == tasks[x := u]
    ensures x in tasks && tasks[x] == u ==> tasks[x := u] == tasks
  {
  }

  /** `list` holds exactly the tasks of a story. */
  ghost predicate Lists(tasks: map<int, Task>, list: seq<int>, story: int) {
    forall x :: x in list <==> x in tasks && tasks[x].story == story
  }

  lemma ListedTask(tasks: map<int, Task>, list: seq<int>, story: int, x: int)
    requires Lists(tasks, list, story) && x in list
    ensures x in tasks && tasks[x].story == story
  {
  }

  /** Numbering a list makes it the one shown, and leaves every other story's list alone. */
  lemma NumberedShows(tasks: map<int, Task>, list: seq<int>, story: int, other: int)
    requires NoDup(list) && Lists(tasks, list, story)
    ensures Shown(Numbered(tasks, list), story) == list
    ensures forall i | 0 <= i < |list| :: list[i] in tasks && Numbered(tasks, list)[list[i]].position == i + 1
    ensures other != story ==> TasksOf(Numbered(tasks, list), other) == TasksOf(tasks, other)
  {
    var after := Numbered(tasks, list);
    var scope := TasksOf(after, story);
    forall i | 0 <= i < |list| ensures list[i] in scope && after[list[i]].position == i + 1 {
      IndexInNoDup(list, i);
      ListedTask(tasks, list, story, list[i]);
    }
    forall i, j | 0 <= i < j < |list| ensures Before(scope, list[i], list[j]) {
    }
    OrderIs(scope, list);
  }

  function Ticked(t: Task, done: Option<bool>): Task {
    if done.Some? then t.(done := done.value) else t
  }

  /** The table after an update: the task itself, and its list renumbered if it moved. */
  ghost function Updated(tasks: map<int, Task>, id: int, done: Option<bool>, index: Option<int>): map<int, Task>
    requires id in tasks
  {
    var changed := tasks[id := Ticked(tasks[id], done)];
    if index.None? then changed else Numbered(changed, Reordered(tasks, id, index.value))
  }

  class Checklists {
    var tasks: map<int, Task>

    constructor ()
      ensures tasks == map[]
    {
      tasks := map[];
    }

    /** The query: a story's tasks by position, then id. */
    method ListTasks(story: int) returns (all: seq<int>)
      ensures all == Shown(tasks, story)
    {
      all := [];
      ghost var scope := TasksOf(tasks, story);
      ghost var listed: Scope := map[];
      var todo := set id | id in tasks && tasks[id].story == story;
      while exists id :: id in todo
        invariant todo <= scope.Keys && listed == scope - todo
        invariant Displays(listed, all)
        decreases todo
      {
        var id :| id in todo;
        all := Insert(tasks, listed, all, id);
        todo := todo - {id};
        listed := listed[id := scope[id]];
      }
      assert listed == scope;
      OrderIs(scope, all);
    }

    /** A new task goes to the end of its story's list. */
    method AddTask(id: int, story: int, live: bool) returns (r: Result<()>)
      requires id !in tasks
      modifies this
      ensures !live ==> r == Err(NotFound) && tasks == old(tasks)
      ensures live ==> r == Ok(()) && id in tasks && tasks[id].story == story && !tasks[id].done &&
                       tasks - {id} == old(tasks) && Shown(tasks, story) == old(Shown(tasks, story)) + [id]
    {
      if !live {
        return Err(NotFound);
      }
      var all := ListTasks(story);
      ghost var scope := TasksOf(tasks, story);
      var last := 0;
      if |all| > 0 {
        DisplayMember(scope, all, |all| - 1);
        last := tasks[all[|all| - 1]].position;
      }
      ghost var was := tasks;
      tasks := tasks[id := Task(story, false, last + 1)];
      assert tasks - {id} == was;
      assert TasksOf(tasks, story) == scope[id := (last + 1) as real];
      DisplayInsert(scope, all, |all|, id, (last + 1) as real);
      OrderIs(TasksOf(tasks, story), InsertAt(all, |all|, id));
      return Ok(());
    }

    /** Completes, reopens or reorders a task; a reorder renumbers the whole list. */
    method UpdateTask(id: int, done: Option<bool>, index: Option<int>) returns (r: Result<()>)
      modifies this
      ensures id !in old(tasks) ==> r == Err(NotFound) && tasks == old(tasks)
      ensures id in old(tasks) ==> r == Ok(()) && tasks == Updated(old(tasks), id, done, index)
    {
      if id !in tasks {
        return Err(NotFound);
      }
      var t := Ticked(tasks[id], done);
      if index.Some? {
        ReorderedMembers(tasks, id, index.value);
        forall x | x in Reordered(tasks, id, index.value) ensures x in tasks {
          ListedTask(tasks, Reordered(tasks, id, index.value), tasks[id].story, x);
        }
        var all := ListTasks(t.story);
        var others := Without(all, id);
        var k := Clamped(index.value, |others|);
        var list := InsertAt(others, k, id);
        t := Renumber(list, id, t);
      }
      tasks := tasks[id := t];
      return Ok(());
    }

    /** Writes the changed positions of the other tasks; returns `t` with its own. */
    method Renumber(list: seq<int>, id: int, was: Task) returns (t: Task)
      requires NoDup(list) && id in list && id in tasks && forall x | x in list :: x in tasks
      modifies this
      ensures tasks[id := t] == Numbered(old(tasks)[id := was], list)
    {
      t := was;
      var i := 0;
      ghost var before := tasks[id := was];
      assert Numbered(before, list[..0]) == before;
      while i < |list|
        invariant 0 <= i <= |list| && id in tasks
        invariant tasks[id := t] == Numbered(before, list[..i])
      {
        var x := list[i];
        NumberedStep(before, list, i);
        ghost var was, u := Numbered(before, list[..i]), before[x].(position := i + 1);
        if x == id {
          t := t.(position := i + 1);
          Overwrite(tasks, id, was[id], t);
        } else {
          Commute(tasks, x, u, id, t);
          assert tasks[x] == before[x];
          if tasks[x].position != i + 1 {
            tasks := tasks[x := tasks[x].(position := i + 1)];
          } else {
            Overwrite(tasks, x, u, u);
          }
        }
        i := i + 1;
      }
      assert list[..i] == list;
    }

    method DeleteTask(id: int) returns (r: Result<int>)
      modifies this
      ensures r == (if id in old(tasks) then Ok(old(tasks)[id].story) else Err(NotFound)) && tasks == old(tasks) - {id}
    {
      if id !in tasks {
        return Err(NotFound);
      }
      r := Ok(tasks[id].story);
      tasks := tasks - {id};
    }
  }

  method Without(all: seq<int>, id: int) returns (others: seq<int>)
    ensures others == Minus(all, {id})
  {
    others := [];
    var i := 0;
    while i < |all|
      invariant 0 <= i <= |all| && others == Minus(all[..i], {id})
    {
      assert all[..i + 1][..i] == all[..i];
      if all[i] != id {
        others := others + [all[i]];
      }
      i := i + 1;
    }
    assert all[..i] == all;
  }

  ghost predicate PositionsIn(tasks: map<int, Task>, listed: Scope) {
    forall x | x in listed :: x in tasks && listed[x] == tasks[x].position as real
  }

  lemma InTable(tasks: map<int, Task>, listed: Scope, x: int)
    requires PositionsIn(tasks, listed) && x in listed
    ensures x in tasks && listed[x] == tasks[x].position as real
  {
  }

  /** Puts a task where the display order wants it. */
  method Insert(tasks: map<int, Task>, ghost listed: Scope, all: seq<int>, id: int) returns (out: seq<int>)
    requires id in tasks && id !in listed && Displays(listed, all)
    requires PositionsIn(tasks, listed)
    ensures Displays(listed[id := tasks[id].position as real], out)
  {
    var k := |all|;
    ghost var grown := listed[id := tasks[id].position as real];
    forall i | 0 <= i < |all| ensures all[i] in listed && all[i] in tasks {
      DisplayMember(listed, all, i);
      InTable(tasks, listed, all[i]);
    }
    while k > 0 && (tasks[id].position < tasks[all[k - 1]].position ||
                    (tasks[id].position == tasks[all[k - 1]].position && id < all[k - 1]))
      invariant 0 <= k <= |all|
      invariant forall j | k <= j < |all| :: Before(grown, id, all[j])
    {
      k := k - 1;
    }
    forall i | 0 <= i < k ensures Before(grown, all[i], id) {
      assert i < k - 1 ==> Before(listed, all[i], all[k - 1]);
    }
    DisplayWith(listed, all, k, id, tasks[id].position as real);
    out := InsertAt(all, k, id);
  }

  /** Moving a task to an index: the list is the old one with the task taken out and
      put back there, numbered 1 to n, whatever the numbers were before. */
  lemma TaskMoves(tasks: map<int, Task>, id: int, done: Option<bool>, index: int, other: int)
    requires id in tasks && other != tasks[id].story
    ensures var others, after := Minus(Shown(tasks, tasks[id].story), {id}), Updated(tasks, id, done, Some(index));
            var k := if index < 0 then 0 else if index < |others| then index else |others|;
            var list := others[..k] + [id] + others[k..];
            && Shown(after, tasks[id].story) == list
            && (forall i | 0 <= i < |list| :: list[i] in after && after[list[i]].position == i + 1)
            && Shown(after, other) == Shown(tasks, other)
  {
    ReorderedMembers(tasks, id, index);
    var changed := tasks[id := Ticked(tasks[id], done)];
    ListMembersKept(tasks, id, done, Reordered(tasks, id, index));
    NumberedShows(changed, Reordered(tasks, id, index), tasks[id].story, other);
    assert TasksOf(changed, other) == TasksOf(tasks, other);
  }

  /** An update ticks its task as asked and changes no other task's tick, and no task's story; without
      an index it changes no position. */
  lemma TaskTicked(tasks: map<int, Task>, id: int, done: Option<bool>, index: Option<int>, x: int)
    requires id in tasks && x in tasks
    ensures var after := Updated(tasks, id, done, index);
            && after.Keys == tasks.Keys && after[x].story == tasks[x].story
            && after[x].done == (if x == id && done.Some? then done.value else tasks[x].done)
            && (index.None? ==> after[x].position == tasks[x].position)
  {
  }

  lemma ListMembersKept(tasks: map<int, Task>, id: int, done: Option<bool>, list: seq<int>)
    requires id in tasks && Lists(tasks, list, tasks[id].story)
    ensures Lists(tasks[id := Ticked(tasks[id], done)], list, tasks[id].story)
  {
  }
}

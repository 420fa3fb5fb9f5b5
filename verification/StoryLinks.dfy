/** Which blockers a request stores, and when it is refused (internal/story/tasks.go). */
module StoryLinks {
  import opened Sequences
  import opened StoryModel
  import opened Blockers

  /** The ids named, once each, in the order of their first mention. */
  ghost predicate FirstMentions(list: seq<int>, ids: seq<int>) {
    && NoDup(list) && (forall x :: x in list <==> x in ids)
    && forall i, j | 0 <= i < j < |list| :: IndexOf(ids, list[i]) < IndexOf(ids, list[j])
  }

  /** Another live story of the project that does not wait on `id` itself. A chain of
      fifty-one links counts as if it did. */
  ghost predicate Linkable(stories: map<int, Story>, g: Graph, id: int, project: int, b: int) {
    && b != id && b in stories && stories[b].deletedAt.None? && stories[b].project == project
    && !Reachable(g, b, id) && !Deep(g, b, 51)
  }

  /** What a list of blockers has to satisfy. */
  ghost predicate AllLinkable(stories: map<int, Story>, g: Graph, id: int, project: int, ids: seq<int>) {
    |set b | b in ids| <= 20 && forall b | b in ids :: Linkable(stories, g, id, project, b)
  }

  /** The story's links are the ids asked for, in order of first mention; no other story's links changed. */
  ghost predicate Relinked(before: Graph, after: Graph, id: int, ids: seq<int>) {
    id in after && FirstMentions(after[id], ids) && after - {id} == before - {id}
  }

  lemma Relinks(g: Graph, id: int, list: seq<int>, ids: seq<int>)
    requires FirstMentions(list, ids)
    ensures Relinked(g, g[id := list], id, ids)
  {
  }

  lemma IndexGrows(s: seq<int>, x: int, y: int)
    ensures x in s ==> IndexOf(s + [y], x) == IndexOf(s, x)
    ensures x !in s && x == y ==> IndexOf(s + [y], x) == |s|
  {
    var t := s + [y];
    if x in s {
      var i, j := IndexOf(s, x), IndexOf(t, x);
      assert t[i] == x;
      assert j >= 0 && j <= i;
      assert j < |s| && s[j] == x;
    } else if x == y {
      assert t[|s|] == x;
      assert forall j | 0 <= j < |s| :: t[j] == s[j];
    }
  }

  lemma {:induction false} DistinctMentions(ids: seq<int>)
    ensures FirstMentions(Distinct(ids), ids)
  {
    DistinctMembers(ids);
    if ids != [] {
      var most, last, list := ids[..|ids| - 1], ids[|ids| - 1], Distinct(ids);
      assert ids == most + [last];
      DistinctMentions(most);
      DistinctMembers(most);
      forall i, j | 0 <= i < j < |list| ensures IndexOf(ids, list[i]) < IndexOf(ids, list[j]) {
        MentionedEarlier(most, last, i, j);
      }
    }
  }

  lemma MentionedEarlier(most: seq<int>, last: int, i: nat, j: nat)
    requires FirstMentions(Distinct(most), most)
    requires var list := if last in Distinct(most) then Distinct(most) else Distinct(most) + [last]; i < j < |list|
    ensures var list := if last in Distinct(most) then Distinct(most) else Distinct(most) + [last];
            IndexOf(most + [last], list[i]) < IndexOf(most + [last], list[j])
  {
    var was := Distinct(most);
    var list := if last in was then was else was + [last];
    assert list[i] == was[i] && was[i] in was;
    IndexGrows(most, list[i], last);
    IndexGrows(most, list[j], last);
    if j < |was| {
      assert list[j] == was[j] && was[j] in was;
    }
  }

  /** Where lists agree up to `n`, an element of one from there on is in the other from there on. */
  lemma FoundBehind(a: seq<int>, b: seq<int>, n: nat, i: nat) returns (k: nat)
    requires n <= i < |a| && n <= |b| && a[..n] == b[..n] && NoDup(a) && a[i] in b
    ensures n <= k < |b| && b[k] == a[i]
  {
    forall j | 0 <= j < n ensures a[j] == b[j] {
      assert a[..n][j] == b[..n][j];
    }
    k :| 0 <= k < |b| && b[k] == a[i];
  }

  lemma Mentioned(list: seq<int>, ids: seq<int>, x: int)
    requires FirstMentions(list, ids)
    ensures x in list <==> x in ids
  {
  }

  /** Two lists of first mentions of the same ids are the same list. */
  lemma {:induction false} MentionsUnique(a: seq<int>, b: seq<int>, ids: seq<int>, n: nat)
    requires FirstMentions(a, ids) && FirstMentions(b, ids) && n <= |a|
    ensures n <= |b| && a[..n] == b[..n]
  {
    if n > 0 {
      MentionsUnique(a, b, ids, n - 1);
      Mentioned(a, ids, a[n - 1]);
      Mentioned(b, ids, a[n - 1]);
      var k := FoundBehind(a, b, n - 1, n - 1);
      Mentioned(b, ids, b[n - 1]);
      Mentioned(a, ids, b[n - 1]);
      var m := FoundBehind(b, a, n - 1, n - 1);
      assert k == n - 1;
      assert a[..n] == a[..n - 1] + [a[n - 1]] && b[..n] == b[..n - 1] + [b[n - 1]];
    }
  }

  /** A request is accepted if and only if it names at most twenty stories and each may be
      linked; what is stored are the ids it named, once each, in the order of first mention. */
  lemma LinksExactly(stories: map<int, Story>, g: Graph, id: int, project: int, ids: seq<int>)
    ensures var r := CleanBlockers(stories, g, id, project, ids);
            && (r.Ok? <==> AllLinkable(stories, g, id, project, ids))
            && (r.Err? ==> r == Err(Invalid))
            && (r.Ok? ==> FirstMentions(r.value, ids))
  {
    DistinctMentions(ids);
    NoDupSize(Distinct(ids));
    var named, kept := set b | b in ids, set b | b in Distinct(ids);
    forall b ensures b in named <==> b in kept {
    }
    assert named == kept;
    forall b ensures BlockerAllowed(stories, g, id, project, b) <==> Linkable(stories, g, id, project, b) {
      ReachesExactly(g, b, id, 0);
    }
  }
}

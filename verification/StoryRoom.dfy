/**
  How fast a section uses up its room. Midpoints halve a gap at worst, so
  sixteen placements lie between two rebalances of a section; an accepted story
  let back in with the position it was frozen at can cost one rebalance more.
 */
module StoryRoom {
  import opened Sequences
  import opened Ordering
  import opened Position
  import opened StoryModel
  import opened StoryPlacement

  function Pow2(n: nat): (p: int)
    ensures p >= 1
  {
    if n == 0 then 1 else 2 * Pow2(n - 1)
  }

  lemma GapIsPow2()
    ensures Pow2(16) == GAP && Pow2(15) == GAP / 2
  {
    assert Pow2(4) == 16;
    assert Pow2(8) == 256;
    assert Pow2(12) == 4096;
  }

  /** Any two stories of the section are at least `g` apart. */
  ghost predicate Spread(m: Scope, g: int) {
    forall a, b | a in m && b in m && a != b :: m[a] - m[b] >= g as real || m[b] - m[a] >= g as real
  }

  /** The room left in a section, by how many placements it took since the last
      rebalance, and how that accounts for its rebalances. */
  ghost predicate Roomy(stories: map<int, Story>, meter: Meter, key: Key) {
    var t := TallyOf(meter, key);
    && t.since <= 16
    && 16 * t.rebalanced + t.since + (if t.reopened then 16 else 0) <= t.placed + 16 * t.reopens
    && (!t.reopened ==> Spread(ScopeOf(stories, key), Pow2(16 - t.since)))
  }

  /** No two stories of the section share a position. */
  ghost predicate Untied(stories: map<int, Story>, key: Key) {
    forall a, b | a in stories && b in stories && a != b && InScope(stories[a], key) && InScope(stories[b], key) ::
      stories[a].position != stories[b].position
  }

  lemma SpreadIsUntied(stories: map<int, Story>, key: Key, g: int)
    requires g >= 1 && Spread(ScopeOf(stories, key), g)
    ensures Untied(stories, key)
  {
    var m := ScopeOf(stories, key);
    forall a, b | a in stories && b in stories && a != b && InScope(stories[a], key) && InScope(stories[b], key)
      ensures stories[a].position != stories[b].position
    {
      assert a in m && b in m && m[a] == stories[a].position as real && m[b] == stories[b].position as real;
    }
  }

  lemma UntiedIsSpread(stories: map<int, Story>, key: Key)
    requires Untied(stories, key)
    ensures Spread(ScopeOf(stories, key), 1)
  {
  }

  lemma SpreadShrinks(big: Scope, small: Scope, g: int, g': int)
    requires Spread(big, g) && g' <= g
    requires forall x | x in small :: x in big && small[x] == big[x]
    ensures Spread(small, g')
  {
  }

  /** The distance to the two neighbours bounds the distance to every other story. */
  lemma SpreadInsert(m: Scope, s: seq<int>, k: nat, x: int, v: real, g: int)
    requires Displays(m, s) && x !in m && k <= |s| && Spread(m, g) && g >= 0
    requires k > 0 ==> s[k - 1] in m && v - m[s[k - 1]] >= g as real
    requires k < |s| ==> s[k] in m && m[s[k]] - v >= g as real
    ensures Spread(m[x := v], g)
  {
    forall a | a in m ensures v - m[a] >= g as real || m[a] - v >= g as real {
      assert a in s;
      var i :| 0 <= i < |s| && s[i] == a;
      if i < k {
        assert i < k - 1 ==> Before(m, s[i], s[k - 1]);
      } else {
        assert i > k ==> Before(m, s[k], s[i]);
      }
    }
  }

  /** A rebalanced section is spread a whole gap apart. */
  lemma RenumberedSpread(stories: map<int, Story>, key: Key, moving: int)
    ensures var rows := Rows(stories, key, moving);
            Spread(ScopeOf(Renumbered(stories, rows), key) - {moving}, GAP)
  {
    RowsInScope(stories, key, moving);
    RenumberedKeepsOrder(stories, key, moving);
    var rows := Rows(stories, key, moving);
    var m := ScopeOf(Renumbered(stories, rows), key) - {moving};
    forall a, b | a in m && b in m && a != b
      ensures m[a] - m[b] >= GAP as real || m[b] - m[a] >= GAP as real
    {
      assert a in rows && b in rows;
      var i :| 0 <= i < |rows| && rows[i] == a;
      var j :| 0 <= j < |rows| && rows[j] == b;
      RenumberedAt(stories, rows, i);
      RenumberedAt(stories, rows, j);
      assert i < j ==> i * GAP + GAP <= j * GAP;
      assert j < i ==> j * GAP + GAP <= i * GAP;
    }
  }

  /** A midpoint keeps half of the spread, at least 1. */
  lemma SlotSpread(stories: map<int, Story>, m: Scope, rows: seq<int>, k: nat, id: int, pos: int, g: int, h: int)
    requires Displays(m, rows) && k <= |rows| && id !in m && Spread(m, g)
    requires forall i | 0 <= i < |rows| :: rows[i] in stories && rows[i] in m && m[rows[i]] == stories[rows[i]].position as real
    requires Slot(stories, rows, k) == Some(pos)
    requires 1 <= h <= g && h <= GAP && (2 * h <= g || h == 1)
    ensures Spread(m[id := pos as real], h)
  {
    NeighbourGap(stories, rows, k, m, g);
    BetweenHalves(PositionAt(stories, rows, k - 1), PositionAt(stories, rows, k));
    SpreadShrinks(m, m, g, h);
    SpreadInsert(m, rows, k, id, pos as real, h);
  }

  /** The placements a section can take before its next rebalance, counted down. */
  function Since(since: nat, rebalanced: bool): nat {
    if rebalanced then 1 else if since < 16 then since + 1 else 16
  }

  lemma HalfRoom(since: nat)
    requires since <= 16
    ensures var g, h := Pow2(16 - since), Pow2(16 - Since(since, false));
            1 <= h <= g <= GAP && (2 * h <= g || h == 1) && (g < 2 ==> since == 16)
    ensures Pow2(16 - Since(since, true)) == GAP / 2
  {
    GapIsPow2();
    Pow2Grows(16 - since, 16);
  }

  /** A section is rebalanced only when it took sixteen placements since the last time. */
  lemma RebalanceIsDue(stories: map<int, Story>, key: Key, id: int, w: Where, since: nat)
    requires since <= 16 && Spread(ScopeOf(stories, key), Pow2(16 - since))
    requires Place(stories, key, id, w).Ok? && Place(stories, key, id, w).value.rebalanced
    ensures since == 16
  {
    var rows := Rows(stories, key, id);
    var k := IndexFor(rows, w).value;
    var m := ScopeOf(stories, key) - {id};
    RowsInScope(stories, key, id);
    SpreadShrinks(ScopeOf(stories, key), m, Pow2(16 - since), Pow2(16 - since));
    forall i | 0 <= i < |rows| ensures rows[i] in m {
      DisplayMember(m, rows, i);
    }
    NeighbourGap(stories, rows, k, m, Pow2(16 - since));
    HalfRoom(since);
  }

  /** The spread a placement guarantees, after a rebalance whatever came before. */
  lemma PlaceSpread(stories: map<int, Story>, key: Key, id: int, w: Where, st: Story, since: nat)
    requires Place(stories, key, id, w).Ok? && InScope(st, key) && since <= 16
    requires st.position == Place(stories, key, id, w).value.position
    requires Place(stories, key, id, w).value.rebalanced || Spread(ScopeOf(stories, key), Pow2(16 - since))
    ensures var p := Place(stories, key, id, w).value;
            Spread(ScopeOf(p.stories[id := st], key), Pow2(16 - Since(since, p.rebalanced)))
  {
    var p := Place(stories, key, id, w).value;
    HalfRoom(since);
    var g, h := if p.rebalanced then GAP else Pow2(16 - since), Pow2(16 - Since(since, p.rebalanced));
    if p.rebalanced {
      RenumberedSpread(stories, key, id);
    } else {
      SpreadShrinks(ScopeOf(stories, key), ScopeOf(stories, key) - {id}, g, g);
    }
    PlacedSpread(stories, key, id, w, st, g, h);
  }

  /** A placement among rows `g` apart leaves them half of that apart, at least 1. */
  lemma PlacedSpread(stories: map<int, Story>, key: Key, id: int, w: Where, st: Story, g: int, h: int)
    requires Place(stories, key, id, w).Ok? && InScope(st, key)
    requires st.position == Place(stories, key, id, w).value.position
    requires Spread(ScopeOf(Place(stories, key, id, w).value.stories, key) - {id}, g)
    requires 1 <= h <= g && h <= GAP && (2 * h <= g || h == 1)
    ensures Spread(ScopeOf(Place(stories, key, id, w).value.stories[id := st], key), h)
  {
    var rows, p := Rows(stories, key, id), Place(stories, key, id, w).value;
    var m := ScopeOf(p.stories, key) - {id};
    PlaceCorrect(stories, key, id, w);
    RowsInScope(stories, key, id);
    forall i | 0 <= i < |rows| ensures rows[i] in m && m[rows[i]] == p.stories[rows[i]].position as real {
      DisplayMember(m, rows, i);
    }
    SlotSpread(p.stories, m, rows, IndexFor(rows, w).value, id, p.position, g, h);
    StoredScope(p.stories, key, id, st);
  }

  lemma {:induction false} Pow2Grows(a: nat, b: nat)
    requires a <= b
    ensures Pow2(a) <= Pow2(b)
    decreases b
  {
    if a < b { Pow2Grows(a, b - 1); }
  }

  lemma NeighbourGap(stories: map<int, Story>, rows: seq<int>, k: nat, m: Scope, g: int)
    requires Displays(m, rows) && Spread(m, g)
    requires forall i | 0 <= i < |rows| :: rows[i] in stories && rows[i] in m && m[rows[i]] == stories[rows[i]].position as real
    ensures 0 < k < |rows| ==> stories[rows[k]].position - stories[rows[k - 1]].position >= g
  {
    if 0 < k < |rows| {
      assert Before(m, rows[k - 1], rows[k]);
    }
  }
}

/**
 * The per-app ranking engine of the projects service. Every project holds an
 * integer rank in each app; the engine allocates ranks for a new project,
 * shifts the ranks between a project's old and new slot when it moves, and
 * closes the gap a deleted project leaves, committing each operation's
 * writes in one batch.
 */
module ProjectsOrder {
  import opened Domain
  import opened DocumentStore

  function Rank(p: Project, app: App): int {
    p.order.Get(app)
  }

  /** `p` with its rank in `app` replaced and everything else kept. */
  function Moved(p: Project, app: App, rank: int): Project {
    p.(order := p.order.Set(app, rank))
  }

  /** The ids of the listed projects. */
  function IdsOf(ps: seq<Project>): set<string> {
    set p | p in ps :: p.id
  }

  /** The ids of a list are those of its prefix plus that of its last element. */
  lemma IdsOfSnoc(ps: seq<Project>)
    requires ps != []
    ensures IdsOf(ps) == IdsOf(ps[..|ps| - 1]) + {ps[|ps| - 1].id}
  {
    var init := ps[..|ps| - 1];
    assert ps == init + [ps[|ps| - 1]];
    forall k | k in IdsOf(ps)
      ensures k in IdsOf(init) + {ps[|ps| - 1].id}
    {
      var q :| q in ps && q.id == k;
      if q != ps[|ps| - 1] {
        assert q in init;
      }
    }
  }

  // ---------------------------------------------------------------------
  // Rank allocation
  // ---------------------------------------------------------------------

  /** `Math.max(...ranks, 0)`: the largest rank in `app`, and 0 when none is larger. */
  function MaxRank(ps: seq<Project>, app: App): (m: int)
    ensures m >= 0
    ensures forall i :: 0 <= i < |ps| ==> Rank(ps[i], app) <= m
    ensures m == 0 || exists i :: 0 <= i < |ps| && Rank(ps[i], app) == m
    decreases |ps|
  {
    if ps == [] then 0
    else
      var rest := MaxRank(ps[1..], app);
      assert rest != 0 ==> exists i :: 1 <= i < |ps| && Rank(ps[i], app) == rest by {
        if rest != 0 {
          var j :| 0 <= j < |ps[1..]| && Rank(ps[1..][j], app) == rest;
          assert Rank(ps[j + 1], app) == rest;
        }
      }
      if Rank(ps[0], app) > rest then Rank(ps[0], app) else rest
  }

  /** `o` is one above the highest rank of `docs` in every app, or 1 where every rank is below 1. */
  ghost predicate IsNextOrder(o: Order, docs: map<string, Project>) {
    forall app: App ::
      && o.Get(app) >= 1
      && (forall k :: k in docs ==> Rank(docs[k], app) < o.Get(app))
      && (o.Get(app) == 1 || exists k :: k in docs && Rank(docs[k], app) == o.Get(app) - 1)
  }

  /** getHighestOrder: the ranks a new project is given. */
  function HighestOrder(all: seq<Project>): (o: Order)
    ensures all == [] ==> o == Order(1, 1)
    ensures forall app: App :: o.Get(app) >= 1
    ensures forall app: App, i :: 0 <= i < |all| ==> Rank(all[i], app) < o.Get(app)
    ensures forall app: App :: o.Get(app) == 1 || exists i :: 0 <= i < |all| && Rank(all[i], app) == o.Get(app) - 1
  {
    Order(MaxRank(all, Pedl) + 1, MaxRank(all, Cofcof) + 1)
  }

  /** On a snapshot of the collection, the allocated ranks are the next ranks of the whole collection. */
  lemma HighestOrderIsNext(all: seq<Project>, docs: map<string, Project>)
    requires IsSnapshot(all, docs)
    ensures IsNextOrder(HighestOrder(all), docs)
  {
    var o := HighestOrder(all);
    forall app: App
      ensures o.Get(app) == 1 || exists k :: k in docs && Rank(docs[k], app) == o.Get(app) - 1
    {
      if o.Get(app) != 1 {
        var i :| 0 <= i < |all| && Rank(all[i], app) == o.Get(app) - 1;
        assert all[i].id in docs && Rank(docs[all[i].id], app) == o.Get(app) - 1;
      }
    }
    forall app: App, k | k in docs
      ensures Rank(docs[k], app) < o.Get(app)
    {
      var i :| 0 <= i < |all| && all[i] == docs[k];
    }
  }

  /** The next ranks are determined by the collection: the order of the snapshot does not matter. */
  lemma NextOrderUnique(o1: Order, o2: Order, docs: map<string, Project>)
    requires IsNextOrder(o1, docs) && IsNextOrder(o2, docs)
    ensures o1 == o2
  {
    forall app: App
      ensures o1.Get(app) == o2.Get(app)
    {
      NextRankLeq(o1, o2, docs, app);
      NextRankLeq(o2, o1, docs, app);
    }
    assert o1.Get(Pedl) == o2.Get(Pedl) && o1.Get(Cofcof) == o2.Get(Cofcof);
  }

  lemma NextRankLeq(o1: Order, o2: Order, docs: map<string, Project>, app: App)
    requires IsNextOrder(o1, docs) && IsNextOrder(o2, docs)
    ensures o2.Get(app) <= o1.Get(app)
  {
    if o2.Get(app) != 1 {
      var k :| k in docs && Rank(docs[k], app) == o2.Get(app) - 1;
      assert Rank(docs[k], app) < o1.Get(app);
    }
  }

  // ---------------------------------------------------------------------
  // Density
  // ---------------------------------------------------------------------

  /**
   * The ranks of `app` lie in 1..N for N projects and no two projects share
   * one: for N projects, exactly the ranks 1, 2, ..., N.
   */
  ghost predicate Dense(docs: map<string, Project>, app: App) {
    && (forall k :: k in docs ==> 1 <= Rank(docs[k], app) <= |docs|)
    && (forall k1, k2 :: k1 in docs && k2 in docs && k1 != k2 ==> Rank(docs[k1], app) != Rank(docs[k2], app))
  }

  /** Adding a project with the allocated ranks keeps every app's ranks dense. */
  lemma CreatePreservesDensity(docs: map<string, Project>, o: Order, p: Project, app: App)
    requires IsNextOrder(o, docs) && p.id !in docs && p.order == o
    requires Dense(docs, app)
    ensures Dense(docs[p.id := p], app)
  {
    var docs' := docs[p.id := p];
    assert docs'.Keys == docs.Keys + {p.id};
    assert |docs'| == |docs| + 1;
    var top := o.Get(app);
    assert top <= |docs| + 1 by {
      if top != 1 {
        var k :| k in docs && Rank(docs[k], app) == top - 1;
      }
    }
    forall k | k in docs'
      ensures 1 <= Rank(docs'[k], app) <= |docs'|
    {
      if k != p.id {
        assert docs'[k] == docs[k];
      }
    }
    forall k1, k2 | k1 in docs' && k2 in docs' && k1 != k2
      ensures Rank(docs'[k1], app) != Rank(docs'[k2], app)
    {
      if k1 != p.id && k2 != p.id {
        assert docs'[k1] == docs[k1] && docs'[k2] == docs[k2];
      } else if k1 == p.id {
        assert Rank(docs[k2], app) < top;
      } else {
        assert Rank(docs[k1], app) < top;
      }
    }
  }

  // ---------------------------------------------------------------------
  // Rank shifting (updateOrder)
  // ---------------------------------------------------------------------

  /** `allProjects.find(p => p.id === id)`: the first listed project with that id. */
  function FindProject(ps: seq<Project>, id: string): (r: Option<Project>)
    ensures r.Some? ==> r.value in ps && r.value.id == id
    ensures r.None? <==> forall i :: 0 <= i < |ps| ==> ps[i].id != id
  {
    if ps == [] then None
    else if ps[0].id == id then Some(ps[0])
    else FindProject(ps[1..], id)
  }

  /** Each project is ranked at or above the one before it. */
  predicate SortedByRank(s: seq<Project>, app: App) {
    forall i :: 0 < i < |s| ==> Rank(s[i - 1], app) <= Rank(s[i], app)
  }

  /** Inserts `p` before the first project ranked at or above it, which keeps the sort stable. */
  function InsertByRank(p: Project, s: seq<Project>, app: App): (r: seq<Project>)
    ensures multiset(r) == multiset(s) + multiset{p}
    ensures r[0] == p || r[0] == s[0]
    decreases |s|
  {
    if s == [] || Rank(p, app) <= Rank(s[0], app) then [p] + s
    else
      var t := InsertByRank(p, s[1..], app);
      assert s == [s[0]] + s[1..];
      [s[0]] + t
  }

  /** Inserting into a sorted list gives a sorted list. */
  lemma {:induction false} InsertByRankSorted(p: Project, s: seq<Project>, app: App)
    requires SortedByRank(s, app)
    ensures SortedByRank(InsertByRank(p, s, app), app)
    decreases |s|
  {
    var r := InsertByRank(p, s, app);
    if s == [] || Rank(p, app) <= Rank(s[0], app) {
      assert r == [p] + s;
      forall i | 1 < i < |r|
        ensures Rank(r[i - 1], app) <= Rank(r[i], app)
      {
        assert r[i - 1] == s[i - 2] && r[i] == s[i - 1];
      }
    } else {
      var t := InsertByRank(p, s[1..], app);
      InsertByRankSorted(p, s[1..], app);
      assert r == [s[0]] + t;
      assert Rank(s[0], app) <= Rank(t[0], app) by {
        if |s| > 1 {
          assert s[1] == s[1..][0] && Rank(s[0], app) <= Rank(s[1], app);
        }
      }
      forall i | 1 < i < |r|
        ensures Rank(r[i - 1], app) <= Rank(r[i], app)
      {
        assert r[i - 1] == t[i - 2] && r[i] == t[i - 1];
      }
    }
  }

  function SortByRank(s: seq<Project>, app: App): (r: seq<Project>)
    ensures SortedByRank(r, app)
    ensures multiset(r) == multiset(s)
    decreases |s|
  {
    if s == [] then []
    else
      assert s == [s[0]] + s[1..];
      InsertByRankSorted(s[0], SortByRank(s[1..], app), app);
      InsertByRank(s[0], SortByRank(s[1..], app), app)
  }

  /** The projects whose rank in `app` is truthy, that is, not 0. */
  function RankedIn(ps: seq<Project>, app: App): (r: seq<Project>)
    ensures forall p :: p in r <==> p in ps && Rank(p, app) != 0
  {
    if ps == [] then []
    else (if Rank(ps[0], app) != 0 then [ps[0]] else []) + RankedIn(ps[1..], app)
  }

  /** getSortedProjects: the projects ranked in `app`, in increasing rank. */
  function SortedProjects(ps: seq<Project>, app: App): (r: seq<Project>)
    ensures SortedByRank(r, app)
    ensures multiset(r) == multiset(RankedIn(ps, app))
    ensures forall p :: p in r <==> p in ps && Rank(p, app) != 0
  {
    var r := SortByRank(RankedIn(ps, app), app);
    assert forall p :: p in r <==> p in multiset(RankedIn(ps, app));
    r
  }

  /** The ranks that updateProjectsOrder rewrites: those strictly between the old and the new slot, the new slot included. */
  predicate InSpan(rank: int, current: int, target: int) {
    || (target > current && rank <= target && rank > current)
    || (target < current && rank >= target && rank < current)
  }

  /** One step towards the vacated slot. */
  function ShiftedRank(rank: int, current: int, target: int): int {
    rank + (if target < current then 1 else -1)
  }

  /** The write updateProjectsOrder adds for one listed project: none outside the span. */
  function ShiftStep(p: Project, current: int, target: int, app: App): seq<Write> {
    if InSpan(Rank(p, app), current, target)
    then [SetRank(p.id, app, ShiftedRank(Rank(p, app), current, target))]
    else []
  }

  /** The writes the loop of updateProjectsOrder adds, in order. */
  function ShiftWrites(ps: seq<Project>, current: int, target: int, app: App): seq<Write>
    decreases |ps|
  {
    if ps == [] then []
    else ShiftWrites(ps[..|ps| - 1], current, target, app) + ShiftStep(ps[|ps| - 1], current, target, app)
  }

  /** The documents after the projects named in `ids` were shifted. */
  function ShiftSome(docs: map<string, Project>, ids: set<string>, current: int, target: int, app: App): map<string, Project> {
    map k | k in docs ::
      if k in ids && InSpan(Rank(docs[k], app), current, target)
      then Moved(docs[k], app, ShiftedRank(Rank(docs[k], app), current, target))
      else docs[k]
  }

  /**
   * What moving project `id` to rank `target` in `app` does to the
   * collection: the project takes `target`; every other project ranked in
   * `app` whose rank lies in the span takes one step towards the vacated
   * slot; nothing else changes.
   */
  function ShiftSpec(docs: map<string, Project>, id: string, target: int, app: App): map<string, Project>
    requires id in docs
  {
    var current := Rank(docs[id], app);
    map k | k in docs ::
      if k == id then Moved(docs[k], app, target)
      else if Rank(docs[k], app) != 0 && InSpan(Rank(docs[k], app), current, target)
      then Moved(docs[k], app, ShiftedRank(Rank(docs[k], app), current, target))
      else docs[k]
  }

  /** Rewriting one more listed project extends the shifted set by its id, even when it was already shifted. */
  lemma ShiftSomeStep(docs: map<string, Project>, ids: set<string>, p: Project, current: int, target: int, app: App)
    requires p.id in docs && docs[p.id] == p
    ensures Targets(ShiftStep(p, current, target, app), docs)
    ensures ApplyWrites(ShiftSome(docs, ids, current, target, app), ShiftStep(p, current, target, app))
            == ShiftSome(docs, ids + {p.id}, current, target, app)
  {
    var mid := ShiftSome(docs, ids, current, target, app);
    var goal := ShiftSome(docs, ids + {p.id}, current, target, app);
    var step := ShiftStep(p, current, target, app);
    if step == [] {
      assert ApplyWrites(mid, step) == mid;
      forall k | k in docs
        ensures mid[k] == goal[k]
      {
      }
    } else {
      assert step[..0] == [];
      var got := ApplyWrite(mid, step[0]);
      assert ApplyWrites(mid, step) == got;
      var moved := Moved(p, app, ShiftedRank(Rank(p, app), current, target));
      assert got == mid[p.id := Moved(mid[p.id], app, ShiftedRank(Rank(p, app), current, target))];
      assert Moved(mid[p.id], app, ShiftedRank(Rank(p, app), current, target)) == moved;
      forall k | k in docs
        ensures got[k] == goal[k]
      {
      }
    }
  }

  lemma ShiftSomeNone(docs: map<string, Project>, current: int, target: int, app: App)
    ensures ShiftSome(docs, {}, current, target, app) == docs
  {
  }

  lemma {:induction false} ApplyShiftWrites(docs: map<string, Project>, ps: seq<Project>, current: int, target: int, app: App)
    requires forall i :: 0 <= i < |ps| ==> ps[i].id in docs && docs[ps[i].id] == ps[i]
    ensures Targets(ShiftWrites(ps, current, target, app), docs)
    ensures ApplyWrites(docs, ShiftWrites(ps, current, target, app)) == ShiftSome(docs, IdsOf(ps), current, target, app)
    decreases |ps|
  {
    if ps == [] {
      assert IdsOf(ps) == {};
      ShiftSomeNone(docs, current, target, app);
    } else {
      var init, p := ps[..|ps| - 1], ps[|ps| - 1];
      var before := ShiftWrites(init, current, target, app);
      var step := ShiftStep(p, current, target, app);
      assert ShiftWrites(ps, current, target, app) == before + step;
      ApplyShiftWrites(docs, init, current, target, app);
      ShiftSomeStep(docs, IdsOf(init), p, current, target, app);
      TargetsAppend(before, step, docs);
      calc {
        ApplyWrites(docs, before + step);
        { ApplyWritesAppend(docs, before, step); }
        ApplyWrites(ApplyWrites(docs, before), step);
        ApplyWrites(ShiftSome(docs, IdsOf(init), current, target, app), step);
        ShiftSome(docs, IdsOf(init) + {p.id}, current, target, app);
        { IdsOfSnoc(ps); }
        ShiftSome(docs, IdsOf(ps), current, target, app);
      }
    }
  }

  /** Writing the moved project's own rank after shifting every ranked project completes ShiftSpec. */
  lemma FinalWriteMeetsSpec(docs: map<string, Project>, ids: set<string>, id: string, target: int, app: App)
    requires id in docs
    requires forall k :: k in docs ==> (k in ids <==> Rank(docs[k], app) != 0)
    ensures var mid := ShiftSome(docs, ids, Rank(docs[id], app), target, app);
            ApplyWrite(mid, SetRank(id, app, target)) == ShiftSpec(docs, id, target, app)
  {
    var current := Rank(docs[id], app);
    var mid := ShiftSome(docs, ids, current, target, app);
    assert !InSpan(current, current, target);
    assert mid[id] == docs[id];
    var got := ApplyWrite(mid, SetRank(id, app, target));
    var spec := ShiftSpec(docs, id, target, app);
    assert got == mid[id := Moved(docs[id], app, target)];
    forall k | k in docs
      ensures got[k] == spec[k]
    {
    }
  }

  /** getSortedProjects over a snapshot lists exactly the stored projects ranked in `app`. */
  lemma SortedListsRanked(docs: map<string, Project>, all: seq<Project>, app: App)
    requires IsSnapshot(all, docs)
    ensures var inApp := SortedProjects(all, app);
            && (forall i :: 0 <= i < |inApp| ==> inApp[i].id in docs && docs[inApp[i].id] == inApp[i] && Rank(inApp[i], app) != 0)
            && (forall k :: k in docs && Rank(docs[k], app) != 0 ==> docs[k] in inApp)
  {
    var inApp := SortedProjects(all, app);
    forall k | k in docs && Rank(docs[k], app) != 0
      ensures docs[k] in inApp
    {
      assert docs[k] in all;
    }
    forall i | 0 <= i < |inApp|
      ensures inApp[i].id in docs && docs[inApp[i].id] == inApp[i] && Rank(inApp[i], app) != 0
    {
      assert inApp[i] in inApp;
    }
  }

  /** The whole batch of updateOrder: the shifts, then the moved project's own rank. */
  function MoveWrites(inApp: seq<Project>, id: string, current: int, target: int, app: App): seq<Write> {
    ShiftWrites(inApp, current, target, app) + [SetRank(id, app, target)]
  }

  /** A listing of exactly the stored projects ranked in `app` names exactly their ids. */
  lemma IdsOfRanked(docs: map<string, Project>, inApp: seq<Project>, app: App)
    requires forall k :: k in docs ==> docs[k].id == k
    requires forall i :: 0 <= i < |inApp| ==> inApp[i].id in docs && docs[inApp[i].id] == inApp[i] && Rank(inApp[i], app) != 0
    requires forall k :: k in docs && Rank(docs[k], app) != 0 ==> docs[k] in inApp
    ensures forall k :: k in docs ==> (k in IdsOf(inApp) <==> Rank(docs[k], app) != 0)
  {
    forall k | k in docs
      ensures k in IdsOf(inApp) <==> Rank(docs[k], app) != 0
    {
      if Rank(docs[k], app) != 0 {
        assert docs[k] in inApp;
      }
      if k in IdsOf(inApp) {
        var q :| q in inApp && q.id == k;
        var i :| 0 <= i < |inApp| && inApp[i] == q;
      }
    }
  }

  /**
   * The batch updateOrder commits achieves ShiftSpec, given a listing
   * `inApp` of stored projects that holds every project ranked in `app`.
   */
  lemma ShiftBatchMeetsSpec(docs: map<string, Project>, inApp: seq<Project>, id: string, target: int, app: App)
    requires forall k :: k in docs ==> docs[k].id == k
    requires id in docs
    requires forall i :: 0 <= i < |inApp| ==> inApp[i].id in docs && docs[inApp[i].id] == inApp[i] && Rank(inApp[i], app) != 0
    requires forall k :: k in docs && Rank(docs[k], app) != 0 ==> docs[k] in inApp
    ensures Targets(MoveWrites(inApp, id, Rank(docs[id], app), target, app), docs)
    ensures ApplyWrites(docs, MoveWrites(inApp, id, Rank(docs[id], app), target, app)) == ShiftSpec(docs, id, target, app)
  {
    var current := Rank(docs[id], app);
    var before := ShiftWrites(inApp, current, target, app);
    var last := SetRank(id, app, target);
    var ids := IdsOf(inApp);
    var mid := ShiftSome(docs, ids, current, target, app);
    ApplyShiftWrites(docs, inApp, current, target, app);
    assert ApplyWrites(docs, before) == mid;
    ApplyWritesAppend(docs, before, [last]);
    assert [last][..0] == [];
    assert ApplyWrites(docs, before + [last]) == ApplyWrite(mid, last);
    IdsOfRanked(docs, inApp, app);
    FinalWriteMeetsSpec(docs, ids, id, target, app);
    TargetsAppend(before, [last], docs);
  }

  /** The moved project lands exactly on `target`, and keeps its rank in every other app. */
  lemma ShiftLandsOnTarget(docs: map<string, Project>, id: string, target: int, app: App)
    requires id in docs
    ensures var r := ShiftSpec(docs, id, target, app);
            && Rank(r[id], app) == target
            && (forall other: App :: other != app ==> Rank(r[id], other) == Rank(docs[id], other))
  {
  }

  /**
   * Exactly the other projects in the span move one step (down by one when
   * the project moves to a higher slot, up by one when it moves to a lower
   * slot); every other rank and every other field stays as it was.
   */
  lemma ShiftExactSpan(docs: map<string, Project>, id: string, target: int, app: App, k: string)
    requires id in docs && k in docs && k != id && Rank(docs[k], app) != 0
    ensures var current, r := Rank(docs[id], app), ShiftSpec(docs, id, target, app);
            && (target > current && current < Rank(docs[k], app) <= target <==> Rank(r[k], app) == Rank(docs[k], app) - 1)
            && (target < current && target <= Rank(docs[k], app) < current <==> Rank(r[k], app) == Rank(docs[k], app) + 1)
            && (!InSpan(Rank(docs[k], app), current, target) <==> r[k] == docs[k])
  {
  }

  /** Only the rank in the chosen app is written: every project keeps its other fields and its rank in the other app. */
  lemma ShiftTouchesOnlyOneApp(docs: map<string, Project>, id: string, target: int, app: App, other: App, k: string)
    requires id in docs && k in docs && other != app
    ensures var r := ShiftSpec(docs, id, target, app);
            && k in r
            && Rank(r[k], other) == Rank(docs[k], other)
            && r[k] == docs[k].(order := r[k].order)
  {
  }

  /** Where a project ranked `rank` ends up when the project at `current` moves to `target`. */
  function SlotAfterMove(rank: int, current: int, target: int): int {
    if rank == current then target
    else if InSpan(rank, current, target) then ShiftedRank(rank, current, target)
    else rank
  }

  /** The move maps the slots 1..n into 1..n ... */
  lemma SlotAfterMoveInRange(rank: int, current: int, target: int, n: int)
    requires 1 <= rank <= n && 1 <= current <= n && 1 <= target <= n
    ensures 1 <= SlotAfterMove(rank, current, target) <= n
  {
  }

  /** ... and never sends two slots to the same one. */
  lemma SlotAfterMoveInjective(r1: int, r2: int, current: int, target: int)
    requires r1 != r2
    ensures SlotAfterMove(r1, current, target) != SlotAfterMove(r2, current, target)
  {
  }

  /** With dense ranks, every project of `app` goes to SlotAfterMove of its rank. */
  lemma ShiftRankAt(docs: map<string, Project>, id: string, target: int, app: App, k: string)
    requires id in docs && k in docs && Dense(docs, app)
    ensures Rank(ShiftSpec(docs, id, target, app)[k], app)
            == SlotAfterMove(Rank(docs[k], app), Rank(docs[id], app), target)
  {
    if k != id {
      assert Rank(docs[k], app) != Rank(docs[id], app);
    }
  }

  /** With dense ranks and a target in 1..N, the ranks stay dense; the other app's ranks are untouched. */
  lemma ShiftPreservesDensity(docs: map<string, Project>, id: string, target: int, app: App, other: App)
    requires id in docs && Dense(docs, app) && 1 <= target <= |docs|
    requires Dense(docs, other)
    ensures Dense(ShiftSpec(docs, id, target, app), app)
    ensures Dense(ShiftSpec(docs, id, target, app), other)
  {
    var r := ShiftSpec(docs, id, target, app);
    var current := Rank(docs[id], app);
    assert r.Keys == docs.Keys;
    assert |r| == |docs|;
    forall k | k in r
      ensures 1 <= Rank(r[k], app) <= |r|
    {
      ShiftRankAt(docs, id, target, app, k);
      SlotAfterMoveInRange(Rank(docs[k], app), current, target, |docs|);
    }
    forall k1, k2 | k1 in r && k2 in r && k1 != k2
      ensures Rank(r[k1], app) != Rank(r[k2], app)
    {
      ShiftRankAt(docs, id, target, app, k1);
      ShiftRankAt(docs, id, target, app, k2);
      SlotAfterMoveInjective(Rank(docs[k1], app), Rank(docs[k2], app), current, target);
    }
    if other != app {
      forall k | k in docs
        ensures Rank(r[k], other) == Rank(docs[k], other)
      {
        ShiftTouchesOnlyOneApp(docs, id, target, app, other, k);
      }
    }
  }

  /** Slot `target` is opened by moving every rank at or above it up by one. */
  function OpenSlot(rank: int, target: int): int {
    if rank >= target then rank + 1 else rank
  }

  /**
   * On dense ranks, moving a project is the same as removing it from its
   * slot (as a delete compacts the ranks) and reinserting it at `target`.
   */
  lemma ShiftIsRemoveThenInsert(docs: map<string, Project>, id: string, target: int, app: App, k: string)
    requires id in docs && k in docs && k != id && Dense(docs, app)
    ensures var current := Rank(docs[id], app);
            Rank(ShiftSpec(docs, id, target, app)[k], app) == OpenSlot(CompactRank(Rank(docs[k], app), current), target)
  {
  }

  /** A project built from the given id and ranks, to state concrete scenarios. */
  function Sample(id: string, o: Order): Project {
    Project(id, id, "", "", [], "", None, Timestamp(0), Timestamp(0), None, o, None, None, None)
  }

  /**
   * Out-of-range targets are accepted: moving the only project to rank 2
   * lands it on 2, and the ranks are no longer dense.
   */
  lemma ShiftOutOfRangeBreaksDensity()
    ensures var docs := map["p" := Sample("p", Order(1, 1))];
            var r := ShiftSpec(docs, "p", 2, Pedl);
            r["p"].order == Order(2, 1) && !Dense(r, Pedl)
  {
    var docs := map["p" := Sample("p", Order(1, 1))];
    var r := ShiftSpec(docs, "p", 2, Pedl);
    assert |r| == 1 by {
      assert r.Keys == {"p"};
    }
  }

  // ---------------------------------------------------------------------
  // Compaction after a delete (reorderAfterDelete)
  // ---------------------------------------------------------------------

  function CompactRank(rank: int, deleted: int): int {
    if rank > deleted then rank - 1 else rank
  }

  /** The `updatedOrder` of reorderProjects: each app is compacted against its own deleted rank. */
  function CompactOrder(o: Order, deleted: Order): (r: Order)
    ensures forall app: App :: r.Get(app) == CompactRank(o.Get(app), deleted.Get(app))
  {
    Order(CompactRank(o.pedl, deleted.pedl), CompactRank(o.cofcof, deleted.cofcof))
  }

  /** The writes the loop of reorderProjects adds, in order. */
  function CompactWrites(ps: seq<Project>, deleted: Order): seq<Write>
    decreases |ps|
  {
    if ps == [] then []
    else
      var p := ps[|ps| - 1];
      CompactWrites(ps[..|ps| - 1], deleted) + [SetOrder(p.id, CompactOrder(p.order, deleted))]
  }

  function Compacted(p: Project, deleted: Order): Project {
    p.(order := CompactOrder(p.order, deleted))
  }

  function CompactSome(docs: map<string, Project>, ids: set<string>, deleted: Order): map<string, Project> {
    map k | k in docs :: if k in ids then Compacted(docs[k], deleted) else docs[k]
  }

  /** What compaction does to the remaining projects: every rank above the deleted one, in each app, drops by one. */
  function CompactSpec(docs: map<string, Project>, deleted: Order): map<string, Project> {
    map k | k in docs :: Compacted(docs[k], deleted)
  }

  lemma CompactSomeNone(docs: map<string, Project>, deleted: Order)
    ensures CompactSome(docs, {}, deleted) == docs
  {
  }

  /** Writing one more listed project's compacted order extends the compacted set by its id, even when it was already compacted. */
  lemma CompactSomeStep(docs: map<string, Project>, ids: set<string>, p: Project, deleted: Order)
    requires p.id in docs && docs[p.id] == p
    ensures ApplyWrites(CompactSome(docs, ids, deleted), [SetOrder(p.id, CompactOrder(p.order, deleted))])
            == CompactSome(docs, ids + {p.id}, deleted)
  {
    var mid := CompactSome(docs, ids, deleted);
    var goal := CompactSome(docs, ids + {p.id}, deleted);
    var w := SetOrder(p.id, CompactOrder(p.order, deleted));
    assert [w][..0] == [];
    assert ApplyWrites(mid, [w]) == ApplyWrite(mid, w);
    var got := ApplyWrite(mid, w);
    assert got == mid[p.id := mid[p.id].(order := CompactOrder(p.order, deleted))];
    assert mid[p.id].(order := CompactOrder(p.order, deleted)) == Compacted(p, deleted);
    forall k | k in docs
      ensures got[k] == goal[k]
    {
    }
  }

  lemma {:induction false} ApplyCompactWrites(docs: map<string, Project>, ps: seq<Project>, deleted: Order)
    requires forall i :: 0 <= i < |ps| ==> ps[i].id in docs && docs[ps[i].id] == ps[i]
    ensures Targets(CompactWrites(ps, deleted), docs)
    ensures ApplyWrites(docs, CompactWrites(ps, deleted)) == CompactSome(docs, IdsOf(ps), deleted)
    decreases |ps|
  {
    if ps == [] {
      assert IdsOf(ps) == {};
      CompactSomeNone(docs, deleted);
    } else {
      var init, p := ps[..|ps| - 1], ps[|ps| - 1];
      var before := CompactWrites(init, deleted);
      var step := [SetOrder(p.id, CompactOrder(p.order, deleted))];
      assert CompactWrites(ps, deleted) == before + step;
      ApplyCompactWrites(docs, init, deleted);
      CompactSomeStep(docs, IdsOf(init), p, deleted);
      TargetsAppend(before, step, docs);
      calc {
        ApplyWrites(docs, before + step);
        { ApplyWritesAppend(docs, before, step); }
        ApplyWrites(ApplyWrites(docs, before), step);
        ApplyWrites(CompactSome(docs, IdsOf(init), deleted), step);
        CompactSome(docs, IdsOf(init) + {p.id}, deleted);
        { IdsOfSnoc(ps); }
        CompactSome(docs, IdsOf(ps), deleted);
      }
    }
  }

  /**
   * A project that both queries return is written twice with the same
   * compacted order: committing the concatenated listing is committing
   * each project once.
   */
  lemma RepeatedCandidatesHarmless(docs: map<string, Project>, ps: seq<Project>, qs: seq<Project>, deleted: Order)
    requires forall i :: 0 <= i < |ps| ==> ps[i].id in docs && docs[ps[i].id] == ps[i]
    requires forall i :: 0 <= i < |qs| ==> qs[i].id in docs && docs[qs[i].id] == qs[i]
    requires forall q :: q in qs ==> q in ps
    ensures ApplyWrites(docs, CompactWrites(ps + qs, deleted)) == ApplyWrites(docs, CompactWrites(ps, deleted))
  {
    var all := ps + qs;
    StoredConcat(docs, ps, qs);
    ApplyCompactWrites(docs, all, deleted);
    ApplyCompactWrites(docs, ps, deleted);
    IdsOfCovered(ps, qs);
  }

  lemma StoredConcat(docs: map<string, Project>, ps: seq<Project>, qs: seq<Project>)
    requires forall i :: 0 <= i < |ps| ==> ps[i].id in docs && docs[ps[i].id] == ps[i]
    requires forall i :: 0 <= i < |qs| ==> qs[i].id in docs && docs[qs[i].id] == qs[i]
    ensures forall i :: 0 <= i < |ps + qs| ==> (ps + qs)[i].id in docs && docs[(ps + qs)[i].id] == (ps + qs)[i]
  {
    forall i | 0 <= i < |ps + qs|
      ensures (ps + qs)[i].id in docs && docs[(ps + qs)[i].id] == (ps + qs)[i]
    {
      if i >= |ps| {
        assert (ps + qs)[i] == qs[i - |ps|];
      }
    }
  }

  lemma IdsOfCovered(ps: seq<Project>, qs: seq<Project>)
    requires forall q :: q in qs ==> q in ps
    ensures IdsOf(ps + qs) == IdsOf(ps)
  {
    forall k | k in IdsOf(ps + qs)
      ensures k in IdsOf(ps)
    {
      var q :| q in ps + qs && q.id == k;
      assert q in ps;
    }
    forall k | k in IdsOf(ps)
      ensures k in IdsOf(ps + qs)
    {
      var q :| q in ps && q.id == k;
      assert q in ps + qs;
    }
  }

  /** Compacting every project whose rank lies above the deleted one in either app is compacting them all. */
  lemma CompactCandidatesSuffice(docs: map<string, Project>, ids: set<string>, deleted: Order)
    requires forall k :: k in docs && (Rank(docs[k], Pedl) > deleted.pedl || Rank(docs[k], Cofcof) > deleted.cofcof) ==> k in ids
    ensures CompactSome(docs, ids, deleted) == CompactSpec(docs, deleted)
  {
    forall k | k in docs && k !in ids
      ensures Compacted(docs[k], deleted) == docs[k]
    {
      assert CompactOrder(docs[k].order, deleted) == docs[k].order;
    }
  }

  /** Each app is compacted on its own: a rank drops by one exactly when it lies above that app's deleted rank. */
  lemma CompactPerApp(docs: map<string, Project>, deleted: Order, app: App, k: string)
    requires k in docs
    ensures var r := CompactSpec(docs, deleted);
            && k in r
            && (Rank(docs[k], app) > deleted.Get(app) ==> Rank(r[k], app) == Rank(docs[k], app) - 1)
            && (Rank(docs[k], app) <= deleted.Get(app) ==> Rank(r[k], app) == Rank(docs[k], app))
            && r[k] == docs[k].(order := r[k].order)
  {
  }

  /** Deleting a project and compacting with its ranks keeps dense ranks dense. */
  lemma DeletePreservesDensity(docs: map<string, Project>, id: string, app: App)
    requires id in docs && Dense(docs, app)
    ensures Dense(CompactSpec(docs - {id}, docs[id].order), app)
  {
    var rest := docs - {id};
    var r := CompactSpec(rest, docs[id].order);
    CompactAfterRemoveSize(docs, id, docs[id].order);
    var d := Rank(docs[id], app);
    forall k | k in r
      ensures 1 <= Rank(r[k], app) <= |r|
    {
      CompactedRankAt(rest, docs[id].order, app, k);
      CompactRankFacts(Rank(docs[k], app), Rank(docs[k], app), d, |docs|);
    }
    forall k1, k2 | k1 in r && k2 in r && k1 != k2
      ensures Rank(r[k1], app) != Rank(r[k2], app)
    {
      CompactedRankAt(rest, docs[id].order, app, k1);
      CompactedRankAt(rest, docs[id].order, app, k2);
      CompactRankFacts(Rank(docs[k1], app), Rank(docs[k2], app), d, |docs|);
    }
  }

  lemma CompactAfterRemoveSize(docs: map<string, Project>, id: string, deleted: Order)
    requires id in docs
    ensures CompactSpec(docs - {id}, deleted).Keys == docs.Keys - {id}
    ensures |CompactSpec(docs - {id}, deleted)| == |docs| - 1
  {
    var rest := docs - {id};
    assert rest.Keys == docs.Keys - {id};
    assert |rest| == |docs| - 1;
    assert CompactSpec(rest, deleted).Keys == rest.Keys;
  }

  lemma CompactedRankAt(docs: map<string, Project>, deleted: Order, app: App, k: string)
    requires k in docs
    ensures k in CompactSpec(docs, deleted)
    ensures Rank(CompactSpec(docs, deleted)[k], app) == CompactRank(Rank(docs[k], app), deleted.Get(app))
  {
  }

  /** Closing the gap at `d` maps the other ranks of 1..n into 1..n-1, keeping them apart. */
  lemma CompactRankFacts(x: int, y: int, d: int, n: int)
    requires 1 <= x <= n && 1 <= y <= n && x != d && y != d && 1 <= d <= n
    ensures 1 <= CompactRank(x, d) <= n - 1
    ensures x != y ==> CompactRank(x, d) != CompactRank(y, d)
  {
  }

  /** Deleting the lowest-ranked of three projects leaves ranks (1, 1) and (2, 2). */
  lemma DeleteLowestOfThree()
    ensures var docs := map["a" := Sample("a", Order(1, 1)), "b" := Sample("b", Order(2, 2)), "c" := Sample("c", Order(3, 3))];
            var r := CompactSpec(docs - {"a"}, docs["a"].order);
            r.Keys == {"b", "c"} && r["b"].order == Order(1, 1) && r["c"].order == Order(2, 2)
  {
  }

  // ---------------------------------------------------------------------
  // The service
  // ---------------------------------------------------------------------

  class ProjectsOrderService {
    const store: Store

    constructor (store: Store)
      ensures this.store == store
    {
      this.store := store;
    }

    /** assignInitialOrder: the mapped project with the ranks the allocator chose. */
    method AssignInitialOrder(dto: MappedProject) returns (r: NewProject)
      requires store.Valid()
      ensures r.fields == dto
      ensures IsNextOrder(r.order, store.docs)
    {
      var all := store.FindAll();
      HighestOrderIsNext(all, store.docs);
      r := NewProject(dto, HighestOrder(all));
    }

    /** getProjectsToReorder: the projects above the deleted rank in either app, from two queries. */
    method GetProjectsToReorder(deleted: Order) returns (ps: seq<Project>)
      requires store.Valid()
      ensures forall i :: 0 <= i < |ps| ==> ps[i].id in store.docs && store.docs[ps[i].id] == ps[i]
      ensures forall k :: k in store.docs && (Rank(store.docs[k], Pedl) > deleted.pedl || Rank(store.docs[k], Cofcof) > deleted.cofcof)
                ==> store.docs[k] in ps
    {
      var abovePedl := store.FindByQuery(RankAbove(Pedl, deleted.pedl));
      var aboveCofcof := store.FindByQuery(RankAbove(Cofcof, deleted.cofcof));
      ps := abovePedl + aboveCofcof;
    }

    /** reorderProjects: one batch with the compacted order of every listed project. */
    method ReorderProjects(ps: seq<Project>, deleted: Order) returns (r: Outcome)
      requires store.Valid()
      requires forall i :: 0 <= i < |ps| ==> ps[i].id in store.docs && store.docs[ps[i].id] == ps[i]
      modifies store
      ensures store.Valid()
      ensures r == Success && store.docs == CompactSome(old(store.docs), IdsOf(ps), deleted)
    {
      var batch := new Batch();
      for i := 0 to |ps|
        invariant store.docs == old(store.docs)
        invariant batch.writes == CompactWrites(ps[..i], deleted)
      {
        assert ps[..i + 1][..i] == ps[..i];
        batch.Update(SetOrder(ps[i].id, CompactOrder(ps[i].order, deleted)));
      }
      assert ps[..|ps|] == ps;
      ApplyCompactWrites(store.docs, ps, deleted);
      r := store.Commit(batch);
    }

    /** reorderAfterDelete: closes the gap the deleted ranks left, in both apps, in one batch. */
    method ReorderAfterDelete(deleted: Order) returns (r: Outcome)
      requires store.Valid()
      modifies store
      ensures store.Valid()
      ensures r == Success && store.docs == CompactSpec(old(store.docs), deleted)
    {
      var candidates := GetProjectsToReorder(deleted);
      forall k | k in store.docs && (Rank(store.docs[k], Pedl) > deleted.pedl || Rank(store.docs[k], Cofcof) > deleted.cofcof)
        ensures k in IdsOf(candidates)
      {
        assert store.docs[k] in candidates;
      }
      CompactCandidatesSuffice(store.docs, IdsOf(candidates), deleted);
      r := ReorderProjects(candidates, deleted);
    }

    /** updateProjectsOrder: adds the shift of every listed project in the span to the batch. */
    method UpdateProjectsOrder(batch: Batch, ps: seq<Project>, current: int, target: int, app: App)
      modifies batch
      ensures batch.writes == old(batch.writes) + ShiftWrites(ps, current, target, app)
    {
      for i := 0 to |ps|
        invariant batch.writes == old(batch.writes) + ShiftWrites(ps[..i], current, target, app)
      {
        assert ps[..i + 1][..i] == ps[..i];
        var rank := Rank(ps[i], app);
        if InSpan(rank, current, target) {
          batch.Update(SetRank(ps[i].id, app, ShiftedRank(rank, current, target)));
        }
      }
      assert ps[..|ps|] == ps;
    }

    /** The second half of updateOrder, once the project is found and moves: the batch and its commit. */
    method CommitMove(all: seq<Project>, id: string, current: int, target: int, app: App) returns (r: Outcome)
      requires store.Valid() && IsSnapshot(all, store.docs)
      requires id in store.docs && current == Rank(store.docs[id], app)
      modifies store
      ensures store.Valid()
      ensures r == Success && store.docs == ShiftSpec(old(store.docs), id, target, app)
    {
      var batch := new Batch();
      var inApp := SortedProjects(all, app);
      ghost var docs := store.docs;
      SortedListsRanked(docs, all, app);
      ShiftBatchMeetsSpec(docs, inApp, id, target, app);
      UpdateProjectsOrder(batch, inApp, current, target, app);
      ghost var shifts := ShiftWrites(inApp, current, target, app);
      assert [] + shifts == shifts;
      assert batch.writes == shifts;
      batch.Update(SetRank(id, app, target));
      assert batch.writes == MoveWrites(inApp, id, current, target, app);
      r := store.Commit(batch);
    }

    /**
     * updateOrder: NotFound for an unknown id and Conflict for the current
     * rank, both before any batch exists; otherwise one batch that realises
     * ShiftSpec.
     */
    method UpdateOrder(id: string, target: int, app: App) returns (r: Outcome)
      requires store.Valid()
      modifies store
      ensures store.Valid()
      ensures id !in old(store.docs) ==> r == Failure(NotFound) && store.docs == old(store.docs)
      ensures id in old(store.docs) && Rank(old(store.docs)[id], app) == target ==>
                r == Failure(Conflict) && store.docs == old(store.docs)
      ensures id in old(store.docs) && Rank(old(store.docs)[id], app) != target ==>
                r == Success && store.docs == ShiftSpec(old(store.docs), id, target, app)
    {
      var all := store.FindAll();
      var found := FindProject(all, id);
      if found.None? {
        return Failure(NotFound);
      }
      var project := found.value;
      assert project == store.docs[id];
      var current := Rank(project, app);
      if current == target {
        return Failure(Conflict);
      }
      // The source also sets the rank on its in-memory copy; nothing reads it afterwards.
      project := Moved(project, app, target);
      r := CommitMove(all, id, current, target, app);
    }
  }
}

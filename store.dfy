/**
 * The document store the services talk to, as an abstract collection of
 * project documents keyed by id: point lookups, whole-collection reads,
 * single-field queries, partial updates, deletes and atomic write batches.
 */
module DocumentStore {
  import opened Domain

  /** The two query shapes the services issue. */
  datatype Query = NameEquals(name: string) | RankAbove(app: App, bound: int)

  predicate Matches(p: Project, q: Query) {
    match q
    case NameEquals(n) => p.name == n
    case RankAbove(app, bound) => p.order.Get(app) > bound
  }

  /** A pending batch write: the whole `order` map, or the single field `order.<app>`. */
  datatype Write = SetOrder(id: string, order: Order) | SetRank(id: string, app: App, rank: int)

  function ApplyWrite(docs: map<string, Project>, w: Write): (r: map<string, Project>)
    ensures r.Keys == docs.Keys
    ensures forall k :: k in r ==> r[k].id == docs[k].id
  {
    if w.id !in docs then docs
    else match w
      case SetOrder(id, o) => docs[id := docs[id].(order := o)]
      case SetRank(id, app, rank) => docs[id := docs[id].(order := docs[id].order.Set(app, rank))]
  }

  /** The documents after applying `ws` in order. */
  function ApplyWrites(docs: map<string, Project>, ws: seq<Write>): (r: map<string, Project>)
    ensures r.Keys == docs.Keys
    ensures forall k :: k in r ==> r[k].id == docs[k].id
    decreases |ws|
  {
    if ws == [] then docs else ApplyWrite(ApplyWrites(docs, ws[..|ws| - 1]), ws[|ws| - 1])
  }

  lemma {:induction false} ApplyWritesAppend(docs: map<string, Project>, ws: seq<Write>, more: seq<Write>)
    ensures ApplyWrites(docs, ws + more) == ApplyWrites(ApplyWrites(docs, ws), more)
    decreases |more|
  {
    if more == [] {
      assert ws + more == ws;
    } else {
      var init := more[..|more| - 1];
      assert (ws + more)[..|ws + more| - 1] == ws + init;
      ApplyWritesAppend(docs, ws, init);
    }
  }

  /** Every write of the batch names a document that exists. */
  predicate Targets(ws: seq<Write>, docs: map<string, Project>) {
    forall i :: 0 <= i < |ws| ==> ws[i].id in docs
  }

  lemma TargetsAppend(ws: seq<Write>, more: seq<Write>, docs: map<string, Project>)
    requires Targets(ws, docs) && Targets(more, docs)
    ensures Targets(ws + more, docs)
  {
    forall i | 0 <= i < |ws + more|
      ensures (ws + more)[i].id in docs
    {
      if i >= |ws| {
        assert (ws + more)[i] == more[i - |ws|];
      }
    }
  }

  /** `s` lists every document of the collection exactly once, as it is stored. */
  ghost predicate IsSnapshot(s: seq<Project>, docs: map<string, Project>) {
    && (forall i :: 0 <= i < |s| ==> s[i].id in docs && docs[s[i].id] == s[i])
    && (forall k :: k in docs ==> docs[k] in s)
    && (forall i, j :: 0 <= i < j < |s| ==> s[i].id != s[j].id)
  }

  /** `s` lists stored documents, and exactly those that match `q`. */
  ghost predicate IsQueryResult(s: seq<Project>, docs: map<string, Project>, q: Query) {
    && (forall i :: 0 <= i < |s| ==> s[i].id in docs && docs[s[i].id] == s[i] && Matches(s[i], q))
    && (forall k :: k in docs && Matches(docs[k], q) ==> docs[k] in s)
  }

  function Filter(s: seq<Project>, q: Query): (r: seq<Project>)
    ensures forall p :: p in r <==> p in s && Matches(p, q)
  {
    if s == [] then []
    else (if Matches(s[0], q) then [s[0]] else []) + Filter(s[1..], q)
  }

  /** A write batch: updates are collected and applied only by `Store.Commit`. */
  class Batch {
    var writes: seq<Write>

    constructor ()
      ensures writes == []
    {
      writes := [];
    }

    method Update(w: Write)
      modifies this
      ensures writes == old(writes) + [w]
    {
      writes := writes + [w];
    }
  }

  class Store {
    var docs: map<string, Project>

    /** Each document is stored under its own id. */
    ghost predicate Valid()
      reads this
    {
      forall k :: k in docs ==> docs[k].id == k
    }

    constructor (initial: map<string, Project>)
      requires forall k :: k in initial ==> initial[k].id == k
      ensures Valid() && docs == initial
    {
      docs := initial;
    }

    /** Reads the whole collection. */
    method FindAll() returns (s: seq<Project>)
      requires Valid()
      ensures IsSnapshot(s, docs)
    {
      s := [];
      var rest := docs.Keys;
      while rest != {}
        invariant rest <= docs.Keys
        invariant forall i :: 0 <= i < |s| ==> s[i].id in docs && docs[s[i].id] == s[i] && s[i].id !in rest
        invariant forall k :: k in docs && k !in rest ==> docs[k] in s
        invariant forall i, j :: 0 <= i < j < |s| ==> s[i].id != s[j].id
        decreases rest
      {
        var k :| k in rest;
        s := s + [docs[k]];
        rest := rest - {k};
      }
    }

    method FindByQuery(q: Query) returns (s: seq<Project>)
      requires Valid()
      ensures IsQueryResult(s, docs, q)
    {
      var all := FindAll();
      s := Filter(all, q);
      forall i | 0 <= i < |s|
        ensures s[i].id in docs && docs[s[i].id] == s[i] && Matches(s[i], q)
      {
        assert s[i] in s;
        var j :| 0 <= j < |all| && all[j] == s[i];
      }
    }

    /** Fails with NotFound on an unknown id. */
    method FindById(id: string) returns (r: Result<Project>)
      ensures id in docs ==> r == Ok(docs[id])
      ensures id !in docs ==> r == Err(NotFound)
    {
      if id in docs {
        r := Ok(docs[id]);
      } else {
        r := Err(NotFound);
      }
    }

    /** Adds a document under the id the store generates, given here as `id`. */
    method Create(id: string, data: NewProject) returns (p: Project)
      requires Valid() && id !in docs
      modifies this
      ensures Valid()
      ensures p == Created(id, data) && docs == old(docs)[id := p]
    {
      p := Created(id, data);
      docs := docs[id := p];
    }

    /** Merges `patch` into a stored document; an unknown id is reported as BadRequest. */
    method Update(id: string, patch: ProjectPatch) returns (r: Result<Project>)
      requires Valid()
      modifies this
      ensures Valid()
      ensures id in old(docs) ==> r == Ok(Merge(old(docs)[id], patch)) && docs == old(docs)[id := r.value]
      ensures id !in old(docs) ==> r == Err(BadRequest) && docs == old(docs)
    {
      if id in docs {
        var p := Merge(docs[id], patch);
        docs := docs[id := p];
        r := Ok(p);
      } else {
        r := Err(BadRequest);
      }
    }

    /** Removes a document; an unknown id is reported as BadRequest. */
    method Delete(id: string) returns (r: Outcome)
      requires Valid()
      modifies this
      ensures Valid()
      ensures id in old(docs) ==> r == Success && docs == old(docs) - {id}
      ensures id !in old(docs) ==> r == Failure(BadRequest) && docs == old(docs)
    {
      if id in docs {
        docs := docs - {id};
        r := Success;
      } else {
        r := Failure(BadRequest);
      }
    }

    /** Applies all writes of `batch` together, or none of them when one names a missing document. */
    method Commit(batch: Batch) returns (r: Outcome)
      requires Valid()
      modifies this
      ensures Valid()
      ensures Targets(batch.writes, old(docs)) ==> r == Success && docs == ApplyWrites(old(docs), batch.writes)
      ensures !Targets(batch.writes, old(docs)) ==> r == Failure(NotFound) && docs == old(docs)
    {
      if Targets(batch.writes, docs) {
        docs := ApplyWrites(docs, batch.writes);
        r := Success;
      } else {
        r := Failure(NotFound);
      }
    }
  }
}

/** Saving, granting and deleting queries keeps the tables sound, and grants resolve to what was published. */
module QueriesStaySound {
  import opened Wrappers
  import opened Manifests
  import opened Schema
  import opened Transitions
  import opened Consistency
  import opened JobsStaySound
  import opened RowsStaySound
  import Numbering

  // ---------- one revision

  lemma {:induction false} FoundQuery(queries: map<Id, Query>, tenant: Id, slug: string)
    ensures var found := FindQuery(queries, tenant, slug);
            if found.Some? then NamedQuery(queries, found.value, tenant, slug)
            else forall id :: id in queries ==> !SameQuery(queries[id], Query(tenant, slug, None))
  {
    if FindQuery(queries, tenant, slug).None? {
      forall id | id in queries ensures !SameQuery(queries[id], Query(tenant, slug, None)) {
        assert !NamedQuery(queries, id, tenant, slug);
      }
    }
  }

  lemma {:induction false} NextRevisionIsAbove(revisions: map<Id, Revision>, query: Id)
    ensures forall r :: r in revisions && revisions[r].query == query
                        ==> revisions[r].version < Numbering.Next(RevisionSlots(revisions), query)
  {
    var slots := RevisionSlots(revisions);
    forall r | r in revisions && revisions[r].query == query ensures revisions[r].version < Numbering.Next(slots, query) {
      assert slots[r].version in Numbering.VersionsOf(slots, query);
    }
  }

  lemma {:induction false} NewRevisionNumbered(revisions: map<Id, Revision>, query: Id, r: Id, row: Revision)
    requires Numbering.Numbered(RevisionSlots(revisions)) && r !in revisions && row.query == query
    requires row.version == Numbering.Next(RevisionSlots(revisions), query)
    ensures Numbering.Numbered(RevisionSlots(revisions[r := row]))
  {
    hide Numbering.Numbered, Numbering.Next;
    Numbering.InsertKeepsNumbered(RevisionSlots(revisions), r, query);
    assert RevisionSlots(revisions[r := row]) == RevisionSlots(revisions)[r := Numbering.Slot(query, row.version)];
  }

  lemma {:induction false} SameSlot(revisions: map<Id, Revision>, a: Id, b: Id)
    requires Numbering.Numbered(RevisionSlots(revisions)) && a in revisions && b in revisions
    ensures revisions[a].query == revisions[b].query && revisions[a].version == revisions[b].version ==> a == b
  {
    assert RevisionSlots(revisions)[a].version >= 1 && RevisionSlots(revisions)[b].version >= 1;
  }

  /** A new revision of an existing or a new query, different from the current one. */
  lemma {:induction false} NewRevisionRows(queries: map<Id, Query>, revisions: map<Id, Revision>, query: Id, r: Id, row: Revision, name: Query)
    requires QueriesSound(queries, revisions) && r !in revisions
    requires name.current == Some(r) && row.query == query && row.tenant == name.tenant
    requires query in queries ==> queries[query].tenant == name.tenant
    requires query in queries ==> !SameText(revisions[queries[query].current.value], row)
    requires row.version == Numbering.Next(RevisionSlots(revisions), query)
    ensures RevisionRows(revisions[r := row], queries[query := name])
  {
    hide Numbering.Numbered, Numbering.Next;
    var revisions' := revisions[r := row];
    NewRevisionNumbered(revisions, query, r, row);
    NextRevisionIsAbove(revisions, query);
    forall a, b | a in revisions' && b in revisions' && Follows(revisions'[a], revisions'[b])
      ensures !SameText(revisions'[a], revisions'[b]) {
      if a != r && b != r {
        assert Follows(revisions[a], revisions[b]);
      } else if b == r && a != r {
        assert QueryCurrent(query, queries[query], revisions);
        var current := queries[query].current.value;
        SameSlot(revisions, a, current);
      }
    }
  }

  lemma {:induction false} NewRevisionNames(queries: map<Id, Query>, revisions: map<Id, Revision>, query: Id, r: Id, row: Revision, name: Query)
    requires QueriesSound(queries, revisions) && r !in revisions
    requires name.current == Some(r) && row.query == query
    requires query in queries ==> SameQuery(queries[query], name)
    requires query !in queries ==> forall other :: other in queries ==> !SameQuery(queries[other], name)
    requires row.version == Numbering.Next(RevisionSlots(revisions), query)
    ensures QueryRows(queries[query := name], revisions[r := row])
  {
    var queries', revisions' := queries[query := name], revisions[r := row];
    NextRevisionIsAbove(revisions, query);
    forall id | id in queries' ensures QueryCurrent(id, queries'[id], revisions') {
      assert id != query ==> QueryCurrent(id, queries[id], revisions);
    }
    forall a, b | a in queries' && b in queries' && SameQuery(queries'[a], queries'[b]) ensures a == b {
      assert a in queries && b in queries ==> SameQuery(queries[a], queries[b]);
      assert a !in queries && b in queries ==> SameQuery(queries[b], name);
    }
  }

  lemma {:induction false} MoreRevisionsGrants(
    grants: set<Grant>, deployments: map<Id, Deployment>, revisions: map<Id, Revision>, revisions': map<Id, Revision>)
    requires GrantRows(grants, deployments, revisions)
    requires forall r :: r in revisions ==> r in revisions' && revisions'[r] == revisions[r]
    ensures GrantRows(grants, deployments, revisions')
  {
    forall g | g in grants ensures GrantRow(g, deployments, revisions') {
      assert GrantRow(g, deployments, revisions);
    }
    forall g, h | g in grants && h in grants && SameGrant(g, h, revisions') ensures g == h {
      assert GrantRow(g, deployments, revisions) && GrantRow(h, deployments, revisions);
      assert SameGrant(g, h, revisions);
    }
  }

  /** Sound but for grants of a deployment that is still being published. */
  ghost predicate SoundWhileGranting(t: Tables)
  {
    && Bounded(t)
    && JobsSound(t.jobs, t.runs, t.deployments)
    && RunRows(t.runs, t.datasets)
    && DatasetRows(t.datasets)
    && ConnectorRows(t.connectors, t.datasets)
    && AppsSound(t.apps, t.deployments)
    && QueriesSound(t.queries, t.revisions)
    && GrantRows(t.grants, t.deployments, t.revisions)
  }

  lemma {:induction false} UnusedWhileGranting(t: Tables, id: Id)
    requires SoundWhileGranting(t) && id >= t.nextId
    ensures id !in t.queries && id !in t.revisions
  {
    hide JobsSound, RunRows, DatasetRows, ConnectorRows, AppsSound, QueriesSound, GrantRows;
  }

  lemma {:induction false} CurrentFacts(t: Tables, query: Id)
    requires SoundWhileGranting(t) && query in t.queries
    ensures t.queries[query].current.Some? && t.queries[query].current.value in t.revisions
    ensures t.revisions[t.queries[query].current.value].query == query
    ensures t.revisions[t.queries[query].current.value].tenant == t.queries[query].tenant
  {
    hide Bounded, JobsSound, RunRows, DatasetRows, ConnectorRows, AppsSound, GrantRows;
    assert QueryCurrent(query, t.queries[query], t.revisions);
  }

  lemma {:induction false} SaveRevisionKeeps(t: Tables, tenant: Id, slug: string, sql: string, types: ParameterTypes)
    requires SoundWhileGranting(t)
    ensures SoundWhileGranting(SaveRevision(t, tenant, slug, sql, types).tables)
  {
    hide Bounded, JobsSound, RunRows, DatasetRows, ConnectorRows, AppsSound, QueriesSound, GrantRows, FindQuery,
         RevisionSlots;
    var saved := SaveRevision(t, tenant, slug, sql, types);
    if saved.created {
      var found := FindQuery(t.queries, tenant, slug);
      FoundQuery(t.queries, tenant, slug);
      var query := if found.Some? then found.value else t.nextId;
      var r := t.nextId + 1;
      UnusedWhileGranting(t, t.nextId);
      UnusedWhileGranting(t, r);
      if query in t.queries { CurrentFacts(t, query); }
      var t' := saved.tables;
      NewRevisionRows(t.queries, t.revisions, query, r, t'.revisions[r], t'.queries[query]);
      NewRevisionNames(t.queries, t.revisions, query, r, t'.revisions[r], t'.queries[query]);
      assert QueriesSound(t'.queries, t'.revisions) by { PairUp(t'.queries, t'.revisions); }
      MoreRevisionsGrants(t.grants, t.deployments, t.revisions, t'.revisions);
      GrowsBounded(t, t');
    }
  }

  lemma {:induction false} PairUp(queries: map<Id, Query>, revisions: map<Id, Revision>)
    requires QueryRows(queries, revisions) && RevisionRows(revisions, queries)
    ensures QueriesSound(queries, revisions)
  {
  }

  /** The saved revision carries the text given, belongs to the named query, and nothing older changed. */
  lemma {:induction false} SaveRevisionStores(t: Tables, tenant: Id, slug: string, sql: string, types: ParameterTypes)
    requires SoundWhileGranting(t)
    ensures var saved := SaveRevision(t, tenant, slug, sql, types); var t' := saved.tables;
            && saved.revision in t'.revisions
            && t'.revisions[saved.revision].sql == sql && t'.revisions[saved.revision].types == types
            && t'.revisions[saved.revision].tenant == tenant
            && NamedQuery(t'.queries, t'.revisions[saved.revision].query, tenant, slug)
            && OnlyQueriesGrow(t, t')
  {
    hide Bounded, JobsSound, RunRows, DatasetRows, ConnectorRows, AppsSound, QueriesSound, GrantRows, FindQuery,
         RevisionSlots;
    FoundQuery(t.queries, tenant, slug);
    UnusedWhileGranting(t, t.nextId);
    UnusedWhileGranting(t, t.nextId + 1);
    var found := FindQuery(t.queries, tenant, slug);
    if found.Some? { CurrentFacts(t, found.value); }
  }

  /** Only queries and revisions changed: rows were added, and no revision, query name or tenant was touched. */
  ghost predicate OnlyQueriesGrow(t: Tables, t': Tables)
  {
    && t' == t.(queries := t'.queries, revisions := t'.revisions, nextId := t'.nextId)
    && t.nextId <= t'.nextId
    && RowsGrow(t.queries, t.revisions, t'.queries, t'.revisions)
  }

  ghost predicate RowsGrow(queries: map<Id, Query>, revisions: map<Id, Revision>, queries': map<Id, Query>, revisions': map<Id, Revision>)
  {
    && (forall r :: r in revisions ==> r in revisions' && revisions'[r] == revisions[r])
    && (forall q :: q in queries ==> q in queries' && SameQuery(queries'[q], queries[q]))
  }

  lemma {:induction false} SaveQueryRevisionKeeps(t: Tables, tenant: Id, slug: string, sql: string, types: ParameterTypes)
    requires Sound(t)
    ensures Sound(SaveQueryRevision(t, tenant, slug, sql, types).0)
  {
    hide Bounded, JobsSound, RunRows, DatasetRows, ConnectorRows, AppsSound, QueriesSound, GrantRows, GrantsSettled,
         SaveRevision, RowsGrow;
    SaveRevisionKeeps(t, tenant, slug, sql, types);
    SaveRevisionStores(t, tenant, slug, sql, types);
  }

  // ---------- granting a list of queries

  predicate DistinctNames(queries: seq<PublishedQuery>)
  {
    forall i, j :: 0 <= i < j < |queries| ==> queries[i].name != queries[j].name
  }

  /** Some grant of the deployment resolves the name: the join behind RuntimeQuery. */
  ghost predicate Resolves(t: Tables, deployment: Id, name: string, r: Id)
  {
    && (exists g :: g in t.grants && g.deployment == deployment && g.revision == r)
    && r in t.revisions
    && t.revisions[r].query in t.queries
    && t.queries[t.revisions[r].query].slug == name
  }

  /** No grant of the deployment is for a query of this name. */
  ghost predicate Unnamed(t: Tables, deployment: Id, name: string)
  {
    forall r :: !Resolves(t, deployment, name, r)
  }

  lemma {:induction false} GrantsResolve(t: Tables, g: Grant)
    requires SoundWhileGranting(t) && g in t.grants
    ensures GrantRow(g, t.deployments, t.revisions)
    ensures t.revisions[g.revision].query in t.queries
    ensures Resolves(t, g.deployment, t.queries[t.revisions[g.revision].query].slug, g.revision)
  {
    hide Bounded, JobsSound, RunRows, DatasetRows, ConnectorRows, AppsSound;
  }

  /** What one pass of the loop over the published queries does. */
  ghost function GrantOne(t: Tables, tenant: Id, deployment: Id, q: PublishedQuery): Tables
  {
    var saved := SaveRevision(t, tenant, q.name, q.sql, q.types);
    saved.tables.(grants := saved.tables.grants + {Grant(tenant, deployment, saved.revision)})
  }

  lemma {:induction false} GrantOneRows(t: Tables, grant: Grant)
    requires GrantRows(t.grants, t.deployments, t.revisions) && GrantRow(grant, t.deployments, t.revisions)
    requires forall g :: g in t.grants && g.deployment == grant.deployment
                         ==> t.revisions[g.revision].query != t.revisions[grant.revision].query
    ensures GrantRows(t.grants + {grant}, t.deployments, t.revisions)
  {
    var grants' := t.grants + {grant};
    forall g, h | g in grants' && h in grants' && SameGrant(g, h, t.revisions) ensures g == h {
      if g in t.grants && h in t.grants {
        assert GrantRow(g, t.deployments, t.revisions) && GrantRow(h, t.deployments, t.revisions);
        assert SameGrant(g, h, t.revisions);
      }
    }
  }

  /** The queries granted so far resolve as before, the new one resolves to its text, and no other name does. */
  lemma {:induction false} GrantOneKeeps(t: Tables, tenant: Id, d: Id, q: PublishedQuery)
    requires SoundWhileGranting(t) && d in t.deployments && t.deployments[d].tenant == tenant
    requires Unnamed(t, d, q.name)
    ensures var t' := GrantOne(t, tenant, d, q);
            && SoundWhileGranting(t')
            && OnlyQueriesGrow(t.(grants := t'.grants), t')
            && t'.grants == t.grants + {Grant(tenant, d, SaveRevision(t, tenant, q.name, q.sql, q.types).revision)}
  {
    hide Bounded, JobsSound, RunRows, DatasetRows, ConnectorRows, AppsSound, QueriesSound, GrantRows, SaveRevision,
         RowsGrow;
    SaveRevisionKeeps(t, tenant, q.name, q.sql, q.types);
    SaveRevisionStores(t, tenant, q.name, q.sql, q.types);
    var saved := SaveRevision(t, tenant, q.name, q.sql, q.types);
    var t1 := saved.tables;
    var grant := Grant(tenant, d, saved.revision);
    forall g | g in t1.grants && g.deployment == d
      ensures g.revision in t1.revisions && t1.revisions[g.revision].query != t1.revisions[grant.revision].query {
      GrantsResolve(t, g);
      GrowFacts(t, t1, g.revision);
      GrantsResolve(t1, g);
    }
    GrantOneRows(t1, grant);
    SucceededBounds(t1, GrantOne(t, tenant, d, q));
  }

  lemma {:induction false} GrowFacts(t: Tables, t': Tables, r: Id)
    requires RowsGrow(t.queries, t.revisions, t'.queries, t'.revisions)
    requires r in t.revisions && t.revisions[r].query in t.queries
    ensures r in t'.revisions && t'.revisions[r] == t.revisions[r]
    ensures t'.revisions[r].query in t'.queries && t'.queries[t.revisions[r].query].slug == t.queries[t.revisions[r].query].slug
  {
  }

  /** A granted name resolves to exactly one revision. */
  lemma {:induction false} ResolutionIsUnique(t: Tables, d: Id, name: string, r1: Id, r2: Id)
    requires SoundWhileGranting(t) && Resolves(t, d, name, r1) && Resolves(t, d, name, r2)
    ensures r1 == r2
  {
    hide Bounded, JobsSound, RunRows, DatasetRows, ConnectorRows, AppsSound;
    var g1 :| g1 in t.grants && g1.deployment == d && g1.revision == r1;
    var g2 :| g2 in t.grants && g2.deployment == d && g2.revision == r2;
    assert GrantRow(g1, t.deployments, t.revisions) && GrantRow(g2, t.deployments, t.revisions);
    assert t.revisions[r1].tenant == t.revisions[r2].tenant;
    assert SameQuery(t.queries[t.revisions[r1].query], t.queries[t.revisions[r2].query]);
    assert SameGrant(g1, g2, t.revisions);
  }

  lemma {:induction false} GrantOneResolves(t: Tables, tenant: Id, d: Id, q: PublishedQuery, name: string)
    requires SoundWhileGranting(t) && d in t.deployments && t.deployments[d].tenant == tenant
    requires Unnamed(t, d, q.name)
    ensures var t' := GrantOne(t, tenant, d, q);
            && (exists r :: Resolves(t', d, q.name, r) && t'.revisions[r].sql == q.sql && t'.revisions[r].types == q.types)
            && (name != q.name ==> forall r :: Resolves(t', d, name, r) <==> Resolves(t, d, name, r))
  {
    hide Bounded, JobsSound, RunRows, DatasetRows, ConnectorRows, AppsSound, QueriesSound, GrantRows, SaveRevision,
         RowsGrow;
    SaveRevisionStores(t, tenant, q.name, q.sql, q.types);
    GrantOneKeeps(t, tenant, d, q);
    var saved := SaveRevision(t, tenant, q.name, q.sql, q.types);
    var t' := GrantOne(t, tenant, d, q);
    var grant := Grant(tenant, d, saved.revision);
    GrantsResolve(t', grant);
    assert Resolves(t', d, q.name, saved.revision);
    if name != q.name {
      forall r ensures Resolves(t', d, name, r) <==> Resolves(t, d, name, r) {
        if Resolves(t, d, name, r) {
          var g :| g in t.grants && g.deployment == d && g.revision == r;
          GrowFacts(t, t', r);
          assert g in t'.grants;
        }
        if Resolves(t', d, name, r) {
          var g :| g in t'.grants && g.deployment == d && g.revision == r;
          assert g != grant;
          GrantsResolve(t, g);
          GrowFacts(t, t', r);
        }
      }
    }
  }

  /** Every declared query resolves to its text, and no other name resolves. */
  ghost predicate Declared(t: Tables, d: Id, queries: seq<PublishedQuery>)
  {
    && (forall q :: q in queries ==> ResolvesTo(t, d, q))
    && (forall name :: (forall q :: q in queries ==> q.name != name) ==> Unnamed(t, d, name))
  }

  ghost predicate ResolvesTo(t: Tables, d: Id, q: PublishedQuery)
  {
    exists r :: Resolves(t, d, q.name, r) && t.revisions[r].sql == q.sql && t.revisions[r].types == q.types
  }

  /** A name that resolves in t resolves to the same row in t', and no new name appears. */
  ghost predicate SameResolution(t: Tables, t': Tables, d: Id, name: string)
  {
    forall r :: (Resolves(t', d, name, r) <==> Resolves(t, d, name, r)) && (Resolves(t, d, name, r) ==> t'.revisions[r] == t.revisions[r])
  }

  lemma {:induction false} GrantOneFrame(t: Tables, tenant: Id, d: Id, q: PublishedQuery, name: string)
    requires SoundWhileGranting(t) && d in t.deployments && t.deployments[d].tenant == tenant
    requires Unnamed(t, d, q.name) && name != q.name
    ensures SameResolution(t, GrantOne(t, tenant, d, q), d, name)
  {
    hide Bounded, JobsSound, RunRows, DatasetRows, ConnectorRows, AppsSound, QueriesSound, GrantRows, GrantOne,
         RowsGrow;
    GrantOneResolves(t, tenant, d, q, name);
    GrantOneKeeps(t, tenant, d, q);
    var t' := GrantOne(t, tenant, d, q);
    forall r | Resolves(t, d, name, r) ensures t'.revisions[r] == t.revisions[r] {
      GrowFacts(t, t', r);
    }
  }

  /** GrantAll on distinct new names: the result stays sound and resolves exactly those names. */
  lemma {:induction false} GrantAllKeeps(t: Tables, tenant: Id, d: Id, queries: seq<PublishedQuery>)
    requires SoundWhileGranting(t) && d in t.deployments && t.deployments[d].tenant == tenant
    requires DistinctNames(queries) && forall q :: q in queries ==> Unnamed(t, d, q.name)
    ensures var r := GrantAll(t, tenant, d, queries);
            r.Some? ==>
              && SoundWhileGranting(r.value)
              && OnlyQueriesGrow(t.(grants := r.value.grants), r.value)
              && t.grants <= r.value.grants
              && (forall g :: g in r.value.grants && g !in t.grants ==> g.deployment == d)
    decreases |queries|
  {
    hide Bounded, JobsSound, RunRows, DatasetRows, ConnectorRows, AppsSound, QueriesSound, GrantRows, SaveRevision,
         RowsGrow;
    if queries != [] {
      var q := queries[0];
      var t1 := GrantOne(t, tenant, d, q);
      GrantOneKeeps(t, tenant, d, q);
      forall p | p in queries[1..] ensures Unnamed(t1, d, p.name) {
        GrantOneFrame(t, tenant, d, q, p.name);
      }
      assert DistinctNames(queries[1..]);
      GrantAllKeeps(t1, tenant, d, queries[1..]);
      var r := GrantAll(t, tenant, d, queries);
      if r.Some? {
        GrowTrans(t, t1, r.value);
      }
    } else {
      GrowRefl(t);
    }
  }

  lemma {:induction false} GrowRefl(t: Tables)
    ensures RowsGrow(t.queries, t.revisions, t.queries, t.revisions)
  {
  }

  lemma {:induction false} GrowTrans(t: Tables, t1: Tables, t2: Tables)
    requires RowsGrow(t.queries, t.revisions, t1.queries, t1.revisions) && RowsGrow(t1.queries, t1.revisions, t2.queries, t2.revisions)
    ensures RowsGrow(t.queries, t.revisions, t2.queries, t2.revisions)
  {
  }

  lemma {:induction false} GrantAllResolves(t: Tables, tenant: Id, d: Id, queries: seq<PublishedQuery>, name: string)
    requires SoundWhileGranting(t) && d in t.deployments && t.deployments[d].tenant == tenant
    requires DistinctNames(queries) && forall q :: q in queries ==> Unnamed(t, d, q.name)
    requires GrantAll(t, tenant, d, queries).Some?
    ensures var t' := GrantAll(t, tenant, d, queries).value;
            && (forall q :: q in queries && q.name == name ==> ResolvesTo(t', d, q))
            && ((forall q :: q in queries ==> q.name != name) ==> SameResolution(t, t', d, name))
    decreases |queries|
  {
    hide Bounded, JobsSound, RunRows, DatasetRows, ConnectorRows, AppsSound, QueriesSound, GrantRows, SaveRevision,
         RowsGrow, Resolves;
    if queries != [] {
      var q := queries[0];
      var t1 := GrantOne(t, tenant, d, q);
      var t' := GrantAll(t, tenant, d, queries).value;
      GrantOneKeeps(t, tenant, d, q);
      forall p | p in queries[1..] ensures Unnamed(t1, d, p.name) {
        GrantOneFrame(t, tenant, d, q, p.name);
      }
      assert DistinctNames(queries[1..]);
      GrantAllResolves(t1, tenant, d, queries[1..], name);
      assert queries == [q] + queries[1..];
      if name == q.name {
        GrantOneResolves(t, tenant, d, q, name);
        assert forall p :: p in queries[1..] ==> p.name != name;
      } else {
        GrantOneFrame(t, tenant, d, q, name);
      }
    }
  }

  // ---------- publishing a deployment

  lemma {:induction false} SettledIsUnnamed(t: Tables, d: Id, name: string)
    requires Sound(t) && d in t.deployments && !t.deployments[d].status.Succeeded?
    ensures Unnamed(t, d, name)
  {
    hide Bounded, JobsSound, RunRows, DatasetRows, ConnectorRows, AppsSound, QueriesSound;
  }

  lemma {:induction false} SucceedCarries(deployments: map<Id, Deployment>, job: Job)
    requires job.status.Succeeded?
    ensures DeploymentsCarry(deployments, WithDeploymentStatus(deployments, job))
  {
  }

  lemma {:induction false} CarryKeepsGrantRows(
    grants: set<Grant>, deployments: map<Id, Deployment>, deployments': map<Id, Deployment>, revisions: map<Id, Revision>)
    requires GrantRows(grants, deployments, revisions) && DeploymentsCarry(deployments, deployments')
    ensures GrantRows(grants, deployments', revisions)
  {
    forall g | g in grants ensures GrantRow(g, deployments', revisions) {
      assert GrantRow(g, deployments, revisions);
    }
  }

  lemma {:induction false} RowFactsWhileGranting(t: Tables, id: Id)
    requires SoundWhileGranting(t) && id in t.jobs
    ensures JobRow(t.jobs[id], t.runs, t.deployments)
  {
    hide Bounded, RunRows, DatasetRows, ConnectorRows, AppsSound, QueriesSound, GrantRows;
  }

  lemma {:induction false} AppFacts(t: Tables, d: Id)
    requires SoundWhileGranting(t) && d in t.deployments
    ensures t.deployments[d].app in t.apps && t.apps[t.deployments[d].app].tenant == t.deployments[d].tenant
  {
    hide Bounded, JobsSound, RunRows, DatasetRows, ConnectorRows, QueriesSound, GrantRows;
  }

  lemma {:induction false} PromoteKeeps(t: Tables, id: Id)
    requires SoundWhileGranting(t) && id in t.jobs && t.jobs[id].kind.AppPublish? && t.jobs[id].target in t.deployments
    requires !t.jobs[id].cancelRequested
    requires forall g :: g in t.grants ==>
               g.deployment in t.deployments && (g.deployment == t.jobs[id].target || t.deployments[g.deployment].status.Succeeded?)
    ensures Sound(Promote(t, id))
  {
    hide Bounded, JobsSound, RunRows, DatasetRows, ConnectorRows, AppsSound, QueriesSound, GrantRows,
         DeploymentsCarry;
    var done := t.jobs[id].(status := Succeeded, lease := None);
    var d := done.target;
    var t' := Promote(t, id);
    RowFactsWhileGranting(t, id);
    AppFacts(t, d);
    MoveKeepsJobs(t.jobs, t.runs, t.deployments, id, done);
    SucceedCarries(t.deployments, done);
    CarryKeepsApps(t.apps, t.deployments, t'.deployments);
    CarryKeepsGrantRows(t.grants, t.deployments, t'.deployments, t.revisions);
    PointKeepsApps(t.apps, t'.deployments, d);
    SucceededBounds(t, t');
    assert t'.runs == t.runs;
  }

  lemma {:induction false} CompletePublishKeeps(t: Tables, c: Claim, queries: seq<PublishedQuery>)
    requires Sound(t) && DistinctNames(queries)
    ensures Sound(CompletePublish(t, c, queries).0)
  {
    hide Bounded, JobsSound, RunRows, DatasetRows, ConnectorRows, AppsSound, QueriesSound, GrantRows, GrantAll,
         RowsGrow, Unnamed;
    if PublishCompletes(t, c) {
      var d := t.jobs[c.job].target;
      RowFacts(t, c.job);
      forall q | q in queries ensures Unnamed(t, d, q.name) { SettledIsUnnamed(t, d, q.name); }
      GrantAllKeeps(t, c.tenant, d, queries);
      var granted := GrantAll(t, c.tenant, d, queries);
      if granted.Some? { PromoteKeeps(granted.value, c.job); }
    }
  }

  /** A publish that takes effect: each query resolves to its text, and no undeclared name resolves. */
  lemma {:induction false} CompletePublishDeclares(t: Tables, c: Claim, queries: seq<PublishedQuery>)
    requires Sound(t) && DistinctNames(queries) && CompletePublish(t, c, queries).1.Ok?
    ensures Declared(CompletePublish(t, c, queries).0, t.jobs[c.job].target, queries)
  {
    hide Bounded, JobsSound, RunRows, DatasetRows, ConnectorRows, AppsSound, QueriesSound, GrantRows, GrantAll,
         RowsGrow, Resolves;
    var d := t.jobs[c.job].target;
    RowFacts(t, c.job);
    forall q | q in queries ensures Unnamed(t, d, q.name) { SettledIsUnnamed(t, d, q.name); }
    var granted := GrantAll(t, c.tenant, d, queries).value;
    GrantAllKeeps(t, c.tenant, d, queries);
    var t' := CompletePublish(t, c, queries).0;
    SameGrantsSameResolution(granted, t', d);
    forall q | q in queries ensures ResolvesTo(t', d, q) { GrantAllResolves(t, c.tenant, d, queries, q.name); }
    forall name | forall q :: q in queries ==> q.name != name ensures Unnamed(t', d, name) {
      GrantAllResolves(t, c.tenant, d, queries, name);
      SettledIsUnnamed(t, d, name);
    }
  }

  // ---------- pins

  /** All names resolve for this deployment as they did. */
  ghost predicate Pinned(t: Tables, t': Tables, d: Id)
  {
    forall name :: SameResolution(t, t', d, name)
  }

  lemma {:induction false} SameGrantsSameResolution(t: Tables, t': Tables, d: Id)
    requires t'.grants == t.grants && t'.queries == t.queries && t'.revisions == t.revisions
    ensures Pinned(t, t', d)
    ensures forall name, r :: Resolves(t', d, name, r) <==> Resolves(t, d, name, r)
  {
  }

  lemma {:induction false} PinnedTrans(t: Tables, t1: Tables, t2: Tables, d: Id)
    requires Pinned(t, t1, d) && Pinned(t1, t2, d)
    ensures Pinned(t, t2, d)
  {
    hide Resolves;
    forall name ensures SameResolution(t, t2, d, name) {
      assert SameResolution(t, t1, d, name) && SameResolution(t1, t2, d, name);
    }
  }

  /** Adding revisions and granting to other deployments leaves the pins of d alone. */
  lemma {:induction false} GrowPins(t: Tables, t': Tables, d: Id)
    requires SoundWhileGranting(t) && SoundWhileGranting(t')
    requires RowsGrow(t.queries, t.revisions, t'.queries, t'.revisions)
    requires t.grants <= t'.grants && forall g :: g in t'.grants && g !in t.grants ==> g.deployment != d
    ensures Pinned(t, t', d)
  {
    hide SoundWhileGranting, RowsGrow;
    forall name ensures SameResolution(t, t', d, name) {
      forall r ensures Resolves(t', d, name, r) <==> Resolves(t, d, name, r) {
        if Resolves(t, d, name, r) {
          GrowFacts(t, t', r);
        }
        if Resolves(t', d, name, r) {
          var g :| g in t'.grants && g.deployment == d && g.revision == r;
          GrantsResolve(t, g);
          GrowFacts(t, t', r);
        }
      }
      forall r | Resolves(t, d, name, r) ensures t'.revisions[r] == t.revisions[r] {
        GrowFacts(t, t', r);
      }
    }
  }

  /** Deleting what d does not use leaves its pins alone. */
  lemma {:induction false} ShrinkPins(t: Tables, t': Tables, d: Id)
    requires SoundWhileGranting(t)
    requires t'.grants <= t.grants && forall g :: g in t.grants && g.deployment == d ==>
               && g in t'.grants
               && g.revision in t.revisions && g.revision in t'.revisions
               && t.revisions[g.revision].query in t'.queries
    requires forall r :: r in t'.revisions ==> r in t.revisions && t'.revisions[r] == t.revisions[r]
    requires forall q :: q in t'.queries ==> q in t.queries && t'.queries[q] == t.queries[q]
    ensures Pinned(t, t', d)
  {
    hide SoundWhileGranting;
    forall name, r ensures Resolves(t', d, name, r) <==> Resolves(t, d, name, r) {
      if Resolves(t, d, name, r) {
        var g :| g in t.grants && g.deployment == d && g.revision == r;
        assert g in t'.grants;
      }
    }
  }

  lemma {:induction false} SoundIsSoundWhileGranting(t: Tables)
    requires Sound(t)
    ensures SoundWhileGranting(t)
  {
    hide Bounded, JobsSound, RunRows, DatasetRows, ConnectorRows, AppsSound, QueriesSound, GrantRows, GrantsSettled;
  }

  lemma {:induction false} CompletePublishPins(t: Tables, c: Claim, queries: seq<PublishedQuery>, d: Id)
    requires Sound(t) && DistinctNames(queries) && d in t.deployments && t.deployments[d].status.Succeeded?
    ensures Pinned(t, CompletePublish(t, c, queries).0, d)
  {
    hide Sound, GrantAll, RowsGrow, Unnamed, SoundWhileGranting, Pinned;
    SameGrantsSameResolution(t, t, d);
    if PublishCompletes(t, c) {
      var mine := t.jobs[c.job].target;
      SoundIsSoundWhileGranting(t);
      RowFacts(t, c.job);
      forall q | q in queries ensures Unnamed(t, mine, q.name) { SettledIsUnnamed(t, mine, q.name); }
      GrantAllKeeps(t, c.tenant, mine, queries);
      var granted := GrantAll(t, c.tenant, mine, queries);
      if granted.Some? {
        GrowPins(t, granted.value, d);
        SameGrantsSameResolution(granted.value, CompletePublish(t, c, queries).0, d);
        PinnedTrans(t, granted.value, CompletePublish(t, c, queries).0, d);
      }
    }
  }

  lemma {:induction false} SaveQueryRevisionPins(t: Tables, tenant: Id, slug: string, sql: string, types: ParameterTypes, d: Id)
    requires Sound(t)
    ensures Pinned(t, SaveQueryRevision(t, tenant, slug, sql, types).0, d)
  {
    hide Sound, SaveRevision, RowsGrow, SoundWhileGranting, Pinned;
    SoundIsSoundWhileGranting(t);
    SaveRevisionKeeps(t, tenant, slug, sql, types);
    SaveRevisionStores(t, tenant, slug, sql, types);
    GrowPins(t, SaveRevision(t, tenant, slug, sql, types).tables, d);
    SameGrantsSameResolution(t, t, d);
  }

  // ---------- deleting

  lemma {:induction false} RemoveQueryRows(queries: map<Id, Query>, revisions: map<Id, Revision>, query: Id, revisions': map<Id, Revision>)
    requires QueriesSound(queries, revisions)
    requires revisions' == map r | r in revisions && revisions[r].query != query :: revisions[r]
    ensures QueriesSound(queries - {query}, revisions')
  {
    Numbering.RemoveKeepsNumbered(RevisionSlots(revisions), RevisionSlots(revisions'), query);
    var queries' := queries - {query};
    forall id | id in queries' ensures QueryCurrent(id, queries'[id], revisions') {
      assert QueryCurrent(id, queries[id], revisions);
    }
    forall a, b | a in queries' && b in queries' && SameQuery(queries'[a], queries'[b]) ensures a == b {
      assert SameQuery(queries[a], queries[b]);
    }
    forall a, b | a in revisions' && b in revisions' && Follows(revisions'[a], revisions'[b])
      ensures !SameText(revisions'[a], revisions'[b]) {
      assert Follows(revisions[a], revisions[b]);
    }
  }

  lemma {:induction false} FewerRevisionsGrants(
    grants: set<Grant>, deployments: map<Id, Deployment>, revisions: map<Id, Revision>, revisions': map<Id, Revision>)
    requires GrantsSound(grants, deployments, revisions)
    requires forall r :: r in revisions' ==> r in revisions && revisions'[r] == revisions[r]
    requires forall g :: g in grants ==> g.revision in revisions'
    ensures GrantsSound(grants, deployments, revisions')
  {
    forall g | g in grants ensures GrantRow(g, deployments, revisions') {
      assert GrantRow(g, deployments, revisions);
    }
    forall g, h | g in grants && h in grants && SameGrant(g, h, revisions') ensures g == h {
      assert SameGrant(g, h, revisions);
    }
  }

  /** A query that is not in use carries no grant at all, whatever the tenant. */
  lemma {:induction false} UnusedQueryUngranted(t: Tables, tenant: Id, slug: string, query: Id)
    requires Sound(t) && NamedQuery(t.queries, query, tenant, slug) && !QueryInUse(t, tenant, query, slug)
    ensures forall g :: g in t.grants ==> g.revision in t.revisions && t.revisions[g.revision].query != query
  {
    hide Bounded, JobsSound, RunRows, DatasetRows, ConnectorRows, AppsSound, QueryRows;
    forall g | g in t.grants ensures g.revision in t.revisions && t.revisions[g.revision].query != query {
      assert GrantRow(g, t.deployments, t.revisions);
    }
  }

  lemma {:induction false} DeleteQueryKeeps(t: Tables, tenant: Id, slug: string)
    requires Sound(t)
    ensures Sound(DeleteQuery(t, tenant, slug).0)
  {
    hide Bounded, JobsSound, RunRows, DatasetRows, ConnectorRows, AppsSound, QueriesSound, GrantsSound, FindQuery,
         QueryInUse;
    var t' := DeleteQuery(t, tenant, slug).0;
    if t' != t {
      FoundQuery(t.queries, tenant, slug);
      var query := FindQuery(t.queries, tenant, slug).value;
      UnusedQueryUngranted(t, tenant, slug, query);
      RemoveQueryRows(t.queries, t.revisions, query, t'.revisions);
      FewerRevisionsGrants(t.grants, t.deployments, t.revisions, t'.revisions);
      ShrinksBounded(t, t');
    }
  }

  lemma {:induction false} DeleteQueryPins(t: Tables, tenant: Id, slug: string, d: Id)
    requires Sound(t)
    ensures Pinned(t, DeleteQuery(t, tenant, slug).0, d)
  {
    hide Sound, FindQuery, QueryInUse, SoundWhileGranting, Pinned;
    SoundIsSoundWhileGranting(t);
    SameGrantsSameResolution(t, t, d);
    var t' := DeleteQuery(t, tenant, slug).0;
    if t' != t {
      FoundQuery(t.queries, tenant, slug);
      var query := FindQuery(t.queries, tenant, slug).value;
      UnusedQueryUngranted(t, tenant, slug, query);
      forall g | g in t.grants && g.deployment == d
        ensures g.revision in t'.revisions && t.revisions[g.revision].query in t'.queries {
        GrantsResolve(t, g);
      }
      ShrinkPins(t, t', d);
    }
  }

  lemma {:induction false} DeleteAppPins(t: Tables, tenant: Id, slug: string, d: Id)
    requires Sound(t) && d in DeleteApp(t, tenant, slug).0.deployments
    ensures Pinned(t, DeleteApp(t, tenant, slug).0, d)
  {
    hide Sound, FindApp, AppBusy, SoundWhileGranting, Pinned;
    SoundIsSoundWhileGranting(t);
    SameGrantsSameResolution(t, t, d);
    var t' := DeleteApp(t, tenant, slug).0;
    forall g | g in t.grants && g.deployment == d
      ensures g.revision in t.revisions && t.revisions[g.revision].query in t.queries {
      GrantsResolve(t, g);
    }
    ShrinkPins(t, t', d);
  }
}

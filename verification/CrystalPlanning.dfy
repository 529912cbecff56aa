/** Which scopes the planner picks for a crystal rebuild, and the candidate table it keeps
    (src/agent_memory_gateway/crystal_service.py). */
module CrystalPlanning {
  import opened Names
  import opened Ledger
  import opened LedgerInvariants
  import opened Lifecycle
  import opened AllRuns
  import opened RunTheorems

  /** The HAVING clause: at least two sources and a crystal that is missing, stale or older than a source. */
  predicate Selected(l: Ledger, binding: ScopeBinding) {
    && |Sources(l.rows, binding)| >= 2
    && (binding !in l.crystals || !l.crystals[binding].ready
        || exists r <- Sources(l.rows, binding) :: l.rows[r].updated > l.crystals[binding].generated)
  }

  /** In every reachable ledger the third disjunct is idle: a scope is picked exactly when its crystal is missing
      or marked stale. */
  lemma SelectedExactlyWhenStale(l: Ledger, binding: ScopeBinding)
    requires LedgerOk(l) && |Sources(l.rows, binding)| >= 2
    ensures Selected(l, binding) <==> binding !in l.crystals || !l.crystals[binding].ready
  {
  }

  /** After any run, whatever crashed, a ready crystal lists exactly the current sources of its scope, and a scope
      of two or more sources whose crystal lists anything else is picked. */
  lemma OutOfDateIsSelected(attempts: seq<Attempt>, binding: ScopeBinding)
    requires binding in Run(EMPTY, attempts).ledger.crystals
    ensures var l := Run(EMPTY, attempts).ledger;
      && (l.crystals[binding].ready ==> l.crystals[binding].refs == Sources(l.rows, binding))
      && (|Sources(l.rows, binding)| >= 2 && l.crystals[binding].refs != Sources(l.rows, binding) ==> Selected(l, binding))
  {
    EveryRunKeepsTheLedger(attempts);
    hide Run;
  }

  // ---- the candidate table

  datatype Reason = Missing | Stale | SourceChanged

  datatype CandidateStatus = Waiting | Rebuilt | Dismissed

  datatype Group = Group(binding: ScopeBinding, refs: set<FactId>, revision: nat, reason: Reason)

  datatype Candidate = Candidate(refs: set<FactId>, revision: nat, reason: Reason, status: CandidateStatus)

  /** INSERT ... ON CONFLICT (scope_binding_hash) DO UPDATE, and whether a row was written. */
  function Upserted(old_: Option<Candidate>, g: Group): (Candidate, bool) {
    match old_
    case None => (Candidate(g.refs, g.revision, g.reason, Waiting), true)
    case Some(c) =>
      if c.revision != g.revision || c.refs != g.refs || c.reason != g.reason || c.status == Rebuilt then
        (Candidate(g.refs, g.revision, g.reason,
                   if c.status == Dismissed && c.revision >= g.revision && c.refs == g.refs then Dismissed else Waiting), true)
      else (c, false)
  }

  predicate Distinct(groups: seq<Group>) {
    forall i, j | 0 <= i < j < |groups| :: groups[i].binding != groups[j].binding
  }

  function Lookup(candidates: map<ScopeBinding, Candidate>, binding: ScopeBinding): Option<Candidate> {
    if binding in candidates then Some(candidates[binding]) else None
  }

  /** How many of the groups a plan would write. */
  function Changed(candidates: map<ScopeBinding, Candidate>, groups: seq<Group>): nat {
    if groups == [] then 0
    else
      var n := |groups| - 1;
      Changed(candidates, groups[..n]) + if Upserted(Lookup(candidates, groups[n].binding), groups[n]).1 then 1 else 0
  }

  // ---- the query

  predicate IsNewest(rows: map<FactId, Row>, refs: set<FactId>, revision: nat) {
    && (forall r <- refs :: r in rows && rows[r].updated <= revision)
    && exists r <- refs :: r in rows && rows[r].updated == revision
  }

  function ReasonFor(l: Ledger, binding: ScopeBinding): Reason {
    if binding !in l.crystals then Missing else if !l.crystals[binding].ready then Stale else SourceChanged
  }

  /** One line of the answer: a selected scope with its current sources, their newest revision and the reason. */
  predicate GroupOf(l: Ledger, g: Group) {
    && Selected(l, g.binding) && g.refs == Sources(l.rows, g.binding) && IsNewest(l.rows, g.refs, g.revision)
    && g.reason == ReasonFor(l, g.binding)
  }

  function Bounded(limit: int): nat {
    if limit < 1 then 1 else if limit > 1000 then 1000 else limit
  }

  predicate Listed(groups: seq<Group>, binding: ScopeBinding) {
    exists i :: 0 <= i < |groups| && groups[i].binding == binding
  }

  /** An answer of the query: selected scopes, each once, oldest first; a scope is left out only when the limit is
      reached, and then no listed one is newer than it. */
  ghost predicate Answers(l: Ledger, bound: nat, groups: seq<Group>) {
    && |groups| <= bound && Distinct(groups)
    && (forall i | 0 <= i < |groups| :: GroupOf(l, groups[i]))
    && (forall i, j | 0 <= i < j < |groups| :: groups[i].revision <= groups[j].revision)
    && (forall b | Selected(l, b) && !Listed(groups, b) :: |groups| == bound && LeftOut(l, groups, b))
  }

  ghost predicate LeftOut(l: Ledger, groups: seq<Group>, b: ScopeBinding) {
    forall i | 0 <= i < |groups| :: exists r <- Sources(l.rows, b) :: l.rows[r].updated >= groups[i].revision
  }

  lemma {:induction false} NewestExists(rows: map<FactId, Row>, refs: set<FactId>) returns (revision: nat)
    requires refs != {} && forall r <- refs :: r in rows
    ensures IsNewest(rows, refs, revision)
    decreases refs
  {
    var r :| r in refs;
    revision := rows[r].updated;
    if refs != {r} {
      var rest := NewestExists(rows, refs - {r});
      var other :| other in refs - {r} && rows[other].updated == rest;
      assert other in refs;
      if rest > revision { revision := rest; }
      assert forall q <- refs :: q == r || q in refs - {r};
    }
  }

  lemma GroupExists(l: Ledger, b: ScopeBinding) returns (g: Group)
    requires Selected(l, b)
    ensures GroupOf(l, g) && g.binding == b
  {
    var revision := NewestExists(l.rows, Sources(l.rows, b));
    g := Group(b, Sources(l.rows, b), revision, ReasonFor(l, b));
  }

  /** The oldest of a set of selected scopes. */
  lemma {:induction false} OldestGroup(l: Ledger, todo: set<ScopeBinding>) returns (g: Group)
    requires todo != {} && forall b <- todo :: Selected(l, b)
    ensures GroupOf(l, g) && g.binding in todo
    ensures forall b <- todo :: exists r <- Sources(l.rows, b) :: l.rows[r].updated >= g.revision
    decreases todo
  {
    var b :| b in todo;
    g := GroupExists(l, b);
    if todo != {b} {
      var rest := OldestGroup(l, todo - {b});
      hide Selected, Sources;
      var kept := if rest.revision < g.revision then rest else g;
      forall c | c in todo ensures exists r <- Sources(l.rows, c) :: l.rows[r].updated >= kept.revision {
        if c == b {
          var r :| r in g.refs && r in l.rows && l.rows[r].updated == g.revision;
        } else {
          assert c in todo - {b};
        }
      }
      g := kept;
    }
  }

  /** Every ledger has an answer. */
  lemma {:induction false} AnswerExists(l: Ledger, bound: nat) returns (groups: seq<Group>)
    ensures Answers(l, bound, groups)
  {
    var all := set r | r in l.rows && Selected(l, l.rows[r].binding) :: l.rows[r].binding;
    forall b | Selected(l, b) ensures b in all {
      var r := SourceOf(l, b);
    }
    groups := AnswerFrom(l, bound, all, []);
  }

  lemma SourceOf(l: Ledger, b: ScopeBinding) returns (r: FactId)
    requires Selected(l, b)
    ensures r in l.rows && l.rows[r].binding == b
  {
    r :| r in Sources(l.rows, b);
  }

  /** Extend a partial answer by the oldest of the scopes still to do. */
  lemma {:induction false} AnswerFrom(l: Ledger, bound: nat, todo: set<ScopeBinding>, done: seq<Group>) returns (groups: seq<Group>)
    requires |done| <= bound && Partial(l, todo, done)
    ensures Answers(l, bound, groups)
    decreases todo
  {
    groups := done;
    if todo != {} && |done| < bound {
      var g := OldestGroup(l, todo);
      PartialExtends(l, todo, done, g);
      groups := AnswerFrom(l, bound, todo - {g.binding}, done + [g]);
    }
  }

  /** `done` lists the oldest selected scopes, `todo` holds the others. */
  ghost predicate Partial(l: Ledger, todo: set<ScopeBinding>, done: seq<Group>) {
    && Distinct(done) && (forall i | 0 <= i < |done| :: GroupOf(l, done[i]) && done[i].binding !in todo)
    && (forall i, j | 0 <= i < j < |done| :: done[i].revision <= done[j].revision)
    && (forall b <- todo :: Selected(l, b) && LeftOut(l, done, b))
    && (forall b | Selected(l, b) && !Listed(done, b) :: b in todo)
  }

  lemma PartialExtends(l: Ledger, todo: set<ScopeBinding>, done: seq<Group>, g: Group)
    requires Partial(l, todo, done) && GroupOf(l, g) && g.binding in todo
    requires forall b <- todo :: exists r <- Sources(l.rows, b) :: l.rows[r].updated >= g.revision
    ensures Partial(l, todo - {g.binding}, done + [g])
  {
    hide Selected, Sources;
    var next := done + [g];
    forall i | 0 <= i < |done| ensures done[i].revision <= g.revision {
      assert LeftOut(l, done, g.binding);
      assert g.refs == Sources(l.rows, g.binding);
    }
    forall b | b in todo - {g.binding} ensures LeftOut(l, next, b) {
      assert LeftOut(l, done, b);
    }
    forall b | Selected(l, b) && !Listed(next, b) ensures b in todo - {g.binding} {
      ListedOnward(done, g, b);
    }
  }

  lemma ListedOnward(groups: seq<Group>, g: Group, b: ScopeBinding)
    ensures Listed(groups + [g], b) <==> Listed(groups, b) || g.binding == b
  {
    var next := groups + [g];
    assert next[|groups|] == g;
    if Listed(groups, b) {
      var i :| 0 <= i < |groups| && groups[i].binding == b;
      assert next[i].binding == b;
    }
  }

  class Planner {
    var candidates: map<ScopeBinding, Candidate>

    constructor ()
      ensures candidates == map[]
    {
      candidates := map[];
    }

    /** Write one candidate per line of the query's answer and count the rows written. Afterwards every listed scope
        has a candidate with its current sources that is waiting or still dismissed; below the limit those are all
        the scopes whose crystal is out of date. */
    method Plan(l: Ledger, limit: int, groups: seq<Group>) returns (planned: nat)
      requires Answers(l, Bounded(limit), groups)
      modifies this
      ensures planned == Changed(old(candidates), groups)
      ensures Planned(old(candidates), candidates, groups)
      ensures forall b | Listed(groups, b) || (Selected(l, b) && |groups| < Bounded(limit)) :: Recorded(l, candidates, b)
    {
      hide Answers, Planned, Selected, Recorded, Upserted, Listed;
      AnswersOnce(l, Bounded(limit), groups);
      NothingPlanned(candidates, groups);
      planned := 0;
      var n := 0;
      while n < |groups|
        invariant 0 <= n <= |groups|
        invariant planned == Changed(old(candidates), groups[..n])
        invariant Planned(old(candidates), candidates, groups[..n])
      {
        var g := groups[n];
        NotYetPlanned(old(candidates), candidates, groups, n);
        var (c, changed) := Upserted(Lookup(candidates, g.binding), g);
        PlannedOnward(old(candidates), candidates, groups, n, c);
        candidates := candidates[g.binding := c];
        if changed {
          planned := planned + 1;
        }
        assert groups[..n + 1][..n] == groups[..n];
        n := n + 1;
      }
      assert groups[..n] == groups;
      AllRecorded(l, Bounded(limit), old(candidates), candidates, groups);
    }
  }

  /** Exactly the groups are written, each by the rule of Upserted. */
  ghost predicate Planned(before: map<ScopeBinding, Candidate>, after: map<ScopeBinding, Candidate>, groups: seq<Group>) {
    && (forall i | 0 <= i < |groups| ::
          groups[i].binding in after && after[groups[i].binding] == Upserted(Lookup(before, groups[i].binding), groups[i]).0)
    && (forall b | !Listed(groups, b) :: Lookup(after, b) == Lookup(before, b))
  }

  lemma AnswersOnce(l: Ledger, bound: nat, groups: seq<Group>)
    requires Answers(l, bound, groups)
    ensures Distinct(groups)
  {
    hide GroupOf, Selected, LeftOut;
  }

  lemma NothingPlanned(candidates: map<ScopeBinding, Candidate>, groups: seq<Group>)
    ensures Planned(candidates, candidates, groups[..0])
  {
  }

  lemma NotYetPlanned(before: map<ScopeBinding, Candidate>, after: map<ScopeBinding, Candidate>, groups: seq<Group>, n: nat)
    requires Distinct(groups) && n < |groups| && Planned(before, after, groups[..n])
    ensures Lookup(after, groups[n].binding) == Lookup(before, groups[n].binding)
  {
    hide Lookup, Upserted;
    assert !Listed(groups[..n], groups[n].binding);
  }

  lemma PlannedOnward(before: map<ScopeBinding, Candidate>, after: map<ScopeBinding, Candidate>, groups: seq<Group>, n: nat, c: Candidate)
    requires Distinct(groups) && n < |groups| && Planned(before, after, groups[..n])
    requires c == Upserted(Lookup(before, groups[n].binding), groups[n]).0
    ensures Planned(before, after[groups[n].binding := c], groups[..n + 1])
  {
    hide Upserted;
    var after' := after[groups[n].binding := c];
    forall b | !Listed(groups[..n + 1], b) ensures Lookup(after', b) == Lookup(before, b) {
      assert groups[..n + 1][n] == groups[n];
    }
  }

  /** The scope's candidate names its current sources at their newest revision, and waits unless it was dismissed. */
  ghost predicate Recorded(l: Ledger, candidates: map<ScopeBinding, Candidate>, b: ScopeBinding) {
    && b in candidates && candidates[b].refs == Sources(l.rows, b) && IsNewest(l.rows, candidates[b].refs, candidates[b].revision)
    && candidates[b].reason == ReasonFor(l, b) && candidates[b].status != Rebuilt
  }

  lemma AllRecorded(l: Ledger, bound: nat, before: map<ScopeBinding, Candidate>, after: map<ScopeBinding, Candidate>, groups: seq<Group>)
    requires Answers(l, bound, groups) && Planned(before, after, groups)
    ensures forall b | Listed(groups, b) || (Selected(l, b) && |groups| < bound) :: Recorded(l, after, b)
  {
    hide Selected, Sources, IsNewest, ReasonFor;
    forall b | Listed(groups, b) || (Selected(l, b) && |groups| < bound) ensures Recorded(l, after, b) {
      var i :| 0 <= i < |groups| && groups[i].binding == b;
      assert GroupOf(l, groups[i]);
    }
  }

  /** Both halves together: after any run, whatever crashed, a plan below its limit leaves no scope of two or more sources
      without a candidate for them, unless its crystal is ready and lists exactly those sources. */
  lemma PlanMissesNothing(attempts: seq<Attempt>, bound: nat, before: map<ScopeBinding, Candidate>, after: map<ScopeBinding, Candidate>,
                          groups: seq<Group>, b: ScopeBinding)
    requires var l := Run(EMPTY, attempts).ledger;
      && Answers(l, bound, groups) && |groups| < bound && Planned(before, after, groups) && |Sources(l.rows, b)| >= 2
    ensures var l := Run(EMPTY, attempts).ledger;
      Recorded(l, after, b) || (b in l.crystals && l.crystals[b].ready && l.crystals[b].refs == Sources(l.rows, b))
  {
    hide Run, Answers, Planned, Recorded, Sources;
    var l := Run(EMPTY, attempts).ledger;
    AllRecorded(l, bound, before, after, groups);
    if b in l.crystals { OutOfDateIsSelected(attempts, b); }
  }

  /** Planning the same groups again writes nothing. */
  lemma UpsertedTwice(c: Option<Candidate>, g: Group)
    ensures Upserted(Some(Upserted(c, g).0), g) == (Upserted(c, g).0, false)
  {
  }

  lemma {:induction false} ReplanningIsIdle(before: map<ScopeBinding, Candidate>, after: map<ScopeBinding, Candidate>, groups: seq<Group>)
    requires forall i | 0 <= i < |groups| ::
      groups[i].binding in after && after[groups[i].binding] == Upserted(Lookup(before, groups[i].binding), groups[i]).0
    ensures Changed(after, groups) == 0
  {
    if groups != [] {
      var n := |groups| - 1;
      ReplanningIsIdle(before, after, groups[..n]);
      UpsertedTwice(Lookup(before, groups[n].binding), groups[n]);
    }
  }

  /** A dismissed candidate stays dismissed until its sources change or a source gets newer; then it waits again. */
  lemma DismissalLasts(c: Candidate, g: Group)
    requires c.status == Dismissed
    ensures Upserted(Some(c), g).0.status == Dismissed <==> g.refs == c.refs && g.revision <= c.revision
  {
  }

  /** What a plan makes of a scope's candidate: it takes over the group's sources, revision and reason; it stays dismissed
      exactly when it was and neither the sources changed nor one got newer, and waits otherwise; and the plan counts it
      exactly when it differs from before. */
  lemma CandidateIsBroughtUpToDate(c: Candidate, g: Group)
    ensures var (after, written) := Upserted(Some(c), g);
      && after.refs == g.refs && after.revision == g.revision && after.reason == g.reason
      && after.status == (if c.status == Dismissed && c.refs == g.refs && g.revision <= c.revision then Dismissed else Waiting)
      && (written <==> after != c)
  {
  }

  /** A row of this scope that a crystal is built from. */
  predicate CountsFor(row: Row, b: ScopeBinding) {
    row.binding == b && row.status == Active && !row.instruction
  }

  lemma TwoMembers(s: set<FactId>)
    ensures |s| >= 2 <==> exists r <- s, q <- s :: r != q
  {
    if |s| >= 2 {
      var r :| r in s;
      assert |s - {r}| >= 1;
      var q :| q in s - {r};
      assert r in s && q in s && r != q;
    }
    if r, q :| r in s && q in s && r != q {
      assert |s - {r}| == |s| - 1 && q in s - {r};
    }
  }

  /** After any run, whatever crashed, the planner picks a scope exactly when it holds two different active memories that
      are no instructions and its crystal is missing or not ready. */
  lemma PickedExactly(attempts: seq<Attempt>, b: ScopeBinding)
    ensures var l := Run(EMPTY, attempts).ledger;
      Selected(l, b) <==>
        && (exists r <- l.rows, q <- l.rows :: r != q && CountsFor(l.rows[r], b) && CountsFor(l.rows[q], b))
        && (b !in l.crystals || !l.crystals[b].ready)
  {
    hide Run, KeysMatch, RevisionsBounded, TombstonesMatch, EventsMatch, OriginsMatch, LogsAlternate, EffectsMatch;
    EveryRunKeepsTheLedger(attempts);
    var l := Run(EMPTY, attempts).ledger;
    assert forall r :: r in Sources(l.rows, b) <==> r in l.rows && CountsFor(l.rows[r], b);
    TwoMembers(Sources(l.rows, b));
    if |Sources(l.rows, b)| >= 2 { SelectedExactlyWhenStale(l, b); }
  }
}

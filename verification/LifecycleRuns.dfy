/**
 More of what every run of creates, deletes and renames keeps: a claim has a running create behind it,
 projects stay apart, a default branch goes only with its project; and what a create and a demolition
 leave in the document.
 */
module LifecycleRuns {
  import opened Options
  import opened OpLock
  import LockSafety
  import opened Lifecycle

  // ---- claims ----

  /** The create that will commit or give back the claim on `r`. */
  predicate Claims(s: Sys, t: nat, r: string)
    requires Shaped(s)
  {
    && LockSafety.Runs(s.lock, t) && Creates(s.ops[t]) && (s.pcs[t] == Reserved(r) || s.pcs[t] == RollingBack(r))
    && r in s.doc.claims && s.doc.claims[r] == s.ops[t].branch
  }

  ghost predicate ClaimsAreLive(s: Sys)
    requires Shaped(s)
  {
    forall r :: r in s.doc.claims ==> exists t: nat :: Claims(s, t, r)
  }

  lemma OwnStepKeepsClaim(s: Sys, t: nat, action: Action, r: string)
    requires Inv(s) && MayAct(s, t, action) && Claims(s, t, r) && r in Acted(s, t, action).doc.claims
    ensures Claims(Acted(s, t, action), t, r)
  {
  }

  lemma PcIsOwn(s: Sys, t: nat, action: Action, u: nat)
    requires Inv(s) && MayAct(s, t, action) && u < |s.pcs| && u != t
    ensures var s' := Acted(s, t, action); Shaped(s') && s'.pcs[u] == s.pcs[u] && s'.ops == s.ops && s'.lock == s.lock
  {
  }

  lemma ClaimIsOwn(s: Sys, t: nat, action: Action, r: string)
    requires Inv(s) && MayAct(s, t, action) && r in s.doc.claims && r in Acted(s, t, action).doc.claims
    ensures Acted(s, t, action).doc.claims[r] == s.doc.claims[r]
  {
  }

  lemma ActingKeepsClaim(s: Sys, t: nat, action: Action, r: string, u: nat)
    requires Inv(s) && MayAct(s, t, action) && Claims(s, u, r) && r in Acted(s, t, action).doc.claims
    ensures Claims(Acted(s, t, action), u, r)
  {
    if u == t {
      OwnStepKeepsClaim(s, t, action, r);
    } else {
      PcIsOwn(s, t, action, u);
      ClaimIsOwn(s, t, action, r);
    }
  }

  lemma ActingKeepsClaims(s: Sys, t: nat, action: Action)
    requires Inv(s) && MayAct(s, t, action) && ClaimsAreLive(s)
    ensures ClaimsAreLive(Acted(s, t, action))
  {
    var s' := Acted(s, t, action);
    forall r | r in s'.doc.claims ensures exists u: nat :: Claims(s', u, r) {
      if r in s.doc.claims {
        var u: nat :| Claims(s, u, r);
        ActingKeepsClaim(s, t, action, r, u);
      } else {
        assert Claims(s', t, r);
      }
    }
  }

  lemma StepKeepsClaims(s: Sys, m: Move)
    requires Inv(s) && Enabled(s, m) && ClaimsAreLive(s)
    ensures Shaped(Apply(s, m)) && ClaimsAreLive(Apply(s, m))
  {
    StepKeepsInv(s, m);
    var s' := Apply(s, m);
    match m
    case Act(t, action) => ActingKeepsClaims(s, t, action);
    case _ =>
      forall r | r in s'.doc.claims ensures exists u: nat :: Claims(s', u, r) {
        var u: nat :| Claims(s, u, r);
        assert Claims(s', u, r);
      }
  }

  /** No claim outlives the create that took it: in a run that starts with none, every claim there is has a
      running create behind it, which has yet to commit it or give it back. */
  lemma {:induction false} NoClaimIsLeft(run: seq<Sys>, moves: seq<Move>, i: nat)
    requires IsRun(run, moves) && i < |run| && run[0].doc.claims == map[]
    ensures ClaimsAreLive(run[i])
    ensures (forall t: nat :: LockSafety.Runs(run[i].lock, t) ==> !Creates(run[i].ops[t])) ==> run[i].doc.claims == map[]
  {
    if i > 0 {
      NoClaimIsLeft(run, moves, i - 1);
      RunsKeepInv(run, moves, i - 1);
      StepKeepsClaims(run[i - 1], moves[i - 1]);
    }
    if run[i].doc.claims != map[] {
      var r :| r in run[i].doc.claims;
      var t: nat :| Claims(run[i], t, r);
      assert LockSafety.Runs(run[i].lock, t) && Creates(run[i].ops[t]);
    }
  }

  // ---- projects ----

  predicate ProjectsApart(d: Doc) {
    forall p, q :: p in d.projects && q in d.projects && p != q ==>
      d.projects[p].name != d.projects[q].name && ProjectSlug(d, d.projects[p]) != ProjectSlug(d, d.projects[q])
  }

  lemma StepKeepsProjectsApart(s: Sys, m: Move)
    requires Shaped(s) && Enabled(s, m) && ProjectsApart(s.doc)
    ensures ProjectsApart(Apply(s, m).doc)
  {
    var d, d' := s.doc, Apply(s, m).doc;
    assert d'.slug == d.slug;
    if m.RenameProject? {
      assert forall p :: p in d.projects ==> ProjectSlug(d', d'.projects[p]) == ProjectSlug(d, d.projects[p]);
    } else {
      forall p, q | p in d'.projects && q in d'.projects && p != q
        ensures d'.projects[p].name != d'.projects[q].name && ProjectSlug(d', d'.projects[p]) != ProjectSlug(d', d'.projects[q])
      {
      }
    }
  }

  /** Names and slugs of projects stay unique, whatever is created and renamed at once. */
  lemma {:induction false} ProjectsStayApart(run: seq<Sys>, moves: seq<Move>, i: nat)
    requires IsRun(run, moves) && i < |run| && ProjectsApart(run[0].doc)
    ensures ProjectsApart(run[i].doc)
  {
    if i > 0 {
      ProjectsStayApart(run, moves, i - 1);
      StepKeepsProjectsApart(run[i - 1], moves[i - 1]);
    }
  }

  // ---- default branches ----

  /** What a delete of a branch, and a create that takes its own back, have made sure of. */
  ghost predicate SparesDefault(s: Sys, t: nat)
    requires Shaped(s) && t < |s.ops|
  {
    && (s.ops[t].DeleteBranch? && s.pcs[t] == Opened ==>
          && (s.ops[t].branch in s.doc.branches ==> !s.doc.branches[s.ops[t].branch].isDefault)
          && forall u :: 0 <= u < |s.ops| && Creates(s.ops[u]) && s.ops[u].branch == s.ops[t].branch ==> s.pcs[u] == Committed || s.pcs[u] == Over)
    && (s.ops[t].CreateBranch? && s.pcs[t] == Committed && s.ops[t].branch in s.doc.branches ==>
          !s.doc.branches[s.ops[t].branch].isDefault)
  }

  ghost predicate DefaultsAreSpared(s: Sys)
    requires Shaped(s)
  {
    forall t: nat :: t < |s.ops| ==> SparesDefault(s, t)
  }

  lemma ActingSparesDefault(s: Sys, t: nat, action: Action, u: nat)
    requires Inv(s) && MayAct(s, t, action) && u < |s.ops| && SparesDefault(s, u)
    ensures SparesDefault(Acted(s, t, action), u)
  {
    if action.Open? {
      OpeningSparesDefault(s, t, u);
    } else if action.Commit? {
      CommitSparesDefault(s, t, u);
    }
  }

  lemma OpeningSparesDefault(s: Sys, t: nat, u: nat)
    requires Inv(s) && MayAct(s, t, Open) && u < |s.ops| && SparesDefault(s, u)
    ensures SparesDefault(Acted(s, t, Open), u)
  {
    if t == u && s.ops[t].DeleteBranch? {
      forall v: nat | v < |s.ops| && Creates(s.ops[v]) && s.ops[v].branch == s.ops[t].branch && s.ops[t].branch in s.doc.branches
        ensures s.pcs[v] == Committed || s.pcs[v] == Over
      {
        assert OpInv(s, v);
      }
    }
  }

  lemma CommitSparesDefault(s: Sys, t: nat, u: nat)
    requires Inv(s) && MayAct(s, t, Commit) && u < |s.ops| && SparesDefault(s, u)
    ensures SparesDefault(Acted(s, t, Commit), u)
  {
    assert OpInv(s, t);
  }

  lemma StepSparesDefaults(s: Sys, m: Move)
    requires Inv(s) && Enabled(s, m) && DefaultsAreSpared(s)
    ensures Shaped(Apply(s, m)) && DefaultsAreSpared(Apply(s, m))
  {
    StepKeepsInv(s, m);
    var s' := Apply(s, m);
    forall u: nat | u < |s'.ops| ensures SparesDefault(s', u) {
      if u < |s.ops| { assert SparesDefault(s, u); }
      if m.Act? { ActingSparesDefault(s, m.t, m.action, u); }
    }
  }

  lemma {:induction false} RunsSpareDefaults(run: seq<Sys>, moves: seq<Move>, i: nat)
    requires IsRun(run, moves) && i < |run|
    ensures DefaultsAreSpared(run[i])
  {
    if i > 0 {
      RunsSpareDefaults(run, moves, i - 1);
      RunsKeepInv(run, moves, i - 1);
      StepSparesDefaults(run[i - 1], moves[i - 1]);
    }
  }

  /** A default branch's row goes only in the demolition of a project. */
  lemma DefaultGoesWithItsProject(run: seq<Sys>, moves: seq<Move>, i: nat, id: string)
    requires IsRun(run, moves) && i < |moves|
    requires id in run[i].doc.branches && run[i].doc.branches[id].isDefault && id !in run[i + 1].doc.branches
    ensures moves[i].Act? && moves[i].action == Decide(id, true) && run[i].ops[moves[i].t].DeleteProject?
  {
    RunsKeepInv(run, moves, i);
    RunsSpareDefaults(run, moves, i);
    assert run[i + 1] == Apply(run[i], moves[i]);
    if moves[i].Act? { assert SparesDefault(run[i], moves[i].t); }
  }

  // ---- what the steps leave in the document ----

  /** A commit adds the row that was asked for, under the ref that was claimed, and retires the claim; the
      branch a project is created with is its default. */
  lemma CommitAddsTheRow(s: Sys, t: nat)
    requires Inv(s) && MayAct(s, t, Commit)
    ensures var op, d, d' := s.ops[t], s.doc, Acted(s, t, Commit).doc;
      && op.branch !in d.branches && d'.branches.Keys == d.branches.Keys + {op.branch}
      && d'.branches[op.branch] == Branch(op.project, op.name, Some(s.pcs[t].ref), op.CreateProject?, false)
      && (forall id :: id in d.branches ==> d'.branches[id] == d.branches[id])
      && (forall r :: r in d'.claims <==> r in d.claims && r != s.pcs[t].ref) && d'.projects == d.projects
  {
    assert OpInv(s, t);
  }

  /** A decision takes the row away exactly if the demolition was clean, and otherwise marks it; nothing else
      of the document moves. */
  lemma DecisionFollows(s: Sys, t: nat, id: string, clean: bool)
    requires Inv(s) && MayAct(s, t, Decide(id, clean)) && id in s.doc.branches
    ensures var d, d' := s.doc, Acted(s, t, Decide(id, clean)).doc;
      && (id in d'.branches <==> !clean) && (!clean ==> d'.branches[id] == d.branches[id].(cleanupFailed := true))
      && (forall x :: x != id ==> (x in d'.branches <==> x in d.branches) && (x in d.branches ==> d'.branches[x] == d.branches[x]))
      && d'.claims == d.claims && d'.projects == d.projects
  {
  }
}

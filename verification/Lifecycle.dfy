/**
 Projects and branches over the operation lock: create, delete and rename, in any interleaving, with
 failures and their compensation.

 A branch's resources carry no owner. They are named after its ref, and the ref is claimed before the
 first of them exists, kept by the row from the commit on, and frozen by every rename.
 */
module Lifecycle {
  import opened Options
  import opened OpLock
  import LockSafety
  import opened ServiceKeys

  datatype Project = Project(name: string, refSlug: Option<string>)

  datatype Branch = Branch(project: string, name: string, ref: Option<string>, isDefault: bool, cleanupFailed: bool)

  /** The part of the state document these operations write. `claims` are the branch reservations;
      `slug` is how a name is cut down to what docker accepts, any function at all. */
  datatype Doc = Doc(slug: string -> string, projects: map<string, Project>, branches: map<string, Branch>, claims: map<string, string>)

  datatype Op =
    | CreateProject(project: string, name: string, branch: string)
    | CreateBranch(project: string, name: string, branch: string)
    | DeleteBranch(project: string, branch: string)
    | DeleteProject(project: string)
    | OtherOp

  datatype Pc =
    | Fresh
    | Opened
    | Reserved(ref: string)
    | RollingBack(ref: string)
    | Aborting
    | Committed
    | Demolishing(todo: set<string>, kept: bool)
    | Over

  /** `bytes` says whose data lies under a ref; `built` are the branches that have written any and
      whose demolition has not begun. */
  datatype Sys = Sys(lock: LockState, ops: seq<Op>, pcs: seq<Pc>, doc: Doc, bytes: map<string, string>, built: set<string>)

  /** What a running body does next. */
  datatype Action =
    | Open
    | Reserve
    | Build
    | GiveUp
    | RemoveRoots
    | Unclaim
    | Commit
    | Write(id: string)
    | Tear(id: string)
    | Decide(id: string, clean: bool)
    | DropProject

  /** A step of the lock (`op` is what a new acquisition is for), of a body, or a rename: a rename
      takes no lock and happens all at once. */
  datatype Move =
    | Locking(step: LockSafety.Step, op: Op)
    | Act(t: nat, action: Action)
    | RenameBranch(id: string, name: string)
    | RenameProject(project: string, to: string)

  // ---- names and refs ----

  function ProjectSlug(d: Doc, p: Project): string {
    if p.refSlug.Some? then p.refSlug.value else d.slug(p.name)
  }

  function RefOf(d: Doc, project: string, name: string): string {
    (if project in d.projects then ProjectSlug(d, d.projects[project]) else "") + "-" + d.slug(name)
  }

  /** The ref a branch row answers to: recorded, or derived for a row from before refs were. */
  function Ref(d: Doc, id: string): string
    requires id in d.branches
  {
    var b := d.branches[id];
    if b.ref.Some? then b.ref.value else RefOf(d, b.project, b.name)
  }

  // ---- the steps ----

  predicate Shaped(s: Sys) {
    |s.ops| == |s.pcs| == |s.lock.tickets|
  }

  predicate Creates(op: Op) { op.CreateProject? || op.CreateBranch? }

  /** The keys an operation asks for: the project's for everything that adds a branch or removes a
      project, the branch's for everything that removes one. Minted ids are new. */
  ghost predicate Asks(s: Sys, op: Op, keys: set<Key>) {
    && (op.CreateProject? || op.CreateBranch? || op.DeleteProject? ==> ProjectKey(op.project) in keys)
    && (op.CreateBranch? || op.DeleteBranch? ==> BranchKey(op.branch) in keys)
    && (Creates(op) ==> op.branch !in s.doc.branches && op.branch !in s.built)
    && (Creates(op) ==> forall r :: r in s.doc.claims ==> s.doc.claims[r] != op.branch)
    && (Creates(op) ==> forall t :: 0 <= t < |s.ops| && Creates(s.ops[t]) ==> s.ops[t].branch != op.branch)
    && (Creates(op) ==> forall t :: 0 <= t < |s.ops| && s.ops[t].DeleteBranch? ==> s.ops[t].branch != op.branch)
    && (op.CreateProject? ==> op.project !in s.doc.projects)
    && (op.CreateProject? ==> forall t :: 0 <= t < |s.ops| && s.ops[t].CreateProject? ==> s.ops[t].project != op.project)
  }

  /** The branches a body is demolishing: its own half-built one, the one it was asked to delete, or
      the ones its project delete still has to do. */
  predicate InCharge(op: Op, pc: Pc, id: string) {
    match op
    case CreateBranch(_, _, b) => pc == Committed && id == b
    case DeleteBranch(_, b) => pc == Opened && id == b
    case DeleteProject(_) => pc.Demolishing? && id in pc.todo
    case _ => false
  }

  ghost predicate MayLock(s: Sys, step: LockSafety.Step, op: Op)
    requires Shaped(s)
  {
    && LockSafety.Enabled(s.lock, step)
    && match step
       case Take(None, keys, _) => Asks(s, op, keys)
       case Take(Some(_), _, _) => op.OtherOp?
       case Start(_) => true
       case Stop(t) => !s.pcs[t].Reserved? && !s.pcs[t].RollingBack? && (s.ops[t].CreateProject? ==> s.pcs[t] == Committed || s.pcs[t] == Over)
  }

  predicate MayAct(s: Sys, t: nat, action: Action)
    requires Shaped(s)
  {
    && LockSafety.Runs(s.lock, t)
    && var op, pc := s.ops[t], s.pcs[t];
       match action
       case Open => pc == Fresh && !op.OtherOp?
       case Reserve => pc == Opened && Creates(op)
       case Build => pc.Reserved? && Creates(op)
       case GiveUp => pc.Reserved? && Creates(op)
       case RemoveRoots => pc.RollingBack? && Creates(op) && pc.ref in s.doc.claims && s.doc.claims[pc.ref] == op.branch
       case Unclaim => pc.RollingBack? && Creates(op)
       case Commit => pc.Reserved? && Creates(op)
       case Write(id) =>
         && id in s.doc.branches
         && if op.OtherOp? then BranchKey(id) in s.lock.tickets[t].owned else op.CreateBranch? && InCharge(op, pc, id)
       case Tear(id) => InCharge(op, pc, id) && id in s.doc.branches
       case Decide(id, _) => InCharge(op, pc, id)
       case DropProject => (op.CreateProject? && pc == Aborting) || (op.DeleteProject? && pc.Demolishing? && pc.todo == {})
  }

  ghost predicate Enabled(s: Sys, m: Move)
    requires Shaped(s)
  {
    match m
    case Locking(step, op) => MayLock(s, step, op)
    case Act(t, action) => MayAct(s, t, action)
    case RenameBranch(id, name) =>
      && id in s.doc.branches && !s.doc.branches[id].isDefault
      && (name != s.doc.branches[id].name ==> !NameTaken(s.doc, s.doc.branches[id].project, name))
    case RenameProject(p, name) =>
      && p in s.doc.projects
      && (name != s.doc.projects[p].name ==> forall q :: q in s.doc.projects ==> s.doc.projects[q].name != name)
  }

  predicate NameTaken(d: Doc, project: string, name: string) {
    exists id :: id in d.branches && d.branches[id].project == project && d.branches[id].name == name
  }

  predicate ProjectClash(d: Doc, name: string) {
    exists q :: q in d.projects && (d.projects[q].name == name || ProjectSlug(d, d.projects[q]) == d.slug(name))
  }

  /** `reserveBranchRef`: the name is unique in its project, the ref in the whole daemon. */
  predicate MayClaim(d: Doc, project: string, name: string, ref: string, branch: string) {
    && !NameTaken(d, project, name)
    && (forall id :: id in d.branches ==> Ref(d, id) != ref)
    && (ref in d.claims ==> d.claims[ref] == branch)
  }

  function Released(d: Doc, ref: string, branch: string): Doc {
    if ref in d.claims && d.claims[ref] == branch then d.(claims := d.claims - {ref}) else d
  }

  /** A reservation given back leaves the document as it was found, but for a claim of one's own that an
      earlier attempt had left. */
  lemma ReleaseUndoesReserve(d: Doc, project: string, name: string, ref: string, branch: string)
    requires MayClaim(d, project, name, ref, branch)
    ensures Released(d.(claims := d.claims[ref := branch]), ref, branch) == d.(claims := d.claims - {ref})
    ensures ref !in d.claims ==> Released(d.(claims := d.claims[ref := branch]), ref, branch) == d
  {
    assert d.claims[ref := branch] - {ref} == d.claims - {ref};
    if ref !in d.claims { assert d.claims - {ref} == d.claims; }
  }

  function At(s: Sys, t: nat, pc: Pc): Sys
    requires t < |s.pcs|
  {
    s.(pcs := s.pcs[t := pc])
  }

  function BranchesOf(d: Doc, project: string): set<string> {
    set id | id in d.branches && d.branches[id].project == project
  }

  function Opening(s: Sys, t: nat): Sys
    requires Shaped(s) && t < |s.ops| && !s.ops[t].OtherOp?
  {
    match s.ops[t]
    case CreateProject(p, name, _) =>
      if ProjectClash(s.doc, name) then At(s, t, Over)
      else At(s, t, Opened).(doc := s.doc.(projects := s.doc.projects[p := Project(name, Some(s.doc.slug(name)))]))
    case CreateBranch(p, name, _) =>
      if p !in s.doc.projects || NameTaken(s.doc, p, name) then At(s, t, Over) else At(s, t, Opened)
    case DeleteBranch(p, b) =>
      if b !in s.doc.branches || s.doc.branches[b].project != p || s.doc.branches[b].isDefault then At(s, t, Over) else At(s, t, Opened)
    case DeleteProject(p) => At(s, t, Demolishing(BranchesOf(s.doc, p), false))
  }

  function Reserving(s: Sys, t: nat): Sys
    requires Shaped(s) && t < |s.ops| && Creates(s.ops[t])
  {
    var op := s.ops[t];
    var ref := RefOf(s.doc, op.project, op.name);
    if MayClaim(s.doc, op.project, op.name, ref, op.branch) then
      At(s, t, Reserved(ref)).(doc := s.doc.(claims := s.doc.claims[ref := op.branch]))
    else At(s, t, Aborting)
  }

  function Committing(s: Sys, t: nat): Sys
    requires Shaped(s) && t < |s.ops| && Creates(s.ops[t]) && s.pcs[t].Reserved?
  {
    var op, ref := s.ops[t], s.pcs[t].ref;
    var row := Branch(op.project, op.name, Some(ref), op.CreateProject?, false);
    At(s, t, Committed).(doc := Released(s.doc.(branches := s.doc.branches[op.branch := row]), ref, op.branch))
  }

  function Deciding(s: Sys, t: nat, id: string, clean: bool): Sys
    requires Shaped(s) && t < |s.ops| && InCharge(s.ops[t], s.pcs[t], id)
  {
    var pc := if s.pcs[t].Demolishing? then Demolishing(s.pcs[t].todo - {id}, s.pcs[t].kept || !clean) else Over;
    var branches :=
      if clean then s.doc.branches - {id}
      else if id in s.doc.branches then s.doc.branches[id := s.doc.branches[id].(cleanupFailed := true)]
      else s.doc.branches;
    At(s, t, pc).(doc := s.doc.(branches := branches))
  }

  function Renamed(d: Doc, id: string, name: string): Doc
    requires id in d.branches
  {
    d.(branches := d.branches[id := d.branches[id].(ref := Some(Ref(d, id)), name := name)])
  }

  function ProjectRenamed(d: Doc, p: string, name: string): Doc
    requires p in d.projects
  {
    d.(projects := d.projects[p := Project(name, Some(ProjectSlug(d, d.projects[p])))])
  }

  function Acted(s: Sys, t: nat, action: Action): Sys
    requires Shaped(s) && MayAct(s, t, action)
  {
    var op, pc := s.ops[t], s.pcs[t];
    match action
    case Open => Opening(s, t)
    case Reserve => Reserving(s, t)
    case Build => s.(bytes := s.bytes[pc.ref := op.branch], built := s.built + {op.branch})
    case GiveUp => At(s, t, RollingBack(pc.ref))
    case RemoveRoots => s.(bytes := s.bytes - {pc.ref}, built := s.built - {op.branch})
    case Unclaim => At(s, t, Aborting).(doc := Released(s.doc, pc.ref, op.branch))
    case Commit => Committing(s, t)
    case Write(id) => s.(bytes := s.bytes[Ref(s.doc, id) := id], built := s.built + {id})
    case Tear(id) => s.(bytes := s.bytes - {Ref(s.doc, id)}, built := s.built - {id})
    case Decide(id, clean) => Deciding(s, t, id, clean)
    case DropProject =>
      if op.DeleteProject? && pc.kept then At(s, t, Over)
      else At(s, t, Over).(doc := s.doc.(projects := s.doc.projects - {op.project}))
  }

  ghost function Locked(s: Sys, step: LockSafety.Step, op: Op): Sys
    requires Shaped(s) && MayLock(s, step, op)
  {
    var lock := LockSafety.Apply(s.lock, step);
    if step.Take? then s.(lock := lock, ops := s.ops + [op], pcs := s.pcs + [Fresh]) else s.(lock := lock)
  }

  ghost function Apply(s: Sys, m: Move): Sys
    requires Shaped(s) && Enabled(s, m)
  {
    match m
    case Locking(step, op) => Locked(s, step, op)
    case Act(t, action) => Acted(s, t, action)
    case RenameBranch(id, name) => s.(doc := Renamed(s.doc, id, name))
    case RenameProject(p, name) => s.(doc := ProjectRenamed(s.doc, p, name))
  }

  // ---- the document's own writes ----

  /** Each of these is one synchronous read-modify-write, which leaves the document alone when it
      refuses. */
  class Document {
    var doc: Doc

    constructor (doc: Doc)
      ensures this.doc == doc
    {
      this.doc := doc;
    }

    /** `reserveBranchRef`. */
    method ReserveBranchRef(project: string, name: string, ref: string, branch: string) returns (ok: bool)
      modifies this
      ensures ok <==> MayClaim(old(doc), project, name, ref, branch)
      ensures doc == if ok then old(doc).(claims := old(doc).claims[ref := branch]) else old(doc)
    {
      var rest := doc.branches.Keys;
      while rest != {}
        invariant rest <= doc.branches.Keys
        invariant doc == old(doc)
        invariant forall id :: id in doc.branches && id !in rest ==>
          !(doc.branches[id].project == project && doc.branches[id].name == name) && Ref(doc, id) != ref
      {
        var id :| id in rest;
        var row := doc.branches[id];
        if row.project == project && row.name == name {
          return false;
        }
        if Ref(doc, id) == ref {
          return false;
        }
        rest := rest - {id};
      }
      if ref in doc.claims && doc.claims[ref] != branch {
        return false;
      }
      doc := doc.(claims := doc.claims[ref := branch]);
      ok := true;
    }

    /** `releaseBranchRef`: only one's own claim. */
    method ReleaseBranchRef(ref: string, branch: string)
      modifies this
      ensures doc == Released(old(doc), ref, branch)
      // One's own claim on the ref is gone, every other stands, and nothing else of the document moves.
      ensures ref in doc.claims ==> doc.claims[ref] != branch
      ensures forall r :: r in doc.claims <==> r in old(doc).claims && !(r == ref && old(doc).claims[r] == branch)
      ensures forall r :: r in doc.claims ==> doc.claims[r] == old(doc).claims[r]
      ensures doc.projects == old(doc).projects && doc.branches == old(doc).branches
      // So whoever holds the ref still holds it, and otherwise the next branch of that name may have it.
      ensures forall project, name, other :: other != branch ==>
        (MayClaim(doc, project, name, ref, other) <==>
         MayClaim(old(doc), project, name, ref, other) || (MayClaim(old(doc), project, name, ref, branch) && ref !in doc.claims))
    {
      if ref in doc.claims && doc.claims[ref] == branch {
        doc := doc.(claims := doc.claims - {ref});
      }
    }

    /** `renameBranch`: the ref is frozen before the name moves. */
    method RenameBranchRow(id: string, name: string) returns (ok: bool)
      modifies this
      ensures ok <==>
        && id in old(doc).branches && !old(doc).branches[id].isDefault
        && (name == old(doc).branches[id].name || !NameTaken(old(doc), old(doc).branches[id].project, name))
      ensures doc == if ok then Renamed(old(doc), id, name) else old(doc)
    {
      if id !in doc.branches || doc.branches[id].isDefault {
        return false;
      }
      var row := doc.branches[id];
      if name != row.name && NameTaken(doc, row.project, name) {
        return false;
      }
      if row.ref.None? {
        row := row.(ref := Some(RefOf(doc, row.project, row.name)));
      }
      doc := doc.(branches := doc.branches[id := row.(name := name)]);
      ok := true;
    }

    /** `renameProject`: the slug is frozen before the name moves. */
    method RenameProjectRow(p: string, name: string) returns (ok: bool)
      modifies this
      ensures ok <==>
        && p in old(doc).projects
        && (name == old(doc).projects[p].name || forall q :: q in old(doc).projects ==> old(doc).projects[q].name != name)
      ensures doc == if ok then ProjectRenamed(old(doc), p, name) else old(doc)
    {
      if p !in doc.projects {
        return false;
      }
      var row := doc.projects[p];
      if name != row.name && exists q :: q in doc.projects && doc.projects[q].name == name {
        return false;
      }
      if row.refSlug.None? {
        row := row.(refSlug := Some(doc.slug(row.name)));
      }
      doc := doc.(projects := doc.projects[p := row.(name := name)]);
      ok := true;
    }
  }

  // ---- the invariant ----

  /** No two branch rows answer to one ref, no claim is on the ref of a row or owned by one, every
      row's project exists, and what lies under a branch's ref is its own. */
  ghost predicate DocInv(s: Sys) {
    && (forall id :: id in s.doc.branches ==> s.doc.branches[id].project in s.doc.projects)
    && (forall a, b :: a in s.doc.branches && b in s.doc.branches && a != b ==> Ref(s.doc, a) != Ref(s.doc, b))
    && (forall id :: id in s.doc.branches ==> Ref(s.doc, id) !in s.doc.claims)
    && (forall r :: r in s.doc.claims ==> s.doc.claims[r] !in s.doc.branches)
    && (forall id :: id in s.doc.branches && id in s.built ==> Ref(s.doc, id) in s.bytes && s.bytes[Ref(s.doc, id)] == id)
  }

  predicate NeedsProjectKey(op: Op) { op.CreateProject? || op.CreateBranch? || op.DeleteProject? }

  predicate PcFits(op: Op, pc: Pc) {
    match pc
    case Reserved(_) => Creates(op)
    case RollingBack(_) => Creates(op)
    case Aborting => Creates(op)
    case Demolishing(_, _) => op.DeleteProject?
    case Fresh => true
    case _ => !op.OtherOp?
  }

  /** A create before its commit: its row is not there, and its ref, once claimed, is its own. */
  ghost predicate CreateInv(s: Sys, op: Op, pc: Pc, runs: bool)
    requires Creates(op)
  {
    && (pc != Committed && pc != Over ==> op.branch !in s.doc.branches)
    && (pc == Fresh || pc == Opened ==> op.branch !in s.built)
    && (pc == Fresh || pc == Opened ==> forall r :: r in s.doc.claims ==> s.doc.claims[r] != op.branch)
    && (pc.Reserved? || pc.RollingBack? ==> forall r :: r in s.doc.claims && s.doc.claims[r] == op.branch ==> r == pc.ref)
    && (pc == Fresh && op.CreateProject? ==> op.project !in s.doc.projects)
    && (runs && (pc == Opened || pc.Reserved? || pc.RollingBack?) ==> op.project in s.doc.projects)
    && (runs && (pc.Reserved? || pc.RollingBack?) ==> pc.ref in s.doc.claims && s.doc.claims[pc.ref] == op.branch)
    && (runs && pc.Reserved? && op.branch in s.built ==> pc.ref in s.bytes && s.bytes[pc.ref] == op.branch)
    && (runs && op.CreateProject? && pc != Committed && pc != Over ==> BranchesOf(s.doc, op.project) == {})
  }

  ghost predicate OpInv(s: Sys, t: nat)
    requires Shaped(s) && t < |s.ops|
  {
    var op, pc, runs := s.ops[t], s.pcs[t], LockSafety.Runs(s.lock, t);
    && (NeedsProjectKey(op) ==> LockSafety.Takes(s.lock, t, ProjectKey(op.project)))
    && (s.lock.tickets[t].phase == Waiting ==> pc == Fresh)
    && PcFits(op, pc)
    && (Creates(op) ==> CreateInv(s, op, pc, runs))
    && (runs && pc.Demolishing? ==> pc.kept || BranchesOf(s.doc, op.project) <= pc.todo)
  }

  ghost predicate Distinct(s: Sys) {
    && (forall t, u :: 0 <= t < u < |s.ops| && Creates(s.ops[t]) && Creates(s.ops[u]) ==> s.ops[t].branch != s.ops[u].branch)
    && (forall t, u :: 0 <= t < u < |s.ops| && s.ops[t].CreateProject? && s.ops[u].CreateProject? ==> s.ops[t].project != s.ops[u].project)
  }

  ghost predicate Inv(s: Sys) {
    && Shaped(s) && LockSafety.Inv(s.lock) && Distinct(s) && DocInv(s)
    && forall t: nat :: t < |s.ops| ==> OpInv(s, t)
  }

  /** Two running bodies that hold a project's key are one. */
  lemma OnePerProject(s: Sys, t: nat, u: nat)
    requires Inv(s) && LockSafety.Runs(s.lock, t) && LockSafety.Runs(s.lock, u) && t != u
    requires NeedsProjectKey(s.ops[t]) && NeedsProjectKey(s.ops[u])
    ensures s.ops[t].project != s.ops[u].project
  {
    assert OpInv(s, t) && OpInv(s, u);
    LockSafety.MutualExclusion(s.lock, t, u);
  }

  // ---- refs never move ----

  lemma RenameFreezes(d: Doc, id: string, name: string, x: string)
    requires id in d.branches && x in d.branches
    ensures Ref(Renamed(d, id, name), x) == Ref(d, x)
  {
  }

  lemma ProjectRenameFreezes(d: Doc, p: string, name: string, x: string)
    requires p in d.projects && x in d.branches
    ensures Ref(ProjectRenamed(d, p, name), x) == Ref(d, x)
  {
  }

  /** A project is dropped only when no row of it is left. */
  lemma DroppedProjectIsEmpty(s: Sys, t: nat, x: string)
    requires Inv(s) && MayAct(s, t, DropProject) && x in s.doc.branches
    requires s.ops[t].project !in Acted(s, t, DropProject).doc.projects
    ensures s.doc.branches[x].project != s.ops[t].project
  {
    assert OpInv(s, t);
    assert s.doc.branches[x].project == s.ops[t].project ==> x in BranchesOf(s.doc, s.ops[t].project);
  }

  lemma OpeningMovesNoRef(s: Sys, t: nat, x: string)
    requires Inv(s) && MayAct(s, t, Open) && x in s.doc.branches
    ensures x in Opening(s, t).doc.branches && Ref(Opening(s, t).doc, x) == Ref(s.doc, x)
  {
    assert OpInv(s, t);
    assert s.doc.branches[x].project in s.doc.projects;
  }

  lemma DecidingMovesNoRef(s: Sys, t: nat, id: string, clean: bool, x: string)
    requires Inv(s) && MayAct(s, t, Decide(id, clean)) && x in s.doc.branches && x in Deciding(s, t, id, clean).doc.branches
    ensures Ref(Deciding(s, t, id, clean).doc, x) == Ref(s.doc, x)
  {
  }

  lemma ActingMovesNoRef(s: Sys, t: nat, action: Action, x: string)
    requires Inv(s) && MayAct(s, t, action)
    requires x in s.doc.branches && x in Acted(s, t, action).doc.branches
    ensures Ref(Acted(s, t, action).doc, x) == Ref(s.doc, x)
  {
    assert OpInv(s, t);
    match action
    case Open => OpeningMovesNoRef(s, t, x);
    case Decide(id, clean) => DecidingMovesNoRef(s, t, id, clean, x);
    case DropProject =>
      if s.ops[t].project !in Acted(s, t, action).doc.projects {
        DroppedProjectIsEmpty(s, t, x);
      }
    case _ =>
  }

  /** No step moves a ref: not a rename of the branch, not a rename of its project. */
  lemma RefNeverMoves(s: Sys, m: Move, id: string)
    requires Inv(s) && Enabled(s, m)
    requires id in s.doc.branches && id in Apply(s, m).doc.branches
    ensures Ref(Apply(s, m).doc, id) == Ref(s.doc, id)
  {
    match m
    case Locking(_, _) =>
    case Act(t, action) => ActingMovesNoRef(s, t, action, id);
    case RenameBranch(x, name) => RenameFreezes(s.doc, x, name, id);
    case RenameProject(p, name) => ProjectRenameFreezes(s.doc, p, name, id);
  }

  // ---- every step keeps the invariant ----

  /** One more project changes nothing for a body that is not creating it. */
  lemma ProjectsGrow(s: Sys, s': Sys, u: nat)
    requires Shaped(s) && Shaped(s') && u < |s.ops| && OpInv(s, u)
    requires s'.lock == s.lock && s'.ops == s.ops && s'.pcs[u] == s.pcs[u] && s'.bytes == s.bytes && s'.built == s.built
    requires s'.doc.branches == s.doc.branches && s'.doc.claims == s.doc.claims
    requires s.doc.projects.Keys <= s'.doc.projects.Keys
    requires s.ops[u].CreateProject? ==> (s.ops[u].project in s'.doc.projects <==> s.ops[u].project in s.doc.projects)
    ensures OpInv(s', u)
  {
    assert forall p :: BranchesOf(s'.doc, p) == BranchesOf(s.doc, p);
  }

  lemma OpeningKeepsOther(s: Sys, t: nat, u: nat)
    requires Inv(s) && MayAct(s, t, Open) && u < |s.ops| && u != t
    ensures OpInv(Opening(s, t), u)
  {
    ProjectsGrow(s, Opening(s, t), u);
  }

  lemma OpeningKeepsOp(s: Sys, t: nat, u: nat)
    requires Inv(s) && MayAct(s, t, Open) && u < |s.ops|
    ensures OpInv(Opening(s, t), u)
  {
    assert OpInv(s, t) && OpInv(s, u);
    if u != t {
      OpeningKeepsOther(s, t, u);
    }
  }

  lemma OpeningKeepsInv(s: Sys, t: nat)
    requires Inv(s) && MayAct(s, t, Open)
    ensures Inv(Opening(s, t))
  {
    var s' := Opening(s, t);
    forall x | x in s'.doc.branches ensures Ref(s'.doc, x) == Ref(s.doc, x) {
      ActingMovesNoRef(s, t, Open, x);
    }
    forall u: nat | u < |s.ops| ensures OpInv(s', u) { OpeningKeepsOp(s, t, u); }
  }

  lemma ReservingKeepsOwn(s: Sys, t: nat)
    requires Inv(s) && MayAct(s, t, Reserve)
    ensures OpInv(Reserving(s, t), t)
  {
    assert OpInv(s, t);
  }

  lemma ReservingKeepsOther(s: Sys, t: nat, u: nat)
    requires Inv(s) && MayAct(s, t, Reserve) && u < |s.ops| && u != t
    ensures OpInv(Reserving(s, t), u)
  {
    assert OpInv(s, u) && Creates(s.ops[t]);
    assert Creates(s.ops[u]) ==> s.ops[u].branch != s.ops[t].branch;
  }

  lemma ReservingKeepsOp(s: Sys, t: nat, u: nat)
    requires Inv(s) && MayAct(s, t, Reserve) && u < |s.ops|
    ensures OpInv(Reserving(s, t), u)
  {
    if u == t { ReservingKeepsOwn(s, t); } else { ReservingKeepsOther(s, t, u); }
  }

  lemma ReservingKeepsInv(s: Sys, t: nat)
    requires Inv(s) && MayAct(s, t, Reserve)
    ensures Inv(Reserving(s, t))
  {
    var s' := Reserving(s, t);
    assert OpInv(s, t);
    forall x | x in s'.doc.branches ensures Ref(s'.doc, x) == Ref(s.doc, x) {
      ActingMovesNoRef(s, t, Reserve, x);
    }
    forall u: nat | u < |s.ops| ensures OpInv(s', u) { ReservingKeepsOp(s, t, u); }
  }

  lemma BuildingKeepsInv(s: Sys, t: nat)
    requires Inv(s) && MayAct(s, t, Build)
    ensures Inv(Acted(s, t, Build))
  {
    var s' := Acted(s, t, Build);
    assert OpInv(s, t);
    forall u: nat | u < |s.ops| ensures OpInv(s', u) {
      assert OpInv(s, u);
    }
  }

  lemma CommittingKeepsInv(s: Sys, t: nat)
    requires Inv(s) && MayAct(s, t, Commit)
    ensures Inv(Committing(s, t))
  {
    var s' := Committing(s, t);
    assert OpInv(s, t);
    forall x | x in s.doc.branches ensures Ref(s'.doc, x) == Ref(s.doc, x) {
      ActingMovesNoRef(s, t, Commit, x);
    }
    forall u: nat | u < |s.ops| ensures OpInv(s', u) {
      assert OpInv(s, u);
      if u != t && LockSafety.Runs(s.lock, u) && NeedsProjectKey(s.ops[u]) {
        OnePerProject(s, t, u);
      }
    }
  }

  /** Giving up, removing the half-written roots, releasing the claim. */
  lemma RollingBackKeepsInv(s: Sys, t: nat, action: Action)
    requires Inv(s) && MayAct(s, t, action) && (action.GiveUp? || action.RemoveRoots? || action.Unclaim?)
    ensures Inv(Acted(s, t, action))
  {
    var s' := Acted(s, t, action);
    assert OpInv(s, t);
    forall x | x in s'.doc.branches ensures Ref(s'.doc, x) == Ref(s.doc, x) {
      ActingMovesNoRef(s, t, action, x);
    }
    forall u: nat | u < |s.ops| ensures OpInv(s', u) {
      assert OpInv(s, u);
    }
  }

  /** Data written and torn down under a row's ref. */
  lemma BytesKeepInv(s: Sys, t: nat, action: Action)
    requires Inv(s) && MayAct(s, t, action) && (action.Write? || action.Tear?)
    ensures Inv(Acted(s, t, action))
  {
    var s' := Acted(s, t, action);
    forall u: nat | u < |s.ops| ensures OpInv(s', u) {
      assert OpInv(s, u);
    }
  }

  lemma DecidingKeepsOp(s: Sys, t: nat, id: string, clean: bool, u: nat)
    requires Inv(s) && MayAct(s, t, Decide(id, clean)) && u < |s.ops|
    ensures OpInv(Deciding(s, t, id, clean), u)
  {
    assert OpInv(s, t) && OpInv(s, u);
  }

  lemma DecidingKeepsInv(s: Sys, t: nat, id: string, clean: bool)
    requires Inv(s) && MayAct(s, t, Decide(id, clean))
    ensures Inv(Deciding(s, t, id, clean))
  {
    var s' := Deciding(s, t, id, clean);
    forall x | x in s'.doc.branches ensures Ref(s'.doc, x) == Ref(s.doc, x) {
      ActingMovesNoRef(s, t, Decide(id, clean), x);
    }
    forall u: nat | u < |s.ops| ensures OpInv(s', u) { DecidingKeepsOp(s, t, id, clean, u); }
  }

  lemma DroppingKeepsOp(s: Sys, t: nat, u: nat)
    requires Inv(s) && MayAct(s, t, DropProject) && u < |s.ops|
    ensures OpInv(Acted(s, t, DropProject), u)
  {
    assert OpInv(s, t) && OpInv(s, u);
    if u != t && LockSafety.Runs(s.lock, u) && NeedsProjectKey(s.ops[u]) {
      OnePerProject(s, t, u);
    }
  }

  lemma DroppingKeepsInv(s: Sys, t: nat)
    requires Inv(s) && MayAct(s, t, DropProject)
    ensures Inv(Acted(s, t, DropProject))
  {
    var s' := Acted(s, t, DropProject);
    forall x | x in s'.doc.branches
      ensures Ref(s'.doc, x) == Ref(s.doc, x) && s'.doc.branches[x].project in s'.doc.projects
    {
      ActingMovesNoRef(s, t, DropProject, x);
      if s.ops[t].project !in s'.doc.projects {
        DroppedProjectIsEmpty(s, t, x);
      }
    }
    forall u: nat | u < |s.ops| ensures OpInv(s', u) { DroppingKeepsOp(s, t, u); }
  }

  lemma RenamingKeepsInv(s: Sys, m: Move)
    requires Inv(s) && Enabled(s, m) && (m.RenameBranch? || m.RenameProject?)
    ensures Inv(Apply(s, m))
  {
    var s' := Apply(s, m);
    forall x | x in s'.doc.branches ensures Ref(s'.doc, x) == Ref(s.doc, x) { RefNeverMoves(s, m, x); }
    forall p ensures BranchesOf(s'.doc, p) == BranchesOf(s.doc, p) {}
    forall u: nat | u < |s.ops| ensures OpInv(s', u) {
      assert OpInv(s, u);
    }
  }

  lemma LockingKeepsInv(s: Sys, step: LockSafety.Step, op: Op)
    requires Inv(s) && MayLock(s, step, op)
    ensures Inv(Locked(s, step, op))
  {
    var s' := Locked(s, step, op);
    LockSafety.StepKeepsInv(s.lock, step);
    forall u: nat | u < |s'.ops| ensures OpInv(s', u) {
      if u < |s.ops| {
        assert OpInv(s, u);
      }
    }
  }

  lemma StepKeepsInv(s: Sys, m: Move)
    requires Inv(s) && Enabled(s, m)
    ensures Inv(Apply(s, m))
  {
    match m
    case Locking(step, op) => LockingKeepsInv(s, step, op);
    case RenameBranch(_, _) => RenamingKeepsInv(s, m);
    case RenameProject(_, _) => RenamingKeepsInv(s, m);
    case Act(t, action) =>
      match action
      case Open => OpeningKeepsInv(s, t);
      case Reserve => ReservingKeepsInv(s, t);
      case Build => BuildingKeepsInv(s, t);
      case Commit => CommittingKeepsInv(s, t);
      case Decide(id, clean) => DecidingKeepsInv(s, t, id, clean);
      case DropProject => DroppingKeepsInv(s, t);
      case Write(_) => BytesKeepInv(s, t, action);
      case Tear(_) => BytesKeepInv(s, t, action);
      case _ => RollingBackKeepsInv(s, t, action);
  }

  // ---- whole runs ----

  /** A daemon's run: it boots over some document, with no operation under way. */
  ghost predicate IsRun(run: seq<Sys>, moves: seq<Move>) {
    && |run| == |moves| + 1
    && run[0].lock == LockState(map[], []) && run[0].ops == [] && run[0].pcs == [] && DocInv(run[0])
    && (forall i :: 0 <= i < |run| ==> Shaped(run[i]))
    && forall i :: 0 <= i < |moves| ==> Enabled(run[i], moves[i]) && run[i + 1] == Apply(run[i], moves[i])
  }

  lemma {:induction false} RunsKeepInv(run: seq<Sys>, moves: seq<Move>, i: nat)
    requires IsRun(run, moves) && i < |run|
    ensures Inv(run[i])
  {
    if i == 0 {
      assert forall k :: LockSafety.EntryInv(run[0].lock, k);
    } else {
      RunsKeepInv(run, moves, i - 1);
      StepKeepsInv(run[i - 1], moves[i - 1]);
    }
  }

  /** Referential integrity, and one owner per ref. */
  lemma RowsAreSound(run: seq<Sys>, moves: seq<Move>, i: nat, id: string, other: string)
    requires IsRun(run, moves) && i < |run| && id in run[i].doc.branches
    ensures run[i].doc.branches[id].project in run[i].doc.projects
    ensures Ref(run[i].doc, id) !in run[i].doc.claims
    ensures other in run[i].doc.branches && other != id ==> Ref(run[i].doc, other) != Ref(run[i].doc, id)
  {
    RunsKeepInv(run, moves, i);
  }

  ghost predicate Present(run: seq<Sys>, id: string, i: nat, j: nat)
    requires i <= j < |run|
  {
    forall x :: i <= x <= j ==> id in run[x].doc.branches
  }

  lemma PresentBefore(run: seq<Sys>, id: string, i: nat, j: nat)
    requires i < j < |run| && Present(run, id, i, j)
    ensures Present(run, id, i, j - 1) && id in run[j - 1].doc.branches && id in run[j].doc.branches
  {
  }

  lemma RefStays(run: seq<Sys>, moves: seq<Move>, i: nat, id: string)
    requires IsRun(run, moves) && i < |moves| && id in run[i].doc.branches && id in run[i + 1].doc.branches
    ensures Ref(run[i + 1].doc, id) == Ref(run[i].doc, id)
  {
    RunsKeepInv(run, moves, i);
    RefNeverMoves(run[i], moves[i], id);
  }

  lemma {:induction false} RefChain(run: seq<Sys>, i: nat, j: nat, id: string)
    requires i <= j < |run| && Present(run, id, i, j)
    requires forall x :: i <= x < j ==> Ref(run[x + 1].doc, id) == Ref(run[x].doc, id)
    ensures Ref(run[j].doc, id) == Ref(run[i].doc, id)
    decreases j
  {
    if i < j {
      PresentBefore(run, id, i, j);
      RefChain(run, i, j - 1, id);
      assert Ref(run[j - 1 + 1].doc, id) == Ref(run[j - 1].doc, id);
    }
  }

  /** A branch keeps its ref for as long as it is there. */
  lemma RefIsForever(run: seq<Sys>, moves: seq<Move>, i: nat, j: nat, id: string)
    requires IsRun(run, moves) && i <= j < |run| && Present(run, id, i, j)
    ensures Ref(run[j].doc, id) == Ref(run[i].doc, id)
  {
    forall x | i <= x < j ensures Ref(run[x + 1].doc, id) == Ref(run[x].doc, id) { RefStays(run, moves, x, id); }
    RefChain(run, i, j, id);
  }

  /** The branch whose data roots a step removes. */
  function Victim(s: Sys, t: nat, action: Action): Option<string>
    requires Shaped(s) && t < |s.ops|
  {
    if action.RemoveRoots? && Creates(s.ops[t]) then Some(s.ops[t].branch)
    else if action.Tear? then Some(action.id)
    else None
  }

  function VictimRef(s: Sys, t: nat, action: Action): string
    requires Shaped(s) && MayAct(s, t, action) && Victim(s, t, action).Some?
  {
    if action.RemoveRoots? then s.pcs[t].ref else Ref(s.doc, action.id)
  }

  /** Neither a rollback nor a teardown removes the data roots of a ref another branch answers to or
      another create has claimed; its own do go, and nobody's but its own. */
  lemma OnlyOwnRootsGo(run: seq<Sys>, moves: seq<Move>, i: nat)
    requires IsRun(run, moves) && i < |moves| && moves[i].Act?
    requires Victim(run[i], moves[i].t, moves[i].action).Some?
    ensures var s := run[i];
      var b, ref := Victim(s, moves[i].t, moves[i].action).value, VictimRef(s, moves[i].t, moves[i].action);
      && (forall id :: id in s.doc.branches && id != b ==> Ref(s.doc, id) != ref)
      && (ref in s.doc.claims ==> s.doc.claims[ref] == b)
      && forall r :: r in run[i + 1].bytes <==> r in s.bytes && r != ref
  {
    var s, t := run[i], moves[i].t;
    RunsKeepInv(run, moves, i);
    assert OpInv(s, t);
    assert run[i + 1] == Acted(s, t, moves[i].action);
  }

  predicate Tears(m: Move, id: string) {
    m.Act? && m.action == Tear(id)
  }

  lemma StepSparesData(s: Sys, m: Move, id: string)
    requires Inv(s) && Enabled(s, m) && id in s.doc.branches && id in s.built
    requires !Tears(m, id)
    ensures id in Apply(s, m).built
  {
    if m.Act? {
      assert OpInv(s, m.t);
    }
  }

  lemma {:induction false} StaysBuilt(run: seq<Sys>, moves: seq<Move>, i: nat, j: nat, id: string)
    requires IsRun(run, moves) && i <= j < |run| && Present(run, id, i, j) && id in run[i].built
    requires forall x :: i <= x < j ==> !Tears(moves[x], id)
    ensures id in run[j].built
    decreases j
  {
    if i < j {
      assert Present(run, id, i, j - 1);
      StaysBuilt(run, moves, i, j - 1, id);
      RunsKeepInv(run, moves, j - 1);
      StepSparesData(run[j - 1], moves[j - 1], id);
    }
  }

  /** What a branch has written stays under its ref until its own demolition: whatever else is created,
      rolled back, renamed, torn down or deleted meanwhile. */
  lemma DataSurvives(run: seq<Sys>, moves: seq<Move>, i: nat, j: nat, id: string)
    requires IsRun(run, moves) && i <= j < |run| && Present(run, id, i, j) && id in run[i].built
    requires forall x :: i <= x < j ==> !Tears(moves[x], id)
    ensures var ref := Ref(run[i].doc, id); ref in run[j].bytes && run[j].bytes[ref] == id
  {
    StaysBuilt(run, moves, i, j, id);
    RefIsForever(run, moves, i, j, id);
    RunsKeepInv(run, moves, j);
  }

  // ---- names, which are only almost unique ----

  /** `t` has claimed the ref of a branch called `name` and not yet written its row. */
  predicate Creating(s: Sys, t: nat, project: string, name: string)
    requires Shaped(s)
  {
    LockSafety.Runs(s.lock, t) && s.pcs[t].Reserved? && Creates(s.ops[t]) && s.ops[t].project == project && s.ops[t].name == name
  }

  predicate RowsDiffer(d: Doc) {
    forall a, b :: a in d.branches && b in d.branches && a != b && d.branches[a].project == d.branches[b].project ==>
      d.branches[a].name != d.branches[b].name
  }

  ghost predicate NamesUnique(s: Sys)
    requires Shaped(s)
  {
    RowsDiffer(s.doc) && forall t, p, name :: Creating(s, t, p, name) ==> !NameTaken(s.doc, p, name)
  }

  /** A rename that takes the name of a branch still being created: the only thing it does not check. */
  ghost predicate TakesNameInFlight(s: Sys, m: Move)
    requires Shaped(s) && Enabled(s, m)
  {
    m.RenameBranch? && exists t :: Creating(s, t, s.doc.branches[m.id].project, m.name)
  }

  lemma ActingKeepsNames(s: Sys, t: nat, action: Action)
    requires Inv(s) && NamesUnique(s) && MayAct(s, t, action)
    ensures NamesUnique(Acted(s, t, action))
  {
    var s' := Acted(s, t, action);
    assert OpInv(s, t);
    if action.Commit? {
      assert Creating(s, t, s.ops[t].project, s.ops[t].name);
    }
    forall u, p, name | Creating(s', u, p, name) ensures !NameTaken(s'.doc, p, name) {
      if action.Reserve? && u == t {
      } else {
        assert Creating(s, u, p, name);
        if action.Commit? {
          OnePerProject(s, t, u);
        }
      }
    }
  }

  lemma RenamingNamesIff(s: Sys, id: string, name: string)
    requires Inv(s) && NamesUnique(s) && Enabled(s, RenameBranch(id, name))
    ensures NamesUnique(Apply(s, RenameBranch(id, name))) <==> !TakesNameInFlight(s, RenameBranch(id, name))
  {
    var s' := Apply(s, RenameBranch(id, name));
    var p := s.doc.branches[id].project;
    if t :| Creating(s, t, p, name) {
      assert Creating(s', t, p, name);
      assert id in s'.doc.branches && s'.doc.branches[id].name == name;
      assert NameTaken(s'.doc, p, name);
    } else {
      forall u, q, n | Creating(s', u, q, n) ensures !NameTaken(s'.doc, q, n) {
        assert Creating(s, u, q, n);
      }
    }
  }

  /** Branch names stay unique in their project over a step exactly when the step is not a rename onto
      the name of a create in flight. */
  lemma NamesStayUniqueIff(s: Sys, m: Move)
    requires Inv(s) && NamesUnique(s) && Enabled(s, m)
    ensures NamesUnique(Apply(s, m)) <==> !TakesNameInFlight(s, m)
  {
    var s' := Apply(s, m);
    match m
    case RenameBranch(id, name) => RenamingNamesIff(s, id, name);
    case Act(t, action) => ActingKeepsNames(s, t, action);
    case Locking(step, _) =>
      LockSafety.StepKeepsInv(s.lock, step);
      forall u: nat, p, name | Creating(s', u, p, name) ensures !NameTaken(s'.doc, p, name) {
        assert u < |s.ops|;
        assert OpInv(s, u);
        assert Creating(s, u, p, name);
      }
    case RenameProject(_, _) =>
      forall u, p, name | Creating(s', u, p, name) ensures !NameTaken(s'.doc, p, name) {
        assert Creating(s, u, p, name);
      }
  }

  /** And such a rename does end in two branches of one project with one name, when the create goes on
      to commit. */
  lemma RenameThenCommitCollides(s: Sys, t: nat, id: string)
    requires Inv(s) && t < |s.ops| && Creates(s.ops[t]) && Enabled(s, RenameBranch(id, s.ops[t].name))
    requires Creating(s, t, s.doc.branches[id].project, s.ops[t].name)
    ensures var s1 := Apply(s, RenameBranch(id, s.ops[t].name));
      MayAct(s1, t, Commit) && !RowsDiffer(Acted(s1, t, Commit).doc)
  {
    var op := s.ops[t];
    var d := Acted(Apply(s, RenameBranch(id, op.name)), t, Commit).doc;
    assert OpInv(s, t);
    assert op.branch in d.branches && id in d.branches && op.branch != id;
  }
}

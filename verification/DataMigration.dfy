/**
 The boot migration of branches whose bytes live in docker volumes onto bind-mounted directories.

 Every docker or file-system call draws one `Fault` from an arbitrary script, so a statement about a
 method here is a statement about a crash before, inside or after any of its steps, about any call
 refusing or answering nothing, and (over several boots) about any number of restarts. The state a
 method leaves when it crashes is the state the next boot finds.
 */
module DataMigration {

  datatype Fault =
    | Fine
    | Refused                        // the call failed and did nothing
    | RefusedButDone                 // the call reported a failure and took effect all the same
    | Unreadable                     // a probe that could not answer
    | EndsEarly(looksComplete: bool) // a directory operation that stopped partway
    | CrashBefore
    | CrashMidway(looksComplete: bool)
    | CrashAfter

  datatype Outcome = Proceed | Raised | Crashed

  datatype Container = Absent | Down | Up

  /** What a directory holds: nothing, part of the bytes, or all of them. A part may have every
      entry the completeness check asks for. */
  datatype Dir = Missing | Torn(looksComplete: bool) | Whole

  /** One managed database: a container on its own layer, or one bound to the data directory. */
  datatype Box = NoBox | OnLayer(up: bool) | Bound(up: bool)
  datatype Managed = Managed(box: Box, staged: seq<Dir>, dirs: seq<Dir>, hasPassword: bool)

  /** One compute group's `/data`: the legacy named volume and what its app container mounts. */
  datatype App = NoApp | OnVolume | OnBind
  datatype Volume = Volume(exists_: bool, app: App, dir: Dir, staged: Dir)

  predicate Present(b: Box) { b != NoBox }

  predicate AllWhole(dirs: seq<Dir>) {
    forall i :: 0 <= i < |dirs| ==> dirs[i] == Whole
  }

  predicate AllMissing(dirs: seq<Dir>) {
    forall i :: 0 <= i < |dirs| ==> dirs[i] == Missing
  }

  /** Is the legacy copy of a managed service's bytes, or else the bind mount's, whole? */
  predicate ManagedSafe(m: Managed) {
    m.box.OnLayer? || AllWhole(m.dirs)
  }

  /** Neither a container nor a directory with anything in it. */
  predicate Unprovisioned(m: Managed) {
    m.box == NoBox && AllMissing(m.dirs) && AllMissing(m.staged)
  }

  /** Nothing to re-create, or the password to do it with. */
  predicate Settles(m: Managed) {
    m.box.Bound? || Unprovisioned(m) || m.hasPassword
  }

  predicate Ambiguous(v: Volume) {
    v.exists_ && v.app == NoApp && v.dir != Missing
  }

  /** A legacy volume that is the one complete copy of its bytes. */
  predicate Authoritative(v: Volume) {
    v.exists_ && v.app != OnBind && !Ambiguous(v)
  }

  /** What any number of passes, wherever they end, make of a volume found as `was`. The bytes of an
      authoritative one are whole, in the volume or on the bind mount, and the app never runs on less.
      From one kept for the operator nothing is ever copied. */
  predicate FollowsFrom(was: Volume, v: Volume) {
    if Authoritative(was) then
      && (v.exists_ || (v.app == OnBind && v.dir == Whole))
      && (v.app == OnBind ==> v.dir == Whole)
      && (v.app == NoApp ==> v.dir == Missing || v.dir == Whole)
    else if Ambiguous(was) then
      v.dir == was.dir && v.app != OnVolume && (v.exists_ || v.app == OnBind)
    else v.app == was.app && v.dir == was.dir && (v.exists_ ==> was.exists_)
  }

  class BranchData {
    const faults: nat -> Fault
    var clock: nat

    // postgres
    const sourceComplete: bool   // the bytes the legacy container holds are a complete PGDATA
    var legacyPg: Container
    var freshPg: Container
    var target: Dir
    var staging: Dir
    var rowOnFresh: bool         // the state row names the new container

    var managed: seq<Managed>
    var volumes: seq<Volume>
    var stamped: bool            // `dataVersion: 1`

    ghost const hadPostgres: bool
    ghost const hadManaged: seq<bool>
    ghost const volumesFound: seq<Volume>

    /** The check that stands for `PG_VERSION`, `global/` and `base/` being there. */
    function LooksComplete(d: Dir): bool {
      if d == Whole then sourceComplete else d.Torn? && d.looksComplete
    }

    /** Part of the bytes and yet passing for all of them. */
    function Fools(d: Dir): bool {
      d.Torn? && d.looksComplete
    }

    /** One whole copy of the bytes there ever were, and no record that says otherwise. */
    ghost predicate PostgresSafe()
      reads this
    {
      && (hadPostgres ==> legacyPg != Absent || (target == Whole && sourceComplete))
      && (rowOnFresh ==> LooksComplete(target))
      && (!hadPostgres ==> legacyPg == Absent && !LooksComplete(target))
    }

    ghost predicate ManagedInv()
      reads this
    {
      && |managed| == |hadManaged|
      && (forall i :: 0 <= i < |managed| ==> |managed[i].dirs| == |managed[i].staged| > 0)
      && (forall i :: 0 <= i < |managed| && hadManaged[i] ==> ManagedSafe(managed[i]))
      && (forall i :: 0 <= i < |managed| && !hadManaged[i] ==> !managed[i].box.OnLayer?)
    }

    ghost predicate VolumesInv()
      reads this`volumes
    {
      |volumes| == |volumesFound| && forall i :: 0 <= i < |volumes| ==> FollowsFrom(volumesFound[i], volumes[i])
    }

    /** No legacy volume that is the complete copy of its bytes goes before the bind mount has them all,
        and no branch is stamped before either. */
    ghost predicate VolumesSafe()
      reads this`volumes, this`stamped
    {
      && VolumesInv()
      && forall i :: 0 <= i < |volumes| && Authoritative(volumesFound[i]) ==>
           (volumes[i].exists_ || volumes[i].dir == Whole) && (stamped ==> volumes[i].dir == Whole)
    }

    ghost predicate StampInv()
      reads this
    {
      stamped ==>
        && (forall i :: 0 <= i < |volumes| && i < |volumesFound| && Authoritative(volumesFound[i]) ==>
             volumes[i].app == OnBind && volumes[i].dir == Whole)
        && (hadPostgres ==> target == Whole && rowOnFresh)
        && forall i :: 0 <= i < |managed| && i < |hadManaged| && hadManaged[i] ==>
             AllWhole(managed[i].dirs) && managed[i].box.Bound?
    }

    ghost predicate Inv()
      reads this
    {
      PostgresSafe() && !Fools(target) && ManagedInv() && VolumesInv() && StampInv()
    }

    /** Any install that predates the data directory, whatever an earlier build left at the targets,
        except a partial PGDATA that passes the completeness check. */
    constructor (faults: nat -> Fault, sourceComplete: bool, legacyPg: Container, freshPg: Container, target: Dir,
        staging: Dir, rowOnFresh: bool, managed: seq<Managed>, volumes: seq<Volume>)
      requires !(target.Torn? && target.looksComplete)
      requires rowOnFresh ==> target == Whole && sourceComplete
      requires forall i :: 0 <= i < |managed| ==> |managed[i].dirs| == |managed[i].staged| > 0
      requires forall i :: 0 <= i < |managed| && managed[i].box.Bound? ==> AllWhole(managed[i].dirs)
      ensures Inv() && !stamped
      ensures this.faults == faults && this.sourceComplete == sourceComplete && this.rowOnFresh == rowOnFresh
      ensures this.legacyPg == legacyPg && this.freshPg == freshPg && this.target == target && this.staging == staging
      ensures this.managed == managed && this.volumes == volumes
      ensures hadPostgres == (legacyPg != Absent || (target == Whole && sourceComplete))
      ensures hadManaged == seq(|managed|, i requires 0 <= i < |managed| => ManagedSafe(managed[i]))
      ensures volumesFound == volumes && clock == 0
    {
      this.faults, this.sourceComplete, this.clock := faults, sourceComplete, 0;
      this.legacyPg, this.freshPg, this.target, this.staging := legacyPg, freshPg, target, staging;
      this.rowOnFresh, this.stamped := rowOnFresh, false;
      this.managed, this.volumes := managed, volumes;
      this.hadPostgres := legacyPg != Absent || (target == Whole && sourceComplete);
      this.hadManaged := seq(|managed|, i requires 0 <= i < |managed| => ManagedSafe(managed[i]));
      this.volumesFound := volumes;
    }

    ghost predicate AllFine()
      reads this`clock
    {
      forall i: nat :: i >= clock ==> faults(i) == Fine
    }

    // ---- one call to docker or to the file system ----

    method Tick() returns (f: Fault)
      modifies this`clock
      ensures f == faults(old(clock)) && clock == old(clock) + 1
      ensures old(AllFine()) ==> f == Fine && AllFine()
    {
      f := faults(clock);
      clock := clock + 1;
    }

    /** A read: it answers, or raises, and changes nothing. */
    method Probe() returns (o: Outcome)
      modifies this`clock
      ensures clock == old(clock) + 1 && (o == Proceed <==> faults(old(clock)) == Fine)
      ensures old(AllFine()) ==> o == Proceed && AllFine()
    {
      var f := Tick();
      o := if f == Fine then Proceed
           else if f == CrashBefore || f == CrashAfter || f.CrashMidway? then Crashed else Raised;
    }

    /** A call that either takes effect whole or not at all. */
    method Act() returns (o: Outcome, effect: bool)
      modifies this`clock
      ensures o == Proceed ==> effect
      ensures clock == old(clock) + 1 && (faults(old(clock)) == CrashAfter ==> o == Crashed && effect)
      ensures old(AllFine()) ==> o == Proceed && AllFine()
    {
      var f := Tick();
      match f
      case Fine => o, effect := Proceed, true;
      case RefusedButDone => o, effect := Raised, true;
      case CrashAfter => o, effect := Crashed, true;
      case CrashBefore => o, effect := Crashed, false;
      case CrashMidway(_) => o, effect := Crashed, false;
      case _ => o, effect := Raised, false;
    }

    /** Recursive removal: a stop partway leaves some of what was there. */
    method RemoveDir(d: Dir) returns (o: Outcome, left: Dir)
      modifies this`clock
      ensures o == Proceed ==> left == Missing
      ensures d == Missing ==> left == Missing
      ensures left == d || left == Missing || (left.Torn? && (left.looksComplete ==> LooksComplete(d)))
      ensures old(AllFine()) ==> o == Proceed && AllFine()
    {
      var f := Tick();
      match f
      case Fine => o, left := Proceed, Missing;
      case RefusedButDone => o, left := Raised, Missing;
      case CrashAfter => o, left := Crashed, Missing;
      case CrashBefore => o, left := Crashed, d;
      case CrashMidway(l) => o, left := Crashed, if d == Missing then d else Torn(l && LooksComplete(d));
      case EndsEarly(l) => o, left := Raised, if d == Missing then d else Torn(l && LooksComplete(d));
      case _ => o, left := Raised, d;
    }

    /** A copy out of a container. It is whole only when it ran to the end of a source with no writer;
        a copy of a live one looks complete and is not. A helper that ends early may report it or
        (`silent`) not, and then what it copied lacks something the completeness check asks for. */
    method CopyOut(sourceAtRest: bool, silent: bool) returns (o: Outcome, copied: Dir)
      modifies this`clock
      ensures o == Proceed ==> (copied == Whole && sourceAtRest) || (copied == Torn(true) && !sourceAtRest) || (silent && copied == Torn(false))
      ensures old(AllFine()) ==> o == Proceed && AllFine() && (sourceAtRest ==> copied == Whole)
    {
      var f := Tick();
      match f
      case Fine => o, copied := Proceed, if sourceAtRest then Whole else Torn(true);
      case EndsEarly(_) => o, copied := if silent then Proceed else Raised, Torn(false);
      case CrashMidway(l) => o, copied := Crashed, Torn(l);
      case CrashBefore => o, copied := Crashed, Torn(false);
      case CrashAfter => o, copied := Crashed, if sourceAtRest then Whole else Torn(true);
      case _ => o, copied := Raised, Torn(false);
    }

    // ---- postgres ----

    /** `docker stop`, whose answer is not read, and then the proof that the container is down. */
    method StopForCopy() returns (o: Outcome)
      modifies this`clock, this`legacyPg
      ensures o == Proceed ==> legacyPg == Down
      ensures old(legacyPg) != Absent ==> legacyPg != Absent
      ensures old(legacyPg) == Absent ==> legacyPg == Absent
      ensures old(AllFine()) ==> AllFine() && (old(legacyPg) != Absent ==> o == Proceed)
      ensures faults(old(clock)) == CrashAfter ==>
        o == Crashed && clock == old(clock) + 1 && legacyPg == if old(legacyPg) == Up then Down else old(legacyPg)
    {
      var stopped, effect := Act();
      if effect && legacyPg == Up { legacyPg := Down; }
      if stopped == Crashed { return Crashed; }
      o := Probe();
      if o != Proceed { return; }
      o := if legacyPg == Down then Proceed else Raised;
    }

    /** A leftover is discarded, and the copy is verified before anything is promoted. */
    method StageCopy() returns (o: Outcome)
      requires legacyPg == Down
      modifies this`clock, this`staging
      ensures o == Proceed ==> staging == Whole && sourceComplete
      ensures old(AllFine()) ==> AllFine() && o != Crashed && (o == Proceed <==> sourceComplete)
    {
      o, staging := RemoveDir(staging);
      if o != Proceed { return; }
      var effect;
      o, effect := Act();
      if effect { staging := Torn(false); }
      if o != Proceed { return; }
      o, staging := CopyOut(legacyPg == Down, true);
      if o != Proceed { return; }
      o := Probe();
      if o != Proceed { return; }
      o := if LooksComplete(staging) then Proceed else Raised;
    }

    /** Stages, verifies and promotes; `target` changes only by being removed and then replaced. */
    method CopyIntoPlace() returns (o: Outcome)
      requires !LooksComplete(target) && legacyPg == Down
      modifies this`clock, this`staging, this`target
      ensures o == Proceed ==> target == Whole && sourceComplete && staging == Missing
      ensures o != Proceed ==> !LooksComplete(target) || (target == Whole && sourceComplete)
      ensures old(AllFine()) ==> AllFine() && o != Crashed && (o == Proceed <==> sourceComplete)
    {
      o := StageCopy();
      if o != Proceed { return; }
      o, target := RemoveDir(target);
      if o != Proceed { return; }
      var effect;
      o, effect := Act();
      if effect { target, staging := staging, Missing; }
    }

    /** The bytes out of the legacy container, and then the container: whether it was up is read first. */
    method TakeOver() returns (o: Outcome, wasRunning: bool)
      requires PostgresSafe() && !rowOnFresh && legacyPg != Absent
      modifies this`clock, this`legacyPg, this`target, this`staging
      ensures old(Fools(target)) || (PostgresSafe() && !Fools(target))
      ensures old(!Fools(target)) && legacyPg == Absent ==> target == Whole && sourceComplete
      ensures o == Proceed ==> LooksComplete(target) && (wasRunning <==> old(legacyPg) == Up)
      ensures old(LooksComplete(target)) ==> target == old(target)
      ensures old(AllFine()) ==> AllFine() && o != Crashed && (o == Proceed <==> old(LooksComplete(target)) || sourceComplete)
      ensures old(AllFine()) ==> (o == Proceed <==> legacyPg == Absent)
      ensures old(legacyPg == Up && faults(clock) == Fine && faults(clock + 1) == CrashAfter) ==>
        o == Crashed && clock == old(clock) + 2 && legacyPg == Down && target == old(target)
    {
      wasRunning := true;
      o := Probe();
      if o != Proceed { return; }
      wasRunning := legacyPg == Up;
      o := StopForCopy();
      if o != Proceed { return; }
      o := Probe();
      if o != Proceed { return; }
      if !LooksComplete(target) {
        o := CopyIntoPlace();
        if o != Proceed { return; }
      }
      var effect;
      o, effect := Act();
      if effect { legacyPg := Absent; }
      if o != Crashed { o := Proceed; }
    }

    /** The next pass finds a running legacy container and is killed as soon as it has stopped it. */
    ghost predicate DiesOnceStopped()
      reads this`clock, this`rowOnFresh, this`legacyPg
    {
      && !rowOnFresh && legacyPg == Up
      && faults(clock) == Fine && faults(clock + 1) == Fine && faults(clock + 2) == Fine && faults(clock + 3) == CrashAfter
    }

    /** One pass over the branch's postgres service. */
    method MigratePostgres() returns (o: Outcome, touched: bool)
      requires PostgresSafe()
      modifies this`clock, this`legacyPg, this`freshPg, this`target, this`staging, this`rowOnFresh
      // The bytes survive whatever happens, unless a partial target already passed for whole.
      ensures old(Fools(target)) || (PostgresSafe() && !Fools(target))
      ensures old(!Fools(target)) && legacyPg == Absent && old(legacyPg) != Absent ==> target == Whole && sourceComplete
      ensures old(rowOnFresh) ==> rowOnFresh && legacyPg == old(legacyPg)
      ensures old(!Fools(target)) && o == Proceed && hadPostgres ==> target == Whole && rowOnFresh && freshPg != Absent
      ensures o == Proceed && !touched ==>
        && legacyPg == old(legacyPg) && freshPg == old(freshPg) && rowOnFresh == old(rowOnFresh)
        && target == old(target) && staging == old(staging)
      ensures o == Proceed && touched ==> rowOnFresh && freshPg != Absent
      ensures old(AllFine()) ==> AllFine()
      ensures old(AllFine() && !Fools(target)) ==>
        (o == Proceed <==> old(PostgresSettles())) && o != Crashed && PostgresSettles() == old(PostgresSettles())
      ensures old(AllFine() && rowOnFresh && freshPg != Absent) ==> !touched
      // An uninterrupted pass takes the legacy container away, and then the bytes are there exactly
      // when the target it found did not pass for a whole one without being it.
      ensures old(AllFine() && !rowOnFresh && legacyPg != Absent) && sourceComplete ==>
        touched && legacyPg == Absent && (target == Whole <==> !old(Fools(target)))
      // No new container is run and no row is written over a directory that is not complete to the check,
      // and where there is neither a container nor such a directory nothing is done at all.
      ensures freshPg != old(freshPg) || rowOnFresh != old(rowOnFresh) ==> LooksComplete(target)
      ensures old(legacyPg == Absent && !LooksComplete(target) && !rowOnFresh) ==>
        && !touched && legacyPg == Absent && freshPg == old(freshPg) && !rowOnFresh
        && target == old(target) && staging == old(staging)
      ensures old(DiesOnceStopped()) ==>
        && o == Crashed && clock == old(clock) + 4 && legacyPg == Down
        && freshPg == old(freshPg) && target == old(target) && rowOnFresh == old(rowOnFresh)
      // The database is left running exactly when this pass found it running (or found no container).
      ensures old(AllFine()) && touched ==> (freshPg == Up <==>
        if !old(rowOnFresh) && old(legacyPg) != Absent then old(legacyPg) == Up else old(freshPg) != Down)
    {
      touched := false;
      if !rowOnFresh {
        o := Probe();
        if o != Proceed { return; }
      }
      var legacyExists := !rowOnFresh && legacyPg != Absent;
      o := Probe();
      if o != Proceed { return; }
      var freshExists := freshPg != Absent;
      if !legacyExists && freshExists && rowOnFresh { return; }
      var wasRunning := true;
      if legacyExists {
        o, wasRunning := TakeOver();
        if o != Proceed { return; }
      } else {
        o := Probe();
        if o != Proceed { return; }
        if !LooksComplete(target) { return; }
        if freshExists {
          o := Probe();
          if o != Proceed { return; }
          wasRunning := freshPg == Up;
        }
      }
      o := Recreate(wasRunning, freshExists);
      touched := o == Proceed;
    }

    /** The new container, and only then the row that names it. */
    method Recreate(wasRunning: bool, freshExists: bool) returns (o: Outcome)
      requires freshExists == (freshPg != Absent)
      modifies this`clock, this`freshPg, this`rowOnFresh
      ensures o == Proceed ==> rowOnFresh && freshPg != Absent
      ensures old(rowOnFresh) ==> rowOnFresh
      ensures old(AllFine()) ==> o == Proceed && AllFine() && (freshPg == Up <==> wasRunning)
    {
      o := RunFresh(wasRunning, freshExists);
      if o != Proceed { return; }
      var effect;
      o, effect := Act();
      if effect { rowOnFresh := true; }
    }

    /** Replaces the new container on the bind mount, waits for it, and stops it again if the
        database was down. */
    method RunFresh(wasRunning: bool, freshExists: bool) returns (o: Outcome)
      requires freshExists == (freshPg != Absent)
      modifies this`clock, this`freshPg
      ensures o == Proceed ==> freshPg != Absent
      ensures old(AllFine()) ==> o == Proceed && AllFine() && (freshPg == Up <==> wasRunning)
    {
      var effect;
      if freshExists {
        o, effect := Act();
        if effect { freshPg := Absent; }
        if o == Crashed { return; }
      }
      if freshPg != Absent { return Raised; }
      o, effect := Act();
      if effect { freshPg := Up; }
      if o != Proceed { return; }
      o := Probe();
      if o != Proceed { return; }
      if !wasRunning {
        o, effect := Act();
        if effect { freshPg := Down; }
        if o == Crashed { return; }
        o := Proceed;
      }
    }

    // ---- managed databases ----

    /** Stages one path of a managed service and promotes it. The helper reports a copy that ended
        early; nothing else would notice, since a path may rightly be empty. */
    method CopyPathIntoPlace(i: nat, p: nat) returns (o: Outcome)
      requires i < |managed| && p < |managed[i].dirs| == |managed[i].staged|
      requires managed[i].box == OnLayer(false)
      modifies this`clock, this`managed
      ensures |managed| == |old(managed)| && |managed[i].dirs| == |managed[i].staged| == |old(managed)[i].dirs|
      ensures forall j :: 0 <= j < |managed| && j != i ==> managed[j] == old(managed)[j]
      ensures managed[i].box == OnLayer(false) && managed[i].hasPassword == old(managed)[i].hasPassword
      ensures forall q :: 0 <= q < |managed[i].dirs| && q != p ==> managed[i].dirs[q] == old(managed)[i].dirs[q]
      ensures o == Proceed ==> managed[i].dirs[p] == Whole
      ensures old(AllFine()) ==> o == Proceed && AllFine()
    {
      var left, effect;
      o, left := RemoveDir(managed[i].staged[p]);
      SetStaged(i, p, left);
      if o != Proceed { return; }
      o, effect := Act();
      if effect { SetStaged(i, p, Torn(false)); }
      if o != Proceed { return; }
      o, left := CopyOut(!managed[i].box.up, false);
      SetStaged(i, p, left);
      if o != Proceed { return; }
      o, left := RemoveDir(managed[i].dirs[p]);
      SetDir(i, p, left);
      if o != Proceed { return; }
      o, effect := Act();
      if effect {
        SetDir(i, p, managed[i].staged[p]);
        SetStaged(i, p, Missing);
      }
    }

    method SetStaged(i: nat, p: nat, d: Dir)
      requires i < |managed| && p < |managed[i].staged|
      modifies this`managed
      ensures managed == old(managed)[i := old(managed)[i].(staged := old(managed)[i].staged[p := d])]
    {
      managed := managed[i := managed[i].(staged := managed[i].staged[p := d])];
    }

    method SetDir(i: nat, p: nat, d: Dir)
      requires i < |managed| && p < |managed[i].dirs|
      modifies this`managed
      ensures managed == old(managed)[i := old(managed)[i].(dirs := old(managed)[i].dirs[p := d])]
    {
      managed := managed[i := managed[i].(dirs := managed[i].dirs[p := d])];
    }

    method SetBox(i: nat, b: Box)
      requires i < |managed|
      modifies this`managed
      ensures managed == old(managed)[i := old(managed)[i].(box := b)]
    {
      managed := managed[i := managed[i].(box := b)];
    }

    method StopManaged(i: nat) returns (o: Outcome)
      requires i < |managed| && managed[i].box.OnLayer?
      modifies this`clock, this`managed
      ensures |managed| == |old(managed)| && managed[i].box.OnLayer?
      ensures managed == old(managed)[i := old(managed)[i].(box := managed[i].box)]
      ensures o == Proceed ==> managed[i].box == OnLayer(false)
      ensures old(AllFine()) ==> o == Proceed && AllFine()
    {
      var stopped, effect := Act();
      if effect { SetBox(i, OnLayer(false)); }
      if stopped == Crashed { return Crashed; }
      o := Probe();
      if o != Proceed { return; }
      o := if managed[i].box.up then Raised else Proceed;
    }

    /** Stop, copy every path, and only then remove the container whose name the next one needs. */
    method EmptyLayer(i: nat) returns (o: Outcome)
      requires i < |managed| && managed[i].box.OnLayer? && |managed[i].dirs| == |managed[i].staged|
      modifies this`clock, this`managed
      ensures |managed| == |old(managed)| && |managed[i].dirs| == |managed[i].staged| == |old(managed)[i].dirs|
      ensures forall j :: 0 <= j < |managed| && j != i ==> managed[j] == old(managed)[j]
      ensures managed[i].hasPassword == old(managed)[i].hasPassword
      ensures managed[i].box.OnLayer? || (managed[i].box == NoBox && AllWhole(managed[i].dirs))
      ensures o == Proceed ==> AllWhole(managed[i].dirs)
      ensures old(AllFine()) ==> o == Proceed && AllFine() && managed[i].box == NoBox
    {
      o := StopManaged(i);
      if o != Proceed { return; }
      for p := 0 to |managed[i].dirs|
        invariant |managed| == |old(managed)| && |managed[i].dirs| == |managed[i].staged| == |old(managed)[i].dirs|
        invariant forall j :: 0 <= j < |managed| && j != i ==> managed[j] == old(managed)[j]
        invariant managed[i].box == OnLayer(false) && managed[i].hasPassword == old(managed)[i].hasPassword
        invariant forall q :: 0 <= q < p ==> managed[i].dirs[q] == Whole
        invariant o == Proceed && (old(AllFine()) ==> AllFine())
      {
        o := CopyPathIntoPlace(i, p);
        if o != Proceed { return; }
      }
      var effect;
      o, effect := Act();
      if effect { SetBox(i, NoBox); }
      if o != Crashed { o := Proceed; }
    }

    /** One pass over one managed service of the branch. */
    method MigrateManagedService(i: nat) returns (o: Outcome, touched: bool)
      requires ManagedInv() && i < |managed|
      modifies this`clock, this`managed
      ensures ManagedInv() && |managed| == |old(managed)|
      ensures forall j :: 0 <= j < |managed| && j != i ==> managed[j] == old(managed)[j]
      ensures managed[i].hasPassword == old(managed)[i].hasPassword
      ensures old(managed)[i].box.OnLayer? && !managed[i].box.OnLayer? ==> AllWhole(managed[i].dirs)
      ensures o == Proceed && hadManaged[i] ==> managed[i].box.Bound? && AllWhole(managed[i].dirs)
      // A service is bound anew only after its layer was copied out whole, or where an earlier pass had
      // begun to; where there is no container and no directory nothing is done at all.
      ensures managed[i].box.Bound? && managed[i].box != old(managed)[i].box ==>
        && managed[i].hasPassword && !Unprovisioned(old(managed)[i])
        && (old(managed)[i].box.OnLayer? ==> AllWhole(managed[i].dirs))
      ensures Unprovisioned(old(managed)[i]) ==> !touched && managed == old(managed)
      ensures !old(managed)[i].box.OnLayer? ==> managed[i].dirs == old(managed)[i].dirs
      ensures o == Proceed && !touched ==> managed == old(managed)
      ensures old(AllFine()) ==> AllFine() && o != Crashed && (o == Proceed <==> Settles(old(managed)[i]))
      ensures old(AllFine()) ==> Settles(managed[i]) == Settles(old(managed)[i])
      ensures old(AllFine() && managed[i].box.Bound?) ==> o == Proceed && !touched
      // It is left running unless this pass found it on its layer and down.
      ensures old(AllFine()) && touched ==> managed[i].box == Bound(old(managed)[i].box.OnLayer? ==> old(managed)[i].box.up)
    {
      touched := false;
      o := Probe();
      if o != Proceed { return; }
      var containerExists := managed[i].box != NoBox;
      o := Probe();
      if o != Proceed { return; }
      if managed[i].box.Bound? { return; }
      if !containerExists && AllMissing(managed[i].dirs) && AllMissing(managed[i].staged) {
        assert managed[i].dirs[0] != Whole;
        return;
      }
      var wasRunning := true;
      if containerExists {
        o := Probe();
        if o != Proceed { return; }
        wasRunning := managed[i].box.up;
        o := EmptyLayer(i);
        if o != Proceed { return; }
      }
      assert containerExists && managed[i].box == NoBox ==> managed[i].dirs[0] == Whole;
      if !managed[i].hasPassword || managed[i].box != NoBox { return Raised, false; }
      o := Reprovision(i, wasRunning);
      touched := o == Proceed;
    }

    method Reprovision(i: nat, wasRunning: bool) returns (o: Outcome)
      requires i < |managed| && managed[i].box == NoBox
      modifies this`clock, this`managed
      ensures |managed| == |old(managed)|
      ensures managed == old(managed)[i := old(managed)[i].(box := managed[i].box)]
      ensures managed[i].box == NoBox || managed[i].box.Bound?
      ensures o == Proceed ==> managed[i].box.Bound?
      ensures old(AllFine()) ==> o == Proceed && AllFine() && managed[i].box == Bound(wasRunning)
    {
      var effect;
      o, effect := Act();
      if effect { SetBox(i, Bound(true)); }
      if o != Proceed { return; }
      if !wasRunning {
        o, effect := Act();
        if effect { SetBox(i, Bound(false)); }
        if o != Crashed { o := Proceed; }
      }
    }

    // ---- compute volumes ----

    method SetVolume(i: nat, v: Volume)
      requires i < |volumes|
      modifies this`volumes
      ensures volumes == old(volumes)[i := v]
    {
      volumes := volumes[i := v];
    }

    /** As on the other arms, except that the app may be writing meanwhile, so `Whole` says only that
        the copy ran to its end. */
    method StageVolume(i: nat) returns (o: Outcome)
      requires i < |volumes|
      modifies this`clock, this`volumes
      ensures |volumes| == |old(volumes)|
      ensures volumes == old(volumes)[i := old(volumes)[i].(staged := volumes[i].staged)]
      ensures o == Proceed ==> volumes[i].staged == Whole
      ensures old(AllFine()) ==> o == Proceed && AllFine()
    {
      var left, effect;
      o, left := RemoveDir(volumes[i].staged);
      SetVolume(i, volumes[i].(staged := left));
      if o != Proceed { return; }
      o, effect := Act();
      if effect { SetVolume(i, volumes[i].(staged := Torn(false))); }
      if o != Proceed { return; }
      o, left := CopyOut(true, false);
      SetVolume(i, volumes[i].(staged := left));
    }

    method CopyVolumeIntoPlace(i: nat) returns (o: Outcome)
      requires i < |volumes|
      modifies this`clock, this`volumes
      ensures |volumes| == |old(volumes)|
      ensures volumes == old(volumes)[i := old(volumes)[i].(dir := volumes[i].dir, staged := volumes[i].staged)]
      ensures o == Proceed ==> volumes[i].dir == Whole
      ensures old(volumes)[i].dir == Missing ==> volumes[i].dir == Missing || volumes[i].dir == Whole
      ensures old(AllFine()) ==> o == Proceed && AllFine()
    {
      o := StageVolume(i);
      if o != Proceed { return; }
      var left, effect;
      o, left := RemoveDir(volumes[i].dir);
      SetVolume(i, volumes[i].(dir := left));
      if o != Proceed { return; }
      o, effect := Act();
      if effect { SetVolume(i, volumes[i].(dir := volumes[i].staged, staged := Missing)); }
    }

    /** `deploy` takes the old container away before it runs the new one, and may stop in between. */
    method Redeploy(i: nat) returns (o: Outcome)
      requires i < |volumes|
      modifies this`clock, this`volumes
      ensures |volumes| == |old(volumes)|
      ensures volumes == old(volumes)[i := old(volumes)[i].(app := volumes[i].app)]
      ensures volumes[i].app == old(volumes)[i].app || volumes[i].app == NoApp || volumes[i].app == OnBind
      ensures o == Proceed ==> volumes[i].app == OnBind
      ensures old(AllFine()) ==> o == Proceed && AllFine()
    {
      var f := Tick();
      o := if f == Fine then Proceed else if f == CrashBefore || f == CrashAfter || f.CrashMidway? then Crashed else Raised;
      if f == Fine || f == RefusedButDone || f == CrashAfter {
        SetVolume(i, volumes[i].(app := OnBind));
      } else if f.CrashMidway? || f.EndsEarly? {
        SetVolume(i, volumes[i].(app := NoApp));
      }
    }

    /** One pass over one group's `/data`. */
    method MigrateVolume(i: nat) returns (o: Outcome, touched: bool)
      requires i < |volumes| && VolumesInv()
      modifies this`clock, this`volumes
      ensures |volumes| == |old(volumes)| && VolumesInv()
      ensures forall j :: 0 <= j < |volumes| && j != i ==> volumes[j] == old(volumes)[j]
      ensures !old(volumes)[i].exists_ ==> volumes == old(volumes)
      // The volume goes only from under an app on the bind mount, and after a finished copy unless
      // the app was on the bind mount all along.
      ensures old(volumes)[i].exists_ && !volumes[i].exists_ ==>
        volumes[i].app == OnBind && (old(volumes)[i].app == OnBind || volumes[i].dir == Whole)
      ensures Ambiguous(old(volumes)[i]) ==> volumes[i].exists_ && volumes[i].dir == old(volumes)[i].dir
      ensures o == Proceed && old(volumes)[i].exists_ ==> volumes[i].app == OnBind
      ensures old(volumes)[i].app == OnBind ==> volumes[i].app == OnBind && volumes[i].dir == old(volumes)[i].dir
      ensures o == Proceed && !touched ==> volumes == old(volumes) && !volumes[i].exists_
      ensures old(AllFine()) ==> o == Proceed && AllFine()
      ensures old(AllFine()) ==> (volumes[i].exists_ <==> Ambiguous(old(volumes)[i]))
      ensures old(AllFine()) && old(volumes)[i].exists_ ==> volumes[i].app == OnBind
    {
      touched := false;
      o := Probe();
      if o != Proceed || !volumes[i].exists_ { return; }
      o := Probe();
      if o != Proceed { return; }
      var effect;
      if volumes[i].app != OnBind {
        o := Probe();
        if o != Proceed { return; }
        var ambiguous := volumes[i].app == NoApp && volumes[i].dir != Missing;
        if !ambiguous {
          o := CopyVolumeIntoPlace(i);
          if o != Proceed { return; }
        }
        o := Redeploy(i);
        if o != Proceed { return; }
        if ambiguous { return Proceed, true; }
      }
      o, effect := Act();
      if effect { SetVolume(i, volumes[i].(exists_ := false)); }
      if o == Crashed { return; }
      o, touched := Proceed, true;
    }

    // ---- the branch and the boot ----

    /** Docker answering throughout, the postgres arm goes through: there is nothing to copy, or what
        there is is whole. */
    ghost predicate PostgresSettles()
      reads this`rowOnFresh, this`legacyPg
    {
      rowOnFresh || legacyPg == Absent || sourceComplete
    }

    /** ... and so does the managed arm: every service it has to re-create has its password. */
    ghost predicate ManagedSettles()
      reads this`managed
    {
      forall i :: 0 <= i < |managed| ==> Settles(managed[i])
    }

    method MigrateVolumes() returns (o: Outcome, touched: bool)
      requires VolumesInv()
      modifies this`clock, this`volumes
      ensures |volumes| == |old(volumes)| && VolumesInv()
      ensures forall i :: 0 <= i < |volumes| && Ambiguous(old(volumes)[i]) ==> volumes[i].exists_
      ensures forall i :: 0 <= i < |volumes| && !old(volumes)[i].exists_ ==> volumes[i] == old(volumes)[i]
      ensures forall i :: 0 <= i < |volumes| && old(volumes)[i].exists_ && !volumes[i].exists_ ==>
        volumes[i].app == OnBind && (old(volumes)[i].app == OnBind || volumes[i].dir == Whole)
      ensures o == Proceed ==> forall i :: 0 <= i < |volumes| && old(volumes)[i].exists_ ==> volumes[i].app == OnBind
      ensures o == Proceed && !touched ==> volumes == old(volumes)
      ensures old(AllFine()) ==> o == Proceed && AllFine()
      ensures old(AllFine()) ==> forall i :: 0 <= i < |volumes| ==> (volumes[i].exists_ <==> Ambiguous(old(volumes)[i]))
    {
      o, touched := Proceed, false;
      for i := 0 to |volumes|
        invariant |volumes| == |old(volumes)| && VolumesInv()
        invariant forall j :: i <= j < |volumes| ==> volumes[j] == old(volumes)[j]
        invariant forall j :: 0 <= j < |volumes| && Ambiguous(old(volumes)[j]) ==> volumes[j].exists_
        invariant forall j :: 0 <= j < |volumes| && !old(volumes)[j].exists_ ==> volumes[j] == old(volumes)[j]
        invariant forall j :: 0 <= j < |volumes| && old(volumes)[j].exists_ && !volumes[j].exists_ ==>
          volumes[j].app == OnBind && (old(volumes)[j].app == OnBind || volumes[j].dir == Whole)
        invariant forall j :: 0 <= j < i && old(volumes)[j].exists_ ==> volumes[j].app == OnBind
        invariant old(AllFine()) ==> forall j :: 0 <= j < i ==> (volumes[j].exists_ <==> Ambiguous(old(volumes)[j]))
        invariant !touched ==> volumes == old(volumes)
        invariant o == Proceed && (old(AllFine()) ==> AllFine())
      {
        var moved;
        o, moved := MigrateVolume(i);
        if o != Proceed { return; }
        touched := touched || moved;
      }
    }

    method MigrateManaged() returns (o: Outcome, touched: bool)
      requires ManagedInv()
      modifies this`clock, this`managed
      ensures ManagedInv()
      ensures o == Proceed ==> forall i :: 0 <= i < |managed| && hadManaged[i] ==>
        managed[i].box.Bound? && AllWhole(managed[i].dirs)
      ensures o == Proceed && !touched ==> managed == old(managed)
      ensures old(AllFine()) ==> AllFine() && o != Crashed && (o == Proceed <==> old(ManagedSettles()))
      ensures old(AllFine()) ==> ManagedSettles() == old(ManagedSettles())
    {
      o, touched := Proceed, false;
      for i := 0 to |managed|
        invariant ManagedInv() && |managed| == |old(managed)|
        invariant forall j :: 0 <= j < i && hadManaged[j] ==> managed[j].box.Bound? && AllWhole(managed[j].dirs)
        invariant forall j :: i <= j < |managed| ==> managed[j] == old(managed)[j]
        invariant old(AllFine()) ==> forall j :: 0 <= j < i ==> Settles(old(managed)[j]) && Settles(managed[j])
        invariant !touched ==> managed == old(managed)
        invariant o == Proceed && (old(AllFine()) ==> AllFine())
      {
        var moved;
        o, moved := MigrateManagedService(i);
        if o != Proceed { return; }
        touched := touched || moved;
      }
    }

    /** One branch of one boot: the three arms, and the stamp only after all of them. */
    method MigrateBranch() returns (o: Outcome, touched: bool)
      requires Inv() && !stamped
      modifies this
      ensures Inv()
      ensures stamped ==> o != Raised
      ensures o == Proceed ==> stamped
      // A branch reported as skipped had nothing moved.
      ensures o == Proceed && !touched ==>
        && legacyPg == old(legacyPg) && freshPg == old(freshPg) && target == old(target) && rowOnFresh == old(rowOnFresh)
        && managed == old(managed) && volumes == old(volumes)
      ensures old(AllFine()) ==> o != Crashed && FinePass()
    {
      o, touched := MigratePostgres();
      if o != Proceed { return; }
      var moved;
      o, moved := MigrateVolumes();
      if o != Proceed { return; }
      touched := touched || moved;
      o, moved := MigrateManaged();
      if o != Proceed { return; }
      touched := touched || moved;
      o := WriteStamp();
    }

    /** What a pass does that docker answers throughout: the branch is stamped exactly when both other
        arms settle, which no pass changes; and once the postgres arm is past, every legacy volume goes
        but one that is to be kept, under an app that is then on the bind mount. */
    twostate predicate FinePass()
      reads this
    {
      && AllFine() && PostgresSettles() == old(PostgresSettles()) && ManagedSettles() == old(ManagedSettles())
      && (stamped <==> PostgresSettles() && ManagedSettles())
      && |volumes| == |old(volumes)|
      && if PostgresSettles() then
           forall i :: 0 <= i < |volumes| ==>
             && (volumes[i].exists_ <==> Ambiguous(old(volumes)[i]))
             && (old(volumes)[i].exists_ ==> volumes[i].app == OnBind)
         else volumes == old(volumes)
    }

    /** A state write: whole or not at all, so a crash is the only way it does not happen. */
    method WriteStamp() returns (o: Outcome)
      modifies this`clock, this`stamped
      ensures o == Proceed ==> stamped
      ensures o != Crashed ==> o == Proceed
      ensures stamped == old(stamped) || stamped
      ensures old(AllFine()) ==> o == Proceed && AllFine()
    {
      var f := Tick();
      if f == CrashBefore || f.CrashMidway? { return Crashed; }
      stamped := true;
      o := if f == CrashAfter then Crashed else Proceed;
    }
  }

  /** What a boot may not change on a branch that is already stamped. */
  twostate predicate Untouched(b: BranchData)
    reads b
  {
    && b.legacyPg == old(b.legacyPg) && b.freshPg == old(b.freshPg) && b.target == old(b.target)
    && b.staging == old(b.staging) && b.rowOnFresh == old(b.rowOnFresh) && b.stamped == old(b.stamped)
    && b.managed == old(b.managed) && b.volumes == old(b.volumes) && b.clock == old(b.clock)
  }

  /** One boot. A branch that raised is logged and the next one is tried; a crash ends the boot. */
  method MigrateLegacyData(branches: seq<BranchData>, enabled: bool) returns (o: Outcome)
    requires forall i, j :: 0 <= i < j < |branches| ==> branches[i] != branches[j]
    requires forall b :: b in branches ==> b.Inv()
    modifies branches
    ensures forall b :: b in branches ==> b.Inv()
    ensures forall b :: b in branches && (!enabled || old(b.stamped)) ==> Untouched(b)
    ensures enabled && o == Proceed ==> forall b :: b in branches && old(!b.stamped && b.AllFine()) ==> b.FinePass()
    ensures (forall b :: b in branches ==> old(b.AllFine())) ==> o == Proceed
  {
    o := Proceed;
    if !enabled { return; }
    for i := 0 to |branches|
      invariant forall b :: b in branches ==> b.Inv()
      invariant forall b :: b in branches && old(b.stamped) ==> Untouched(b)
      invariant forall j :: i <= j < |branches| ==> unchanged(branches[j])
      invariant forall j :: 0 <= j < i && old(!branches[j].stamped && branches[j].AllFine()) ==> branches[j].FinePass()
    {
      var branch := branches[i];
      if !branch.stamped {
        var r, touched := branch.MigrateBranch();
        if r == Crashed { return Crashed; }
      }
    }
  }

  /** Any number of boots, each ending where it likes: the bytes of every branch are whole somewhere
      and no branch is stamped before its own are on the bind mounts. */
  method Boots(branches: seq<BranchData>, times: nat)
    requires forall i, j :: 0 <= i < j < |branches| ==> branches[i] != branches[j]
    requires forall b :: b in branches ==> b.Inv()
    modifies branches
    ensures forall b :: b in branches ==> b.Inv()
    ensures forall b :: b in branches ==> b.VolumesSafe() && (b.rowOnFresh ==> b.target == Whole && b.sourceComplete)
  {
    for n := 0 to times
      invariant forall b :: b in branches ==> b.Inv()
    {
      var o := MigrateLegacyData(branches, true);
    }
  }

  /** Boots that docker answers throughout. A volume kept for the operator, because neither copy could be
      shown to be the newer one, survives the second of them if and only if the postgres arm never lets a
      pass get that far or the managed arm settles, so that the first one stamped the branch. Otherwise it
      goes, with nothing copied out of it: the first pass put the app on the bind mount. */
  method FineBoots(b: BranchData, times: nat)
    requires b.Inv() && !b.stamped && b.AllFine()
    modifies b
    ensures b.Inv() && (b.stamped <==> times >= 1 && old(b.PostgresSettles() && b.ManagedSettles()))
    ensures |b.volumes| == |old(b.volumes)|
    ensures forall i :: 0 <= i < |b.volumes| && Ambiguous(old(b.volumes)[i]) ==>
      && b.volumes[i].dir == old(b.volumes)[i].dir
      && (b.volumes[i].exists_ <==> times <= 1 || old(!b.PostgresSettles() || b.ManagedSettles()))
  {
    for n := 0 to times
      invariant b.Inv() && b.AllFine() && |b.volumes| == |old(b.volumes)|
      invariant b.PostgresSettles() == old(b.PostgresSettles()) && b.ManagedSettles() == old(b.ManagedSettles())
      invariant b.stamped <==> n >= 1 && b.PostgresSettles() && b.ManagedSettles()
      invariant n == 0 || !b.PostgresSettles() ==> b.volumes == old(b.volumes)
      invariant forall i :: 0 <= i < |b.volumes| && Ambiguous(old(b.volumes)[i]) ==>
        && b.volumes[i].dir == old(b.volumes)[i].dir
        && (b.volumes[i].exists_ <==> n <= 1 || !b.PostgresSettles() || b.ManagedSettles())
        && (n >= 1 && b.PostgresSettles() ==> b.volumes[i].app == OnBind)
    {
      var o := MigrateLegacyData([b], true);
    }
  }

  /** A managed database on its own layer whose password is not on record, beside a volume to be kept: two
      boots, neither of which stamps the branch, and the volume is gone for what the directory had. */
  method KeptVolumeIsLost() returns (b: BranchData)
    ensures !b.stamped && b.volumesFound == [Volume(true, NoApp, Torn(false), Missing)] && Ambiguous(b.volumesFound[0])
    ensures |b.volumes| == 1 && !b.volumes[0].exists_ && b.volumes[0].dir == Torn(false)
  {
    b := new BranchData(i => Fine, true, Absent, Absent, Missing, Missing, false,
                        [Managed(OnLayer(true), [Missing], [Missing], false)], [Volume(true, NoApp, Torn(false), Missing)]);
    assert !Settles(b.managed[0]);
    FineBoots(b, 2);
  }

  /** The daemon dies once it has stopped a running database, and the boot that resumes has no fault: the
      bytes arrive, and the database is left down. */
  method RestartLeavesItDown() returns (b: BranchData)
    ensures b.target == Whole && b.rowOnFresh && b.legacyPg == Absent && b.freshPg == Down
  {
    b := new BranchData(i => if i == 3 then CrashAfter else Fine, true, Up, Absent, Missing, Missing, false, [], []);
    var o, touched := b.MigratePostgres();
    assert o == Crashed && b.legacyPg == Down;
    o, touched := b.MigratePostgres();
  }
}

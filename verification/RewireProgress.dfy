/** What a migration gets done: runs of module Rewire in which every call is answered, the copy
    succeeds and the binder binds the claim to its reservation end with the claim on the copy,
    its policy restored and the source disk reclaimed, from wherever an earlier attempt stopped
    before it deleted the claim. */
module RewireProgress {
  import opened Strings
  import opened Rewire

  /** Nothing goes wrong: the migrator's calls and the copy succeed, and the binder acts for the
      reservation alone. */
  predicate Smooth(a: Action, n: nat) {
    (a.Mig? && a.ok) || (a.CopyEnds? && a.ok) || a == BindPV(n) || a == BindClaim(n)
  }

  predicate AllSmooth(acts: seq<Action>, n: nat) {
    forall i :: 0 <= i < |acts| ==> Smooth(acts[i], n)
  }

  /** Such a run leads from the one state to the other. */
  ghost predicate Leads(s: State, t: State, n: nat) {
    exists acts :: IsRun(s, acts) && AllSmooth(acts, n) && Rewire.After(s, acts) == t
  }

  lemma Stay(s: State, n: nat)
    ensures Leads(s, s, n)
  {
    EmptyRun(s);
    assert AllSmooth([], n);
  }

  lemma Go(s: State, t: State, n: nat, a: Action)
    requires Leads(s, t, n) && Enabled(t, a) && Smooth(a, n)
    ensures Leads(s, Do(t, a), n)
  {
    hide IsRun;
    hide Rewire.After;
    hide Do;
    hide Enabled;
    var acts :| IsRun(s, acts) && AllSmooth(acts, n) && Rewire.After(s, acts) == t;
    Extend(s, acts, a);
    assert AllSmooth(acts + [a], n);
  }

  /** The migrator's calls, by what they are part of. */
  lemma CallCopy(s: State, t: State, n: nat)
    requires Leads(s, t, n) && Copying(t.pc)
    ensures Leads(s, CopyStep(t, true), n)
  {
    hide Leads;
    hide CopyStep;
    Go(s, t, n, CALL);
  }

  lemma CallReserve(s: State, t: State, n: nat, sc: Option<string>, polls: nat)
    requires Leads(s, t, n) && Reserving(t.pc) && Possible(t, true, n)
    ensures Leads(s, ReserveStep(t, true, n, sc, polls), n)
  {
    hide Leads;
    hide ReserveStep;
    hide Possible;
    Go(s, t, n, Mig(true, n, sc, polls));
  }

  lemma CallWait(s: State, t: State, n: nat)
    requires Leads(s, t, n) && Waiting(t.pc) && Possible(t, true, n)
    ensures Leads(s, WaitStep(t, true, n), n)
  {
    hide Leads;
    hide WaitStep;
    hide Possible;
    Go(s, t, n, CALL.(pick := n));
  }

  lemma CallFinish(s: State, t: State, n: nat)
    requires Leads(s, t, n) && (t.pc.Restore? || t.pc.Reclaim?)
    ensures Leads(s, FinishStep(t, true), n)
  {
    hide Leads;
    hide FinishStep;
    Go(s, t, n, CALL);
  }

  lemma LeadsInv(s: State, t: State, n: nat)
    requires Inv(s) && Leads(s, t, n)
    ensures Inv(t)
  {
    hide Inv;
    hide IsRun;
    hide Rewire.After;
    var acts :| IsRun(s, acts) && AllSmooth(acts, n) && Rewire.After(s, acts) == t;
    RunKeeps(s, acts);
  }

  // ------------------------------------------------------------------- the end

  /** The claim is on the copy, under the policy it is to have; the source disk is gone, and so
      is the PV it had. */
  ghost predicate Migrated(t: State, n: nat) {
    var w := t.world;
    && t.pc == Idle && t.restored == Some((n, false)) && !w.source && w.target == Full
    && n in w.pvs && w.pvs[n].handle == TARGET && w.pvs[n].policy == Final(t.read)
    && w.claim.Some? && w.claim.value.volume == Some(n)
  }

  /** A wait that finds the claim bound to its reservation succeeds. */
  lemma BoundFinishes(s: State, t: State) returns (u: State)
    requires Inv(t) && t.pc.Poll? && t.world.claim.Some? && t.world.claim.value.volume == Some(t.pc.rw.reserved)
    requires Leads(s, t, t.pc.rw.reserved)
    ensures Leads(s, u, t.pc.rw.reserved) && Migrated(u, t.pc.rw.reserved)
    ensures u.read == t.read && u.world.pvs.Keys == t.world.pvs.Keys
  {
    hide Leads;
    var rw, w := t.pc.rw, t.world;
    PollKnows(t);
    hide Inv;
    CallWait(s, t, rw.reserved);
    var t1 := t.(pc := Restore(rw, false));
    assert WaitStep(t, true, rw.reserved) == t1;
    u := RestoreFinishes(s, t1);
  }

  lemma PollKnows(t: State)
    requires Inv(t) && t.pc.Poll?
    ensures var rw, w := t.pc.rw, t.world;
      && rw.final == Final(t.read) && Held(w, rw.reserved) && w.target == Full && t.gone && t.restored.None?
      && w.pvs[rw.reserved].ref.Ref? && w.pvs[rw.reserved].ref.ours
  {
    TargetIsReserved(t, t.pc.rw.reserved);
    hide WorldInv;
  }

  /** The policy a PV is given. */
  function WithPolicy(w: World, n: nat, policy: Policy): World
    requires n in w.pvs
  {
    w.(pvs := w.pvs[n := w.pvs[n].(policy := policy)])
  }

  lemma Restores(t: State)
    requires t.pc.Restore? && t.pc.rw.final == Final(t.read) && Held(t.world, t.pc.rw.reserved)
    ensures var rw := t.pc.rw;
      FinishStep(t, true) == t.(pc := Reclaim(rw, t.pc.idle), restored := Some((rw.reserved, t.pc.idle)),
                                world := WithPolicy(t.world, rw.reserved, Final(t.read)))
  {
    Kept(t.world, t.pc.rw.reserved);
  }

  lemma RestoreFinishes(s: State, t: State) returns (u: State)
    requires t.pc.Restore? && Leads(s, t, t.pc.rw.reserved)
    requires t.pc.rw.final == Final(t.read) && Held(t.world, t.pc.rw.reserved)
    ensures Leads(s, u, t.pc.rw.reserved)
    ensures u == t.(pc := Idle, restored := Some((t.pc.rw.reserved, t.pc.idle)),
                    world := WithPolicy(t.world, t.pc.rw.reserved, Final(t.read)).(source := false))
  {
    hide Leads;
    hide WithPolicy;
    var n := t.pc.rw.reserved;
    CallFinish(s, t, n);
    var t1 := FinishStep(t, true);
    assert t1 == t.(pc := Reclaim(t.pc.rw, t.pc.idle), restored := Some((n, t.pc.idle)),
                    world := WithPolicy(t.world, n, Final(t.read))) by { Restores(t); }
    CallFinish(s, t1, n);
    u := Reclaims(t1);
  }

  lemma Reclaims(t: State) returns (u: State)
    requires t.pc.Reclaim?
    ensures u == FinishStep(t, true) == t.(pc := Idle, world := t.world.(source := false))
  {
    u := FinishStep(t, true);
  }

  /** A wait that finds the claim idle ends too, with the reservation left for it. */
  lemma IdleFinishes(s: State, t: State) returns (u: State)
    requires Inv(t) && t.pc.Poll? && t.world.claim.Some? && t.world.claim.value.volume.None?
    requires t.world.claim.value.cls == t.pc.rw.cls && Leads(s, t, t.pc.rw.reserved)
    ensures Leads(s, u, t.pc.rw.reserved) && u.pc == Idle && u.restored == Some((t.pc.rw.reserved, true))
    ensures !u.world.source && u.world.claim == t.world.claim
    ensures t.pc.rw.reserved in u.world.pvs && u.world.pvs[t.pc.rw.reserved].policy == Final(t.read)
  {
    hide Leads;
    var rw := t.pc.rw;
    PollKnows(t);
    hide Inv;
    CallWait(s, t, rw.reserved);
    var t1 := t.(pc := Restore(rw, true));
    assert WaitStep(t, true, rw.reserved) == t1;
    u := RestoreFinishes(s, t1);
  }

  /** When a wait ends without success: the claim has another volume of the expected class, or
      another class after two rounds, or time is up with no claim or none that is idle. */
  lemma GivesUp(t: State, ok: bool, pick: nat)
    requires t.pc.Poll?
    ensures var c, rw := t.world.claim, t.pc.rw;
      var meant := c.Some? && c.value.volume != Some(rw.reserved);
      WaitStep(t, ok, pick).pc.Idle? <==>
        || (meant && c.value.cls == rw.cls && c.value.volume.Some?)
        || (meant && c.value.cls != rw.cls && rw.reconciliations >= 2)
        || (rw.polls == 0 && (c.None? || (meant && c.value.cls == rw.cls && c.value.volume.None? && !ok)))
    ensures WaitStep(t, ok, pick).world == t.world
  {}

  /** Until then it goes on, a poll at a time. */
  lemma GoesOn(t: State, ok: bool, pick: nat)
    requires t.pc.Poll? && t.pc.rw.polls > 0
    requires t.world.claim.None? || (t.world.claim.value.volume.None? && t.world.claim.value.cls == t.pc.rw.cls && !ok)
    ensures WaitStep(t, ok, pick) == t.(pc := Poll(t.pc.rw.(polls := t.pc.rw.polls - 1)))
  {}

  // -------------------------------------------------------------- re-reservation

  /** A pair made at least a second after the rewire began is seen to be newer, although
      timestamps have no fractions. */
  lemma RacerIsSeen(w: World, n: nat, pv: PV, started: nat)
    requires w.now >= started + SECOND && pv.handle != TARGET && pv.ref.Ref? && pv.ref.ours
    ensures Racing(AddPV(w, n, pv).pvs[n], started)
    ensures AddPV(w, n, pv).pvs[n].created <= w.now < AddPV(w, n, pv).pvs[n].created + SECOND
  {}

  /** A reservation for the copy, of a class, that no claim has yet. */
  predicate Reserves(w: World, n: nat, cls: string) {
    n in w.pvs && Adoptable(w.pvs[n]) && w.pvs[n].cls == cls
  }

  /** From the look at the old reservation a round ends with one of the observed class in its
      place. */
  lemma RoundEnds(s: State, t: State, n: nat) returns (u: State)
    requires Inv(t) && t.pc.GetReserved? && Leads(s, t, n) && n !in t.world.names
    requires t.pc.rw.reserved in t.world.pvs && Replaceable(t.world.pvs[t.pc.rw.reserved])
    ensures Leads(s, u, n) && Reserves(u.world, n, t.pc.cls)
    ensures u.world.pvs.Keys == t.world.pvs.Keys - {t.pc.rw.reserved} + {n}
    ensures u.pc == Poll(t.pc.rw.(reserved := n, cls := t.pc.cls)) && u.world.claim == t.world.claim
  {
    hide Leads;
    var rw, cls, w := t.pc.rw, t.pc.cls, t.world;
    var pv := w.pvs[rw.reserved];
    TargetIsReserved(t, rw.reserved);
    hide Inv;
    CallWait(s, t, n);
    var t1 := t.(pc := CreateNext(rw, cls, pv));
    assert WaitStep(t, true, n) == t1;
    u := ReplaceEnds(s, t1, n);
  }

  lemma ReplaceEnds(s: State, t: State, n: nat) returns (u: State)
    requires t.pc.CreateNext? && Leads(s, t, n) && n !in t.world.names && t.pc.rw.reserved in t.world.names
    requires var pv := t.pc.current; Replaceable(pv) && pv.ref == Ref(true, 0)
    ensures Leads(s, u, n) && Reserves(u.world, n, t.pc.cls)
    ensures u.world.pvs.Keys == t.world.pvs.Keys - {t.pc.rw.reserved} + {n}
    ensures u.pc == Poll(t.pc.rw.(reserved := n, cls := t.pc.cls)) && u.world.claim == t.world.claim
  {
    hide Leads;
    var rw, cls, w := t.pc.rw, t.pc.cls, t.world;
    hide WaitStep;
    CallWait(s, t, n);
    NextMade(t, n);
    var t1 := WaitStep(t, true, n);
    CallWait(s, t1, n);
    OutdatedGoes(t1, n);
    u := WaitStep(t1, true, n);
  }

  lemma NextMade(t: State, n: nat)
    requires t.pc.CreateNext?
    ensures WaitStep(t, true, n) ==
      t.(pc := DeleteOutdated(t.pc.rw, t.pc.cls, n),
         world := AddPV(t.world, n, t.pc.current.(cls := t.pc.cls, bound := false)))
  {
    hide AddPV;
  }

  lemma OutdatedGoes(t: State, n: nat)
    requires t.pc.DeleteOutdated?
    ensures var u := WaitStep(t, true, n);
      u.pc == Poll(t.pc.rw.(reserved := t.pc.next, cls := t.pc.cls)) && u.world == RemovePV(t.world, t.pc.rw.reserved)
  {
    hide RemovePV;
  }

  /** A claim made with another class, still unbound, is met by a reservation of that class. */
  lemma ClassIsMet(s: State, t: State, n: nat) returns (u: State)
    requires Inv(t) && t.pc.Poll? && t.pc.rw.reconciliations < 2 && Leads(s, t, n) && n !in t.world.names
    requires t.world.claim.Some? && t.world.claim.value.volume.None? && t.world.claim.value.cls != t.pc.rw.cls
    requires var pv := t.world.pvs[t.pc.rw.reserved]; !pv.bound && (pv.ref.Ref? ==> pv.ref.uid == 0)
    ensures Leads(s, u, n) && Reserves(u.world, n, t.world.claim.value.cls) && t.pc.rw.reserved !in u.world.pvs
    ensures u.pc.Poll? && u.pc.rw.reserved == n && u.pc.rw.cls == t.world.claim.value.cls
    ensures u.world.claim == t.world.claim
  {
    hide Leads;
    var rw := t.pc.rw;
    PollKnows(t);
    CallWait(s, t, n);
    var t1 := t.(pc := GetReserved(rw.(reconciliations := rw.reconciliations + 1), t.world.claim.value.cls));
    assert WaitStep(t, true, n) == t1;
    MigKeeps(t, true, n, None, 0);
    hide Inv;
    u := RoundEnds(s, t1, n);
  }

  /** And one that already has a new volume of its own: that pair goes first. */
  lemma RaceIsMet(s: State, t: State, n: nat) returns (u: State)
    requires Inv(t) && t.pc.Poll? && t.pc.rw.reconciliations < 2 && Leads(s, t, n) && n !in t.world.names
    requires t.world.claim.Some? && t.world.claim.value.cls != t.pc.rw.cls
    requires var v := t.world.claim.value.volume;
      && v.Some? && v.value != t.pc.rw.reserved && v.value in t.world.pvs
      && var racer := t.world.pvs[v.value];
         racer.handle != TARGET && racer.ref.Ref? && racer.ref.ours && t.pc.rw.started < racer.created
    requires var pv := t.world.pvs[t.pc.rw.reserved]; !pv.bound && (pv.ref.Ref? ==> pv.ref.uid == 0)
    ensures Leads(s, u, n) && Reserves(u.world, n, t.world.claim.value.cls) && t.pc.rw.reserved !in u.world.pvs
    ensures u.pc.Poll? && u.pc.rw.reserved == n && u.pc.rw.cls == t.world.claim.value.cls
    ensures u.world.claim.None? && t.world.claim.value.volume.value !in u.world.pvs
  {
    hide Leads;
    var rw, c := t.pc.rw, t.world.claim.value;
    PollKnows(t);
    CallWait(s, t, n);
    var t1 := t.(pc := GetRacing(rw.(reconciliations := rw.reconciliations + 1), c));
    assert WaitStep(t, true, n) == t1;
    MigKeeps(t, true, n, None, 0);
    hide Inv;
    var t2 := PairGoes(s, t1, n);
    u := RoundEnds(s, t2, n);
  }

  lemma PairGoes(s: State, t: State, n: nat) returns (u: State)
    requires Inv(t) && t.pc.GetRacing? && Leads(s, t, n) && n !in t.world.names
    requires var v := t.pc.claim.volume;
      && v.Some? && v.value != t.pc.rw.reserved && v.value in t.world.pvs
      && Racing(t.world.pvs[v.value], t.pc.rw.started)
    ensures Inv(u) && Leads(s, u, n) && u.pc == GetReserved(t.pc.rw, t.pc.claim.cls) && n !in u.world.names
    ensures u.world.claim.None? && u.world.pvs == t.world.pvs - {t.pc.claim.volume.value}
  {
    hide Leads;
    hide Inv;
    var rw, c, v, w := t.pc.rw, t.pc.claim, t.pc.claim.volume.value, t.world;
    CallWait(s, t, n);
    MigKeeps(t, true, n, None, 0);
    var t1 := t.(pc := DeleteRacingClaim(rw, c.cls, v));
    assert WaitStep(t, true, n) == t1;
    CallWait(s, t1, n);
    MigKeeps(t1, true, n, None, 0);
    var t2 := t.(pc := DeleteRacingPV(rw, c.cls, v), world := w.(claim := None));
    assert WaitStep(t1, true, n) == t2;
    CallWait(s, t2, n);
    MigKeeps(t2, true, n, None, 0);
    u := WaitStep(t2, true, n);
  }

  // ------------------------------------------------------------------- the copy

  /** A target disk is there only once the original PV is stamped, so that a retry knows it. */
  ghost predicate StampInv(s: State) {
    !s.gone && (s.world.target != Absent || s.pc.StartCopy?) ==> s.orig in s.world.pvs && s.world.pvs[s.orig].stamped
  }

  lemma StampCopy(s: State, ok: bool)
    requires Inv(s) && StampInv(s) && Copying(s.pc) && !s.gone
    ensures StampInv(CopyStep(s, ok))
  {
    if !s.pc.Idle? && !s.pc.ReadPV? { assert s.pc.att.name == s.orig; }
    assert s.orig in s.world.pvs;
    hide Inv;
  }

  lemma StampReserve(s: State, ok: bool, pick: nat, cls: Option<string>, polls: nat)
    requires Inv(s) && StampInv(s) && Reserving(s.pc) && !s.gone && Possible(s, ok, pick)
    ensures StampInv(ReserveStep(s, ok, pick, cls, polls))
  {
    assert s.orig in s.world.names && s.orig in s.world.pvs;
    if s.pc.GuardOld? { assert s.pc.rw.att.name == s.orig; }
    assert !s.pc.DeleteOld? && !s.pc.CreateClaim?;
    hide Inv;
    hide HasAdoptable;
  }

  lemma StampEnv(s: State, a: Action)
    requires Inv(s) && StampInv(s) && Enabled(s, a) && !a.Mig? && !a.Crash? && !s.gone
    ensures StampInv(s.(world := EnvStep(s.world, a)))
  {
    BaseCopying(s);
    assert s.orig in s.world.pvs && s.world.pvs[s.orig].handle == SOURCE;
    assert s.world.claim.Some? && s.orig in s.world.names;
    if a.Reclaimer? { ReclaimerSpares(s, a.name); }
    hide Inv;
    hide Bindable;
  }

  lemma StampStep(s: State, a: Action)
    requires Inv(s) && StampInv(s) && Enabled(s, a)
    ensures StampInv(Do(s, a))
  {
    hide EnvStep;
    hide CopyStep;
    hide ReserveStep;
    hide WaitStep;
    hide FinishStep;
    if s.gone {
      GoneStays(s, a);
    } else {
      if a.Mig? {
        if Copying(s.pc) { StampCopy(s, a.ok); }
        if Reserving(s.pc) { StampReserve(s, a.ok, a.pick, a.sc, a.polls); }
        if Waiting(s.pc) || s.pc.Restore? || s.pc.Reclaim? { LateMeansGone(s); }
      } else if !a.Crash? {
        StampEnv(s, a);
      }
    }
    hide Inv;
  }

  lemma LateMeansGone(s: State)
    requires Inv(s) && (Waiting(s.pc) || s.pc.Restore? || s.pc.Reclaim?)
    ensures s.gone
  {}

  lemma GoneStays(s: State, a: Action)
    requires Enabled(s, a) && s.gone
    ensures Do(s, a).gone
  {
    hide EnvStep;
    hide CopyStep;
    hide ReserveStep;
    hide WaitStep;
    hide FinishStep;
  }

  lemma {:induction false} StampKeeps(s: State, acts: seq<Action>)
    requires Inv(s) && StampInv(s) && IsRun(s, acts)
    ensures Inv(Rewire.After(s, acts)) && StampInv(Rewire.After(s, acts))
    decreases |acts|
  {
    hide Inv;
    hide StampInv;
    hide Do;
    hide Enabled;
    if acts != [] {
      StepKeeps(s, acts[0]);
      StampStep(s, acts[0]);
      StampKeeps(Do(s, acts[0]), acts[1..]);
    }
  }

  /** The cluster once the copy is there. */
  function Copied(s: State): World
    requires s.orig in s.world.pvs
  {
    s.world.(pvs := s.world.pvs[s.orig := s.world.pvs[s.orig].(stamped := true)], target := Full, copying := false)
  }

  /** What an attempt that begins here has read. */
  function Began(s: State): Attempt
    requires s.world.claim.Some? && s.orig in s.world.pvs
  {
    Attempt(s.world.claim.value, s.orig, s.world.pvs[s.orig])
  }

  lemma Stamps(t: State)
    requires t.pc.Stamp? && t.pc.att.name in t.world.pvs
    ensures var n := t.pc.att.name;
      CopyStep(t, true) == t.(pc := StartCopy(t.pc.att),
                              world := t.world.(pvs := t.world.pvs[n := t.world.pvs[n].(stamped := true)]))
  {}

  lemma Starts(t: State)
    requires t.pc.StartCopy? && t.world.target == Absent
    ensures CopyStep(t, true) == t.(pc := AwaitCopy(t.pc.att), world := t.world.(target := Partial, copying := true))
  {}

  lemma CopyLands(s: State, t: State, n: nat)
    requires t.world.copying && Leads(s, t, n)
    ensures Leads(s, t.(world := t.world.(copying := false, target := Full)), n)
  {
    hide Leads;
    Go(s, t, n, CopyEnds(true, true));
  }

  lemma Awaits(t: State)
    requires t.pc.AwaitCopy? && !t.world.copying && t.world.target == Full
    ensures CopyStep(t, true) == t.(pc := Verify(t.pc.att))
  {}

  /** From the stamp on, over an empty slot. */
  lemma CopyRuns(s: State, t: State, n: nat) returns (u: State)
    requires t.pc.Stamp? && t.pc.att.name == t.orig && t.orig in t.world.pvs && t.world.target == Absent
    requires Leads(s, t, n)
    ensures Leads(s, u, n) && u == t.(pc := Verify(t.pc.att), world := Copied(t))
  {
    hide Leads;
    hide CopyStep;
    CallCopy(s, t, n);
    Stamps(t);
    var t1 := CopyStep(t, true);
    CallCopy(s, t1, n);
    Starts(t1);
    var t2 := CopyStep(t1, true);
    CopyLands(s, t2, n);
    var t3 := t2.(world := t2.world.(copying := false, target := Full));
    CallCopy(s, t3, n);
    Awaits(t3);
    u := CopyStep(t3, true);
  }

  lemma Reads(t: State)
    requires t.pc.Idle? && t.world.claim.Some?
    ensures CopyStep(t, true) == t.(pc := ReadPV(t.world.claim.value))
  {}

  lemma ReadsPV(t: State)
    requires t.world.claim.Some? && t.pc == ReadPV(t.world.claim.value) && t.world.claim.value.volume == Some(t.orig)
    requires t.orig in t.world.pvs && t.world.pvs[t.orig].handle == SOURCE
    ensures CopyStep(t, true) == t.(pc := Resume(Began(t)), read := t.world.pvs[t.orig].policy)
  {}

  lemma Resumes(t: State)
    requires t.pc.Resume? && (t.world.target != Absent ==> t.pc.att.pv.stamped)
    ensures CopyStep(t, true) == t.(pc :=
      if t.world.target == Absent then Stamp(t.pc.att)
      else if t.world.target == Full then Verify(t.pc.att)
      else DropPartial(t.pc.att))
  {}

  lemma Drops(t: State)
    requires t.pc.DropPartial?
    ensures CopyStep(t, true) == t.(pc := Stamp(t.pc.att), world := t.world.(target := Absent, copying := false))
  {}

  lemma Verifies(t: State)
    requires t.pc.Verify? && t.world.target == Full
    ensures CopyStep(t, true) ==
      t.(pc := FindReservation(t.pc.att, t.world.now),
         started := t.world.now, before := t.world.names, removed := map[])
  {}

  lemma Knows(s: State)
    requires Inv(s) && !s.gone
    ensures var w := s.world;
      && w.claim.Some? && w.claim.value.volume == Some(s.orig) && s.orig in w.pvs && w.pvs[s.orig].handle == SOURCE
      && s.orig in w.names && w.pvs.Keys <= w.names && (w.copying ==> w.target == Partial)
  {
    KnownNames(s);
    assert PvOk(s, s.orig, s.world.pvs[s.orig]);
    hide PcInv;
  }

  /** A copy that fails part of the way is cleared away before the attempt ends. */
  lemma FailedCopyGoes(t: State, n: nat) returns (u: State)
    requires t.pc.AwaitCopy? && !t.world.copying && t.world.target == Partial
    ensures Leads(t, u, n) && u == t.(pc := Idle, world := t.world.(target := Absent))
  {
    hide Leads;
    hide CopyStep;
    Stay(t, n);
    CallCopy(t, t, n);
    var t1 := t.(pc := LookFailed(t.pc.att));
    assert CopyStep(t, true) == t1 by { Fails(t); }
    CallCopy(t, t1, n);
    var t2 := t.(pc := DropFailed(t.pc.att));
    assert CopyStep(t1, true) == t2 by { Fails(t1); }
    CallCopy(t, t2, n);
    Fails(t2);
    u := CopyStep(t2, true);
  }

  /** A move that is reported failed leaves a full copy where it is, and whatever there is if the
      look at it fails: only part of a copy is ever cleared away. */
  lemma FullCopyStays(t: State, ok: bool)
    requires t.pc.LookFailed? && (t.world.target != Partial || !ok)
    ensures CopyStep(t, ok) == t.(pc := Idle)
  {}

  lemma Fails(t: State)
    requires t.world.target == Partial && !t.world.copying
    ensures t.pc.AwaitCopy? ==> CopyStep(t, true) == t.(pc := LookFailed(t.pc.att))
    ensures t.pc.LookFailed? ==> CopyStep(t, true) == t.(pc := DropFailed(t.pc.att))
    ensures t.pc.DropFailed? ==> CopyStep(t, true) == t.(pc := Idle, world := t.world.(target := Absent))
  {}

  /** Whatever an earlier attempt left, empty slot, part of a copy or the whole of it, the
      attempt comes to a full copy. */
  lemma CopyDone(s: State, n: nat) returns (u: State)
    requires Inv(s) && StampInv(s) && s.pc.Idle? && !s.gone
    ensures s.world.claim.Some? && s.orig in s.world.pvs && Leads(s, u, n)
    ensures u == s.(pc := FindReservation(Began(s), s.world.now), world := Copied(s),
                    started := s.world.now, before := s.world.names, removed := map[],
                    read := s.world.pvs[s.orig].policy)
  {
    hide Leads;
    hide CopyStep;
    Knows(s);
    hide Inv;
    Stay(s, n);
    CallCopy(s, s, n);
    Reads(s);
    var t1 := CopyStep(s, true);
    CallCopy(s, t1, n);
    ReadsPV(t1);
    var t2 := CopyStep(t1, true);
    CallCopy(s, t2, n);
    Resumes(t2);
    var t3 := CopyStep(t2, true);
    if t3.pc.DropPartial? {
      CallCopy(s, t3, n);
      Drops(t3);
      t3 := CopyStep(t3, true);
    }
    if t3.pc.Stamp? {
      t3 := CopyRuns(s, t3, n);
    } else {
      assert s.world.pvs[s.orig := s.world.pvs[s.orig].(stamped := true)] == s.world.pvs;
    }
    assert t3.world == Copied(s);
    CallCopy(s, t3, n);
    Verifies(t3);
    u := CopyStep(t3, true);
  }

  // ------------------------------------------------------------ the rewire itself

  /** The class of the rewired pair. */
  function ClassOf(att: Attempt, sc: Option<string>): string { if sc.Some? then sc.value else att.pv.cls }

  /** The PV that will be the reservation: one an earlier attempt left, of that class, or a name
      not used yet. */
  predicate Available(w: World, n: nat, cls: string) {
    if HasAdoptable(w) then Reserves(w, n, cls) else n !in w.names
  }

  function Plan(t: State, n: nat, sc: Option<string>, polls: nat): Rewiring
    requires t.pc.FindReservation?
  {
    var cls := ClassOf(t.pc.att, sc);
    Rewiring(t.pc.att, t.pc.started, Final(t.pc.att.pv.policy), n, cls, cls, 0, polls)
  }

  lemma Finds(t: State, n: nat, sc: Option<string>, polls: nat)
    requires t.pc.FindReservation? && (sc.Some? || t.pc.att.pv.cls == t.pc.att.claim.cls)
    requires Available(t.world, n, ClassOf(t.pc.att, sc))
    ensures Possible(t, true, n)
    ensures ReserveStep(t, true, n, sc, polls) ==
      t.(pc := GuardOld(Plan(t, n, sc, polls), HasAdoptable(t.world)), misfit := false)
  {
    hide HasAdoptable;
  }

  lemma Guards(t: State, n: nat, sc: Option<string>, polls: nat)
    requires t.pc.GuardOld? && t.pc.rw.att.name in t.world.pvs
    requires t.pc.rw.att.pv.policy == Retain ==> t.world.pvs[t.pc.rw.att.name].policy == Retain
    ensures ReserveStep(t, true, n, sc, polls) ==
      t.(pc := if t.pc.adopted then DeleteClaim(t.pc.rw) else CreateReserved(t.pc.rw),
         world := WithPolicy(t.world, t.pc.rw.att.name, Retain))
  {
    var w, o := t.world, t.pc.rw.att.name;
    if t.pc.rw.att.pv.policy == Retain { assert WithPolicy(w, o, Retain) == w by { Kept(w, o); } }
  }

  lemma Kept(w: World, n: nat)
    requires n in w.pvs
    ensures WithPolicy(w, n, w.pvs[n].policy) == w
  {
    assert w.pvs[n := w.pvs[n].(policy := w.pvs[n].policy)] == w.pvs;
  }

  lemma Creates(t: State, n: nat, sc: Option<string>, polls: nat)
    requires t.pc.CreateReserved? && t.pc.rw.reserved == n
    ensures ReserveStep(t, true, n, sc, polls) ==
      t.(pc := DeleteClaim(t.pc.rw), world := AddPV(t.world, n, Reservation(t.pc.rw)))
  {
    hide AddPV;
  }

  /** The old PV is Retain, and the reservation is there. */
  predicate Prepared(t: State, n: nat) {
    && t.pc.DeleteClaim? && t.world.claim.Some? && t.pc.rw.reserved == n && t.pc.rw.att.name == t.orig != n
    && t.orig in t.world.pvs && t.world.pvs[t.orig].policy == Retain
    && Reserves(t.world, n, t.pc.rw.cls) && t.pc.rw.claimCls == t.pc.rw.cls
  }

  lemma ReserveDone(s: State, t: State, n: nat, sc: Option<string>, polls: nat) returns (u: State)
    requires t.pc.FindReservation? && (sc.Some? || t.pc.att.pv.cls == t.pc.att.claim.cls) && Leads(s, t, n)
    requires Available(t.world, n, ClassOf(t.pc.att, sc)) && t.world.claim.Some? && t.pc.att.name == t.orig
    requires t.orig in t.world.pvs && t.orig in t.world.names && t.world.pvs[t.orig].handle == SOURCE
    requires t.pc.att.pv.policy == Retain ==> t.world.pvs[t.orig].policy == Retain
    ensures Leads(s, u, n) && Prepared(u, n) && u.read == t.read && u.orig == t.orig
  {
    hide Leads;
    hide ReserveStep;
    hide HasAdoptable;
    Finds(t, n, sc, polls);
    CallReserve(s, t, n, sc, polls);
    var t1 := ReserveStep(t, true, n, sc, polls);
    Guards(t1, n, sc, polls);
    CallReserve(s, t1, n, sc, polls);
    u := ReserveStep(t1, true, n, sc, polls);
    if u.pc.CreateReserved? {
      Creates(u, n, sc, polls);
      CallReserve(s, u, n, sc, polls);
      u := ReserveStep(u, true, n, sc, polls);
    }
  }

  lemma DeletesClaim(t: State, n: nat)
    requires t.pc.DeleteClaim? && t.world.claim.Some?
    ensures ReserveStep(t, true, n, None, 0) ==
      t.(pc := DeleteOld(t.pc.rw), world := t.world.(claim := None), gone := true)
  {}

  lemma DeletesOld(t: State, n: nat)
    requires t.pc.DeleteOld? && t.pc.rw.att.name in t.world.pvs && t.world.pvs[t.pc.rw.att.name].policy == Retain
    ensures var o := t.pc.rw.att.name;
      ReserveStep(t, true, n, None, 0) ==
      t.(pc := CreateClaim(t.pc.rw), world := t.world.(pvs := t.world.pvs - {o}),
         removed := t.removed[o := t.world.pvs[o]])
  {}

  lemma CreatesClaim(t: State, n: nat)
    requires t.pc.CreateClaim? && t.world.claim.None?
    ensures ReserveStep(t, true, n, None, 0) == t.(pc := Poll(t.pc.rw), world := NewClaim(t.world, t.pc.rw.claimCls))
  {}

  /** The claim is replaced by a new one, for which the reservation is meant. */
  lemma SwitchDone(s: State, t: State, n: nat) returns (u: State)
    requires Prepared(t, n) && Leads(s, t, n)
    ensures Leads(s, u, n) && u.pc == Poll(t.pc.rw) && Unclaimed(u.world, n) && t.orig !in u.world.pvs
    ensures u.read == t.read && u.orig == t.orig
  {
    hide Leads;
    hide ReserveStep;
    CallReserve(s, t, n, None, 0);
    DeletesClaim(t, n);
    var t1 := ReserveStep(t, true, n, None, 0);
    CallReserve(s, t1, n, None, 0);
    DeletesOld(t1, n);
    var t2 := ReserveStep(t1, true, n, None, 0);
    CallReserve(s, t2, n, None, 0);
    CreatesClaim(t2, n);
    u := ReserveStep(t2, true, n, None, 0);
  }

  lemma BinderBinds(s: State, t: State, n: nat) returns (u: State)
    requires Unclaimed(t.world, n) && Leads(s, t, n)
    ensures Leads(s, u, n) && u.world.claim.Some? && u.world.claim.value.volume == Some(n)
    ensures u == t.(world := u.world) && u.world.pvs.Keys == t.world.pvs.Keys
  {
    hide Leads;
    hide MigStep;
    Go(s, t, n, BindPV(n));
    var t1 := Do(t, BindPV(n));
    Go(s, t1, n, BindClaim(n));
    u := Do(t1, BindClaim(n));
  }

  /** Wherever attempts have stopped before the claim was deleted, one that is left alone, with
      a class the pair agrees on and a reservation of that class, brings the claim to the copy. */
  lemma AttemptFinishes(s0: State, pre: seq<Action>, sc: Option<string>, n: nat) returns (u: State)
    requires Initial(s0) && IsRun(s0, pre)
    requires var s := Rewire.After(s0, pre); s.pc.Idle? && !s.gone
    requires var s := Rewire.After(s0, pre);
      s.world.claim.Some? && s.orig in s.world.pvs ==>
        && (sc.Some? || s.world.pvs[s.orig].cls == s.world.claim.value.cls)
        && Available(s.world, n, ClassOf(Began(s), sc))
    ensures var s := Rewire.After(s0, pre);
      && Leads(s, u, n) && Migrated(u, n) && s.orig in s.world.pvs && u.read == s.world.pvs[s.orig].policy
      && s.orig !in u.world.pvs
  {
    InitialIdle(s0);
    StampKeeps(s0, pre);
    var s := Rewire.After(s0, pre);
    hide Initial;
    hide IsRun;
    hide Rewire.After;
    hide Leads;
    hide Inv;
    hide Available;
    Knows(s);
    var t := CopyDone(s, n);
    StillAvailable(s, n, ClassOf(Began(s), sc));
    u := RewireFinishes(s, t, n, sc);
  }

  lemma RewireFinishes(s: State, t: State, n: nat, sc: Option<string>) returns (u: State)
    requires Inv(s) && Leads(s, t, n)
    requires t.pc.FindReservation? && (sc.Some? || t.pc.att.pv.cls == t.pc.att.claim.cls)
    requires Available(t.world, n, ClassOf(t.pc.att, sc)) && t.world.claim.Some? && t.pc.att.name == t.orig
    requires t.orig in t.world.pvs && t.orig in t.world.names && t.world.pvs[t.orig].handle == SOURCE
    requires t.pc.att.pv.policy == Retain ==> t.world.pvs[t.orig].policy == Retain
    ensures Leads(s, u, n) && Migrated(u, n) && u.read == t.read && t.orig !in u.world.pvs
  {
    hide Inv;
    hide Leads;
    hide Available;
    var t1 := ReserveDone(s, t, n, sc, 0);
    var t2 := SwitchDone(s, t1, n);
    hide Prepared;
    hide Unclaimed;
    var t3 := BinderBinds(s, t2, n);
    LeadsInv(s, t3, n);
    u := BoundFinishes(s, t3);
  }

  lemma StillAvailable(s: State, n: nat, cls: string)
    requires s.orig in s.world.pvs && s.world.pvs[s.orig].handle == SOURCE && Available(s.world, n, cls)
    ensures Available(Copied(s), n, cls)
  {
    var w, w' := s.world, Copied(s);
    assert w'.pvs.Keys == w.pvs.Keys;
    assert forall m :: m in w.pvs ==> (Adoptable(w'.pvs[m]) <==> Adoptable(w.pvs[m]));
    if HasAdoptable(w) {
      var m :| m in w.pvs && Adoptable(w.pvs[m]);
      assert Adoptable(w'.pvs[m]);
    }
  }
}

/** Moving a claim to another Proxmox node: Migrate (pkg/migrator/migrator.go) and the
    claimRef pre-bind rewire behind it (pkg/migrator/topology.go), as a machine that takes one
    API call at a time among the other actors of the cluster, and that can die anywhere.

    The machine is about one claim and one volume. Handle SOURCE names the disk the claim
    starts on, handle TARGET the copy on the requested node; other volumes have other handles. */
module Rewire {
  import opened Strings

  const SOURCE: nat := 0
  const TARGET: nat := 1
  const SECOND: nat := 1_000_000_000
  const MAX_RECONCILIATIONS: nat := 2

  datatype Policy = Retain | Delete | Unset

  /** spec.claimRef: to this claim or another one, with uid 0 for an empty UID. */
  datatype Ref = NoRef | Ref(ours: bool, uid: nat)

  datatype PV = PV(handle: nat, policy: Policy, ref: Ref, cls: string, created: nat, bound: bool, stamped: bool)

  datatype Claim = Claim(uid: nat, volume: Option<nat>, cls: string)

  /** The target slot as a listing shows it; a listed size of at least the volume's capacity
      means a full copy. */
  datatype Copy = Absent | Partial | Full

  /** The cluster: API objects, the two disks, a copy task still running, the clock, and the
      names and uids handed out so far. */
  datatype World = World(
    pvs: map<nat, PV>, claim: Option<Claim>,
    source: bool, target: Copy, copying: bool,
    now: nat, names: set<nat>, uids: nat)

  /** What Migrate read at its start. */
  datatype Attempt = Attempt(claim: Claim, name: nat, pv: PV)

  /** Locals of replacePVTopology and waitReservedPVBind. */
  datatype Rewiring = Rewiring(
    att: Attempt, started: nat, final: Policy, reserved: nat, cls: string, claimCls: string,
    reconciliations: nat, polls: nat)

  datatype Pc =
    // Migrate
    | Idle
    | ReadPV(claim: Claim)
    | Resume(att: Attempt)
    | DropPartial(att: Attempt)
    | Stamp(att: Attempt)
    | StartCopy(att: Attempt)
    | AwaitCopy(att: Attempt)
    | LookFailed(att: Attempt)
    | DropFailed(att: Attempt)
    | Verify(att: Attempt)
    // replacePVTopology up to the recreated claim
    | FindReservation(att: Attempt, started: nat)
    | GuardOld(rw: Rewiring, adopted: bool)
    | CreateReserved(rw: Rewiring)
    | DeleteClaim(rw: Rewiring)
    | DeleteOld(rw: Rewiring)
    | CreateClaim(rw: Rewiring)
    // waitReservedPVBind
    | Poll(rw: Rewiring)
    | GetRacing(rw: Rewiring, claim: Claim)
    | DeleteRacingClaim(rw: Rewiring, cls: string, racing: nat)
    | DeleteRacingPV(rw: Rewiring, cls: string, racing: nat)
    | GetReserved(rw: Rewiring, cls: string)
    | CreateNext(rw: Rewiring, cls: string, current: PV)
    | DeleteOutdated(rw: Rewiring, cls: string, next: nat)
    // the end
    | Restore(rw: Rewiring, idle: bool)
    | Reclaim(rw: Rewiring, idle: bool)

  /** The state, with what a statement about a whole run has to remember: the original pair,
      whether the old claim was deleted, the reservation whose policy was restored and
      whether that was for an idle claim, whether a PV listing ever failed, and, since the
      latest rewire began, when that was, which PV names existed and which PVs it deleted; also
      the original policy, the one the latest attempt read, and whether its reservation is an
      adopted one of another class than it reserves under. */
  datatype State = State(
    world: World, pc: Pc,
    orig: nat, uid: nat, gone: bool, restored: Option<(nat, bool)>, listFailed: bool,
    started: nat, before: set<nat>, removed: map<nat, PV>,
    policy: Policy, read: Policy, misfit: bool)

  datatype Action =
    | Mig(ok: bool, pick: nat, sc: Option<string>, polls: nat)   // the migrator's next call
    | Crash
    | Tick(n: nat)
    | OwnerCreates(cls: string)                    // a controller recreates the claim
    | BindPV(name: nat)                            // the binder claims a PV
    | BindClaim(name: nat)                         // the binder points the claim at it
    | Provision(name: nat, handle: nat, policy: Policy)
    | ForeignCreate(name: nat, pv: PV)
    | ForeignDelete(name: nat)
    | Reclaimer(name: nat)
    | CopyEnds(ok: bool, kept: bool)

  // ----------------------------------------------------------------- cluster

  /** metav1.Time is second-granular; the migrator's own mark is not. */
  function Timestamp(now: nat): nat { now - now % SECOND }

  function Destroy(w: World, handle: nat): World {
    if handle == SOURCE then w.(source := false)
    else if handle == TARGET then w.(target := Absent, copying := false)
    else w
  }

  /** Deleting a PV object under a policy other than Retain takes its disk along. */
  function RemovePV(w: World, name: nat): World {
    if name !in w.pvs then w
    else
      var pv := w.pvs[name];
      var w' := w.(pvs := w.pvs - {name});
      if pv.policy == Retain then w' else Destroy(w', pv.handle)
  }

  function AddPV(w: World, name: nat, pv: PV): World {
    w.(pvs := w.pvs[name := pv.(created := Timestamp(w.now))], names := w.names + {name})
  }

  function NewClaim(w: World, cls: string): World {
    w.(claim := Some(Claim(w.uids, None, cls)), uids := w.uids + 1)
  }

  predicate Bindable(pv: PV, c: Claim) {
    && pv.cls == c.cls
    && (pv.ref == NoRef || pv.ref == Ref(true, 0) || pv.ref == Ref(true, c.uid))
  }

  /** The claim is unbound, and the PV is one it may be bound to. */
  predicate Unclaimed(w: World, n: nat) {
    w.claim.Some? && w.claim.value.volume.None? && n in w.pvs && Bindable(w.pvs[n], w.claim.value)
  }

  /** The claim is bound to the PV, or still can be. */
  predicate CanBind(w: World, n: nat) {
    (w.claim.Some? && w.claim.value.volume == Some(n)) || Unclaimed(w, n)
  }

  // --------------------------------------------------------------- migrator

  function Goto(s: State, pc: Pc): State { s.(pc := pc) }

  /** An error return: the attempt is over, and a retry starts from the top. */
  function Fail(s: State): State { s.(pc := Idle) }

  /** Migrate up to the verified copy. */
  function CopyStep(s: State, ok: bool): (s': State)
    ensures s'.orig == s.orig && (s.gone ==> s'.gone)
  {
    var w := s.world;
    match s.pc
    case Idle => if w.claim.Some? then Goto(s, ReadPV(w.claim.value)) else s
    case ReadPV(c) =>
      if c.volume.Some? && c.volume.value in w.pvs && w.pvs[c.volume.value].handle == SOURCE
      then Goto(s, Resume(Attempt(c, c.volume.value, w.pvs[c.volume.value]))).(read := w.pvs[c.volume.value].policy)
      else Fail(s)
    case Resume(att) =>
      if !att.pv.stamped || !ok || w.target == Absent then Goto(s, Stamp(att))
      else if w.target == Full then Goto(s, Verify(att))
      else Goto(s, DropPartial(att))
    case DropPartial(att) => Goto(s, Stamp(att)).(world := Destroy(w, TARGET))
    case Stamp(att) =>
      if att.name !in w.pvs then Fail(s)
      else Goto(s, StartCopy(att)).(world := w.(pvs := w.pvs[att.name := w.pvs[att.name].(stamped := true)]))
    case StartCopy(att) =>
      // The import refuses to overwrite.
      if w.target != Absent then Goto(s, LookFailed(att))
      else Goto(s, AwaitCopy(att)).(world := w.(target := Partial, copying := true))
    case AwaitCopy(att) =>
      if ok && !w.copying && w.target == Full then Goto(s, Verify(att)) else Goto(s, LookFailed(att))
    case LookFailed(att) => if ok && w.target == Partial then Goto(s, DropFailed(att)) else Fail(s)
    case DropFailed(_) => Fail(s).(world := Destroy(w, TARGET))
    case Verify(att) =>
      if w.target != Full then Fail(s)
      else Goto(s, FindReservation(att, w.now)).(started := w.now, before := w.names, removed := map[])
    case _ => s
  }

  /** A reservation findExistingReservation would adopt. */
  predicate Adoptable(pv: PV) {
    pv.policy == Retain && !pv.bound && pv.handle == TARGET && pv.ref == Ref(true, 0)
  }

  /** A reservation made from the old PV. */
  function Reservation(rw: Rewiring): PV {
    rw.att.pv.(handle := TARGET, policy := Retain, ref := Ref(true, 0), cls := rw.cls, bound := false, stamped := false)
  }

  /** The adopted reservation is not of the class the rewire goes on to expect. */
  predicate Misfit(w: World, n: nat, cls: string) { n in w.pvs && w.pvs[n].cls != cls }

  /** The policy a migrated volume is to end up with. */
  function Final(policy: Policy): Policy { if policy == Unset then Delete else policy }

  predicate HasAdoptable(w: World) {
    exists n :: n in w.pvs && Adoptable(w.pvs[n])
  }

  /** replacePVTopology up to the recreated claim. */
  function ReserveStep(s: State, ok: bool, pick: nat, cls: Option<string>, polls: nat): (s': State)
    ensures s'.orig == s.orig && (s.gone ==> s'.gone)
  {
    var w := s.world;
    match s.pc
    case FindReservation(att, started) =>
      var pvCls := if cls.Some? then cls.value else att.pv.cls;
      var claimCls := if cls.Some? then cls.value else att.claim.cls;
      var adopt := ok && HasAdoptable(w);
      var s' := s.(listFailed := s.listFailed || !ok, misfit := adopt && Misfit(w, pick, pvCls));
      if pvCls != claimCls then Fail(s')                          // validateReservedPV
      else Goto(s', GuardOld(Rewiring(att, started, Final(att.pv.policy), pick, pvCls, claimCls, 0, polls), adopt))
    case GuardOld(rw, adopted) =>
      var next := if adopted then DeleteClaim(rw) else CreateReserved(rw);
      if rw.att.pv.policy == Retain then Goto(s, next)
      else if rw.att.name !in w.pvs then Fail(s)
      else Goto(s, next).(world := w.(pvs := w.pvs[rw.att.name := w.pvs[rw.att.name].(policy := Retain)]))
    case CreateReserved(rw) =>
      Goto(s, DeleteClaim(rw.(reserved := pick))).(world := AddPV(w, pick, Reservation(rw)))
    case DeleteClaim(rw) =>
      if w.claim.None? then Fail(s)
      else Goto(s, DeleteOld(rw)).(world := w.(claim := None), gone := true)
    case DeleteOld(rw) =>
      var n := rw.att.name;
      Goto(s, CreateClaim(rw)).(
        world := RemovePV(w, n), removed := if n in w.pvs then s.removed[n := w.pvs[n]] else s.removed)
    case CreateClaim(rw) =>
      Goto(s, Poll(rw)).(world := if w.claim.None? then NewClaim(w, rw.claimCls) else w)
    case _ => s
  }

  /** deleteRacingPair's three refusals. */
  predicate Racing(pv: PV, started: nat) {
    pv.handle != TARGET && pv.ref.Ref? && pv.ref.ours && started < pv.created
  }

  /** reReserveDataPV's three refusals. */
  predicate Replaceable(pv: PV) {
    pv.policy == Retain && !pv.bound && (pv.ref.Ref? ==> pv.ref.uid == 0) && pv.handle == TARGET
  }

  /** One round of the adaptive wait: what it goes on to, by the claim it reads; ok stands for
      what the class and pod listings said. */
  function PollNext(claim: Option<Claim>, rw: Rewiring, ok: bool): Pc {
    var wait := if rw.polls == 0 then Idle else Poll(rw.(polls := rw.polls - 1));
    if claim.None? then wait
    else
      var c := claim.value;
      if c.volume == Some(rw.reserved) then Restore(rw, false)
      else if c.cls != rw.cls then
        if rw.reconciliations >= MAX_RECONCILIATIONS then Idle
        else
          var rw' := rw.(reconciliations := rw.reconciliations + 1);
          if c.volume.Some? then GetRacing(rw', c) else GetReserved(rw', c.cls)
      else if c.volume.Some? then Idle
      else if ok then Restore(rw, true)
      else wait
  }

  /** Where waitReservedPVBind goes from each of its calls. */
  function WaitNext(w: World, pc: Pc, ok: bool, pick: nat): Pc
    requires Waiting(pc)
  {
    match pc
    case Poll(rw) => PollNext(w.claim, rw, ok)
    case GetRacing(rw, c) =>
      if c.volume.Some? && c.volume.value in w.pvs && Racing(w.pvs[c.volume.value], rw.started)
      then DeleteRacingClaim(rw, c.cls, c.volume.value)
      else Idle
    case DeleteRacingClaim(rw, cls, racing) => DeleteRacingPV(rw, cls, racing)
    case DeleteRacingPV(rw, cls, _) => GetReserved(rw, cls)
    case GetReserved(rw, cls) =>
      if rw.reserved in w.pvs && Replaceable(w.pvs[rw.reserved]) then CreateNext(rw, cls, w.pvs[rw.reserved]) else Idle
    case CreateNext(rw, cls, _) => DeleteOutdated(rw, cls, pick)
    case DeleteOutdated(rw, cls, next) => Poll(rw.(reserved := next, cls := cls))
  }

  function WaitStep(s: State, ok: bool, pick: nat): (s': State)
    requires Waiting(s.pc)
    ensures s'.orig == s.orig && (s.gone ==> s'.gone) && s'.pc == WaitNext(s.world, s.pc, ok, pick)
  {
    var w := s.world;
    var s' := Goto(s, WaitNext(w, s.pc, ok, pick));
    match s.pc
    case DeleteRacingClaim(_, _, _) => s'.(world := w.(claim := None))
    case DeleteRacingPV(_, _, n) =>
      s'.(world := RemovePV(w, n), removed := if n in w.pvs then s.removed[n := w.pvs[n]] else s.removed)
    case CreateNext(_, cls, current) => s'.(world := AddPV(w, pick, current.(cls := cls, bound := false)))
    case DeleteOutdated(rw, _, _) =>
      var n := rw.reserved;
      s'.(
        world := RemovePV(w, n), removed := if n in w.pvs then s.removed[n := w.pvs[n]] else s.removed,
        misfit := false)
    case _ => s'
  }

  /** The restored policy and the reclaimed source; a failed reclaim is only logged. */
  function FinishStep(s: State, ok: bool): (s': State)
    ensures s'.orig == s.orig && (s.gone ==> s'.gone)
  {
    var w := s.world;
    match s.pc
    case Restore(rw, idle) =>
      var s' := Goto(s, Reclaim(rw, idle)).(restored := Some((rw.reserved, idle)));
      if rw.final == Retain then s'
      else if rw.reserved !in w.pvs then Fail(s)
      else s'.(world := w.(pvs := w.pvs[rw.reserved := w.pvs[rw.reserved].(policy := rw.final)]))
    case Reclaim(_, _) => Fail(s).(world := if ok then Destroy(w, SOURCE) else w)
    case _ => s
  }

  predicate Copying(pc: Pc) {
    pc.Idle? || pc.ReadPV? || pc.Resume? || pc.DropPartial? || pc.Stamp? || pc.StartCopy? || pc.AwaitCopy?
    || pc.LookFailed? || pc.DropFailed? || pc.Verify?
  }
  predicate Reserving(pc: Pc) {
    pc.FindReservation? || pc.GuardOld? || pc.CreateReserved? || pc.DeleteClaim? || pc.DeleteOld? || pc.CreateClaim?
  }
  predicate Waiting(pc: Pc) {
    pc.Poll? || pc.GetRacing? || pc.DeleteRacingClaim? || pc.DeleteRacingPV? || pc.GetReserved? || pc.CreateNext?
    || pc.DeleteOutdated?
  }

  function MigStep(s: State, ok: bool, pick: nat, cls: Option<string>, polls: nat): State {
    if Copying(s.pc) then CopyStep(s, ok)
    else if Reserving(s.pc) then ReserveStep(s, ok, pick, cls, polls)
    else if Waiting(s.pc) then WaitStep(s, ok, pick)
    else FinishStep(s, ok)
  }

  // ------------------------------------------------------------ transitions

  /** What the choices of a migrator call must satisfy: a generated PV name is new, and an
      adopted reservation is one the listing shows. */
  predicate Possible(s: State, ok: bool, pick: nat) {
    match s.pc
    case FindReservation(_, _) =>
      ok && HasAdoptable(s.world) ==> pick in s.world.pvs && Adoptable(s.world.pvs[pick])
    case CreateReserved(_) => pick !in s.world.names
    case CreateNext(_, _, _) => pick !in s.world.names
    case _ => true
  }

  predicate Enabled(s: State, a: Action) {
    var w := s.world;
    match a
    case Mig(ok, pick, _, _) => Possible(s, ok, pick)
    case Crash => true
    case Tick(_) => true
    case OwnerCreates(_) => w.claim.None?
    case BindPV(n) => Unclaimed(w, n)
    case BindClaim(n) =>
      w.claim.Some? && w.claim.value.volume.None? && n in w.pvs && w.pvs[n].ref == Ref(true, w.claim.value.uid)
    case Provision(n, handle, _) =>
      w.claim.Some? && w.claim.value.volume.None? && n !in w.names && handle != SOURCE && handle != TARGET
    case ForeignCreate(n, pv) =>
      n !in w.names && pv.handle != SOURCE && pv.handle != TARGET &&
        (pv.ref.Ref? ==> !pv.ref.ours && pv.ref.uid < w.uids)
    case ForeignDelete(n) => n in w.pvs && w.pvs[n].handle != SOURCE && w.pvs[n].handle != TARGET
    case Reclaimer(n) =>
      // A PV whose claim is gone: released, and not Retain.
      && n in w.pvs && w.pvs[n].policy != Retain && w.pvs[n].ref.Ref? && w.pvs[n].ref.uid != 0
      && (w.pvs[n].ref.ours ==> w.claim.None? || w.claim.value.uid != w.pvs[n].ref.uid)
    case CopyEnds(_, _) => w.copying
  }

  function EnvStep(w: World, a: Action): World
    requires !a.Mig? && !a.Crash?
    requires (a.BindPV? || a.BindClaim? || a.Provision?) ==> w.claim.Some?
    requires a.BindPV? || a.Reclaimer? ==> a.name in w.pvs
  {
    match a
    case Tick(n) => w.(now := w.now + n)
    case OwnerCreates(cls) => NewClaim(w, cls)
    case BindPV(n) => w.(pvs := w.pvs[n := w.pvs[n].(ref := Ref(true, w.claim.value.uid), bound := true)])
    case BindClaim(n) => w.(claim := Some(w.claim.value.(volume := Some(n))))
    case Provision(n, handle, policy) =>
      AddPV(w, n, PV(handle, policy, Ref(true, w.claim.value.uid), w.claim.value.cls, 0, false, false))
    case ForeignCreate(n, pv) => AddPV(w, n, pv)
    case ForeignDelete(n) => w.(pvs := w.pvs - {n})
    case Reclaimer(n) => RemovePV(w, n)
    case CopyEnds(ok, kept) =>
      w.(copying := false, target := if ok then Full else if kept then Partial else Absent)
  }

  function Do(s: State, a: Action): State
    requires Enabled(s, a)
  {
    match a
    case Mig(ok, pick, sc, polls) => MigStep(s, ok, pick, sc, polls)
    case Crash => Fail(s)
    case _ => s.(world := EnvStep(s.world, a))
  }

  predicate IsRun(s: State, acts: seq<Action>)
    decreases |acts|
  {
    acts != [] ==> Enabled(s, acts[0]) && IsRun(Do(s, acts[0]), acts[1..])
  }

  function After(s: State, acts: seq<Action>): State
    requires IsRun(s, acts)
    decreases |acts|
  {
    if acts == [] then s else After(Do(s, acts[0]), acts[1..])
  }

  // ------------------------------------------------------------- invariants

  /** What holds of every PV. */
  ghost predicate PvOk(s: State, n: nat, pv: PV) {
    && n in s.world.names && pv.created <= s.world.now
    && (pv.ref.Ref? ==> pv.ref.uid < s.world.uids)
    && (pv.handle == SOURCE <==> n == s.orig)
    && (n == s.orig ==> pv.ref == Ref(true, s.uid))
    && (n == s.orig && s.gone ==> pv.policy == Retain)
    && (pv.handle == TARGET ==> pv.ref.Ref? && pv.ref.ours)
    && (pv.handle == TARGET && !s.gone ==> Adoptable(pv))
    && (pv.handle == TARGET && pv.policy != Retain ==> s.restored.Some? && s.restored.value.0 == n)
    && (n in s.before ==> pv.created <= s.started)
  }

  ghost predicate ClaimOk(s: State, c: Claim) {
    && 0 < c.uid < s.world.uids
    && (s.gone ==> c.uid != s.uid && c.volume != Some(s.orig))
  }

  /** The reservation is still meant for the claim: unbound, or bound to the claim there is.
      Whether it can bind depends on its class and on what the claim has; see CanBind. */
  ghost predicate Ready(w: World, n: nat) {
    && n in w.pvs && w.pvs[n].handle == TARGET && w.pvs[n].ref.Ref?
    && (w.pvs[n].ref.uid == 0 || (w.claim.Some? && w.pvs[n].ref.uid == w.claim.value.uid))
  }

  ghost predicate Held(w: World, n: nat) {
    n in w.pvs && w.pvs[n].handle == TARGET && w.pvs[n].policy == Retain
  }

  ghost predicate SomeHeld(w: World) {
    exists n :: Held(w, n)
  }

  ghost predicate WorldInv(s: State) {
    var w := s.world;
    && s.uid > 0 && s.uid < w.uids && s.started <= w.now && s.before <= w.names && s.orig in w.names
    && (forall n :: n in w.pvs ==> PvOk(s, n, w.pvs[n]))
    && (w.claim.Some? ==> ClaimOk(s, w.claim.value))
    && (w.copying ==> w.target == Partial)
    && (s.read == s.policy || s.read == Retain)
    && (s.orig in w.pvs ==> w.pvs[s.orig].policy == s.policy || w.pvs[s.orig].policy == Retain)
    && (forall n :: n in s.removed && n in s.before ==> n == s.orig || s.removed[n].handle == TARGET)
  }

  /** Until the old claim is deleted: the original pair is intact, and so is the source disk. */
  ghost predicate BeforeInv(s: State) {
    var w := s.world;
    && w.claim.Some? && w.claim.value.uid == s.uid && w.claim.value.volume == Some(s.orig)
    && s.orig in w.pvs && w.source && s.restored.None?
    && (s.listFailed || forall m, n ::
          m in w.pvs && n in w.pvs && w.pvs[m].handle == TARGET && w.pvs[n].handle == TARGET ==> m == n)
  }

  /** From then on: the copy is full, and a Retain PV carries it until the policy is restored. */
  ghost predicate AfterInv(s: State) {
    var w := s.world;
    && w.target == Full
    && (s.restored.None? ==> w.source && SomeHeld(w))
    && (s.restored.Some? ==>
          && Ready(w, s.restored.value.0) && w.claim.Some? && w.pvs[s.restored.value.0].policy == Final(s.read)
          && (s.restored.value.1 ==> (w.pvs[s.restored.value.0].cls == w.claim.value.cls <==> !s.misfit))
          && (!s.restored.value.1 ==> w.claim.value.volume == Some(s.restored.value.0)))
  }

  ghost predicate AttemptOk(s: State, att: Attempt) {
    && !s.gone && s.world.claim == Some(att.claim) && att.name == s.orig && att.pv.policy == s.read
    && (att.pv.policy == Retain && s.orig in s.world.pvs ==> s.world.pvs[s.orig].policy == Retain)
  }

  /** The original PV, if there, is Retain. */
  ghost predicate Guarded(s: State) {
    s.orig in s.world.pvs ==> s.world.pvs[s.orig].policy == Retain
  }

  ghost predicate NoTarget(w: World) {
    forall n :: n in w.pvs ==> w.pvs[n].handle != TARGET
  }

  ghost predicate ReservingOk(s: State, rw: Rewiring) {
    && AttemptOk(s, rw.att) && s.world.target == Full && rw.started == s.started && rw.reconciliations == 0
    && rw.final == Final(s.read)
  }

  /** The reservation has the class the rewire expects, unless it was adopted with another. */
  ghost predicate Fits(s: State, n: nat, cls: string) {
    n in s.world.pvs ==> (s.world.pvs[n].cls == cls <==> !s.misfit)
  }

  /** A rewire past the old claim, with its reservation in place. */
  ghost predicate RewiringOk(s: State, rw: Rewiring) {
    && s.gone && s.restored.None? && rw.started == s.started && rw.reconciliations <= MAX_RECONCILIATIONS
    && Held(s.world, rw.reserved) && Ready(s.world, rw.reserved) && rw.final == Final(s.read)
    && Fits(s, rw.reserved, rw.cls)
  }

  /** The same while the reservation may have been bound to a claim that is gone. */
  ghost predicate RacingOk(s: State, rw: Rewiring) {
    && s.gone && s.restored.None? && rw.started == s.started && rw.reconciliations <= MAX_RECONCILIATIONS
    && Held(s.world, rw.reserved) && rw.final == Final(s.read)
  }

  /** A PV that lost the race: made during this rewire, and of neither disk. */
  ghost predicate LoserOk(s: State, n: nat) {
    && n in s.world.names && n !in s.before && n != s.orig
    && (n in s.world.pvs ==> s.world.pvs[n].handle != TARGET)
  }

  /** What the migrator knows at each step. */
  ghost predicate PcInv(s: State) {
    var w := s.world;
    match s.pc
    case Idle => true
    case ReadPV(c) => if s.gone then c.volume != Some(s.orig) else w.claim == Some(c)
    case Resume(att) => AttemptOk(s, att)
    case DropPartial(att) => AttemptOk(s, att)
    case Stamp(att) => AttemptOk(s, att)
    case StartCopy(att) => AttemptOk(s, att)
    case AwaitCopy(att) => AttemptOk(s, att)
    case LookFailed(att) => AttemptOk(s, att)
    case DropFailed(att) => AttemptOk(s, att)
    case Verify(att) => AttemptOk(s, att)
    case FindReservation(att, started) => AttemptOk(s, att) && w.target == Full && started == s.started
    case GuardOld(rw, adopted) =>
      ReservingOk(s, rw) &&
      if adopted then Held(w, rw.reserved) && Fits(s, rw.reserved, rw.cls)
      else !s.misfit && (s.listFailed || NoTarget(w))
    case CreateReserved(rw) => ReservingOk(s, rw) && Guarded(s) && !s.misfit && (s.listFailed || NoTarget(w))
    case DeleteClaim(rw) => ReservingOk(s, rw) && Guarded(s) && Held(w, rw.reserved) && Fits(s, rw.reserved, rw.cls)
    case DeleteOld(rw) => RewiringOk(s, rw) && rw.att.name == s.orig
    case CreateClaim(rw) => RewiringOk(s, rw)
    case Poll(rw) => RewiringOk(s, rw)
    case GetRacing(rw, c) => RewiringOk(s, rw) && c.volume != Some(s.orig)
    case DeleteRacingClaim(rw, _, racing) => RacingOk(s, rw) && LoserOk(s, racing)
    case DeleteRacingPV(rw, _, racing) => RacingOk(s, rw) && LoserOk(s, racing)
    case GetReserved(rw, _) => RacingOk(s, rw)
    case CreateNext(rw, _, current) => RacingOk(s, rw) && Replaceable(current) && current.ref == Ref(true, 0)
    case DeleteOutdated(rw, cls, next) =>
      RacingOk(s, rw) && next != rw.reserved && Held(w, next) && Ready(w, next) && w.pvs[next].cls == cls
    case Restore(rw, idle) =>
      && RewiringOk(s, rw) && w.claim.Some?
      && (if idle then w.claim.value.cls == rw.cls else w.claim.value.volume == Some(rw.reserved))
    case Reclaim(rw, idle) => s.gone && s.restored == Some((rw.reserved, idle))
  }

  /** What does not depend on the migrator's position. */
  ghost predicate Base(s: State) {
    WorldInv(s) && if s.gone then AfterInv(s) else BeforeInv(s)
  }

  ghost predicate Inv(s: State) {
    Base(s) && PcInv(s)
  }

  // ----------------------------------------------------- the other actors

  /** What the other actors can do: they keep both disks' PVs and policies, any claim there
      is and a volume it is bound to. */
  ghost predicate EnvFrame(w: World, w': World) {
    && w.names <= w'.names && w.source == w'.source && (w.target == Full ==> w'.target == Full)
    && (forall n :: n in w.pvs && n in w'.pvs ==>
          w'.pvs[n].handle == w.pvs[n].handle && w'.pvs[n].policy == w.pvs[n].policy && w'.pvs[n].cls == w.pvs[n].cls)
    && (forall n :: n in w'.pvs && n !in w.pvs ==>
          n !in w.names && w'.pvs[n].handle != SOURCE && w'.pvs[n].handle != TARGET)
    && (forall n :: n in w.pvs && n !in w'.pvs ==> w.pvs[n].handle != SOURCE && w.pvs[n].handle != TARGET)
    && (w.claim.Some? ==>
          && w'.claim.Some? && w'.claim.value.uid == w.claim.value.uid && w'.claim.value.cls == w.claim.value.cls
          && (w.claim.value.volume.Some? ==> w'.claim == w.claim))
  }

  /** A released PV is never one of the two disks'. */
  lemma ReclaimerSpares(s: State, n: nat)
    requires Base(s) && Enabled(s, Reclaimer(n))
    ensures s.world.pvs[n].handle != SOURCE && s.world.pvs[n].handle != TARGET
  {
    assert PvOk(s, n, s.world.pvs[n]);
  }

  lemma EnvFrames(s: State, a: Action)
    requires Base(s) && Enabled(s, a) && !a.Mig? && !a.Crash?
    ensures EnvFrame(s.world, EnvStep(s.world, a))
  {
    hide AfterInv;
    hide BeforeInv;
    hide PvOk;
    if a.Reclaimer? { ReclaimerSpares(s, a.name); }
    KnownNames(s);
  }

  lemma KnownNames(s: State)
    requires WorldInv(s)
    ensures s.world.pvs.Keys <= s.world.names
  {
    forall n | n in s.world.pvs ensures n in s.world.names { assert PvOk(s, n, s.world.pvs[n]); }
  }

  lemma EnvReady(s: State, a: Action, n: nat)
    requires Base(s) && Enabled(s, a) && !a.Mig? && !a.Crash?
    requires Ready(s.world, n)
    ensures Ready(EnvStep(s.world, a), n)
  {
    if a.Reclaimer? { ReclaimerSpares(s, a.name); }
    hide AfterInv;
    hide BeforeInv;
  }

  lemma EnvWorld(s: State, a: Action)
    requires Base(s) && Enabled(s, a) && !a.Mig? && !a.Crash?
    ensures WorldInv(s.(world := EnvStep(s.world, a)))
  {
    if a.Reclaimer? { ReclaimerSpares(s, a.name); }
  }

  lemma EnvPhase(s: State, a: Action)
    requires Base(s) && Enabled(s, a) && !a.Mig? && !a.Crash?
    ensures var s' := s.(world := EnvStep(s.world, a)); if s'.gone then AfterInv(s') else BeforeInv(s')
  {
    EnvFrames(s, a);
    if s.restored.Some? { EnvReady(s, a, s.restored.value.0); }
    hide Enabled;
    hide EnvStep;
    hide WorldInv;
    var w, w' := s.world, EnvStep(s.world, a);
    if s.gone && s.restored.None? {
      var n :| Held(w, n);
      assert Held(w', n);
    }
  }

  lemma BaseEnv(s: State, a: Action)
    requires Base(s) && Enabled(s, a) && !a.Mig? && !a.Crash?
    ensures Base(s.(world := EnvStep(s.world, a)))
  {
    EnvWorld(s, a);
    EnvPhase(s, a);
    hide WorldInv;
    hide AfterInv;
    hide BeforeInv;
    hide EnvStep;
  }

  /** The reservations a rewire relies on at its present step. */
  ghost function Relied(pc: Pc): set<nat> {
    match pc
    case DeleteOld(rw) => {rw.reserved}
    case CreateClaim(rw) => {rw.reserved}
    case Poll(rw) => {rw.reserved}
    case GetRacing(rw, _) => {rw.reserved}
    case DeleteOutdated(_, _, next) => {next}
    case Restore(rw, _) => {rw.reserved}
    case _ => {}
  }

  lemma PcKept(s: State, w': World)
    requires Base(s) && EnvFrame(s.world, w') && PcInv(s)
    requires forall n :: n in Relied(s.pc) && Ready(s.world, n) ==> Ready(w', n)
    ensures PcInv(s.(world := w'))
  {}

  lemma EnvKeeps(s: State, a: Action)
    requires Inv(s) && Enabled(s, a) && !a.Mig? && !a.Crash?
    ensures Inv(Do(s, a))
  {
    hide PcInv;
    hide Base;
    hide EnvStep;
    EnvFrames(s, a);
    BaseEnv(s, a);
    forall n | n in Relied(s.pc) && Ready(s.world, n) ensures Ready(EnvStep(s.world, a), n) {
      EnvReady(s, a, n);
    }
    PcKept(s, EnvStep(s.world, a));
  }

  // ------------------------------------------------------- the migrator's calls

  /** A step to any position that changes only the cluster. */
  ghost predicate Moved(s: State, s': State) {
    s' == s.(pc := s'.pc, world := s'.world)
  }

  lemma BaseStays(s: State, s': State)
    requires Base(s) && Moved(s, s') && s'.world == s.world
    ensures Base(s')
  {}

  lemma BaseDisk(s: State, s': State)
    requires Base(s) && !s.gone && Moved(s, s')
    requires s'.world == s.world.(target := s'.world.target, copying := s'.world.copying)
    requires s'.world.copying ==> s'.world.target == Partial
    ensures Base(s')
  {}

  /** Stamping or guarding the original PV. */
  lemma BaseEditOrig(s: State, s': State, pv: PV)
    requires Base(s) && s.orig in s.world.pvs && !s.gone && Moved(s, s')
    requires pv == s.world.pvs[s.orig].(stamped := pv.stamped, policy := pv.policy)
    requires pv.policy == s.world.pvs[s.orig].policy || pv.policy == Retain
    requires s'.world == s.world.(pvs := s.world.pvs[s.orig := pv])
    ensures Base(s')
  {}

  lemma BaseMark(s: State, pc: Pc)
    requires Base(s)
    ensures Base(s.(pc := pc, started := s.world.now, before := s.world.names, removed := map[]))
  {}

  lemma BaseListed(s: State, pc: Pc, b: bool, misfit: bool)
    requires Base(s) && !s.gone
    ensures Base(s.(pc := pc, listFailed := s.listFailed || b, misfit := misfit))
  {}

  lemma BaseRead(s: State, pc: Pc)
    requires Base(s) && !s.gone && s.orig in s.world.pvs
    ensures Base(s.(pc := pc, read := s.world.pvs[s.orig].policy))
  {}

  lemma BaseRefit(s: State)
    requires Base(s) && s.restored.None?
    ensures Base(s.(misfit := false))
  {}

  lemma BaseReserve(s: State, s': State, n: nat, pv: PV)
    requires Base(s) && n !in s.world.names && Adoptable(pv) && Moved(s, s')
    requires !s.gone ==> s.listFailed || NoTarget(s.world)
    requires s'.world == AddPV(s.world, n, pv)
    ensures Base(s')
  {
    if s.gone && s.restored.None? {
      var m :| Held(s.world, m);
      assert Held(s'.world, m);
    }
  }

  lemma BaseGone(s: State, pc: Pc, n: nat)
    requires Base(s) && !s.gone && s.world.target == Full && Guarded(s) && Held(s.world, n)
    ensures Base(s.(pc := pc, world := s.world.(claim := None), gone := true))
  {
    assert Held(s.world.(claim := None), n);
  }

  /** Deleting a PV that carries no copy, or an outdated reservation beside its replacement. */
  lemma BaseRemove(s: State, pc: Pc, n: nat)
    requires Base(s) && s.gone && s.restored.None? && n in s.world.pvs
    requires n == s.orig || LoserOk(s, n) || (Held(s.world, n) && exists m :: m != n && Held(s.world, m))
    ensures Base(s.(pc := pc, world := RemovePV(s.world, n), removed := s.removed[n := s.world.pvs[n]]))
  {
    var w' := RemovePV(s.world, n);
    if Held(s.world, n) && !LoserOk(s, n) {
      var m :| m != n && Held(s.world, m);
      assert Held(w', m);
    } else {
      var m :| Held(s.world, m);
      assert Held(w', m);
    }
  }

  lemma BaseNewClaim(s: State, s': State, cls: string)
    requires Base(s) && s.gone && s.restored.None? && Moved(s, s') && s'.world == NewClaim(s.world, cls)
    ensures Base(s')
  {
    var n :| Held(s.world, n);
    assert Held(s'.world, n);
  }

  lemma BaseLoseClaim(s: State, s': State)
    requires Base(s) && s.gone && s.restored.None? && Moved(s, s') && s'.world == s.world.(claim := None)
    ensures Base(s')
  {
    var n :| Held(s.world, n);
    assert Held(s'.world, n);
  }

  lemma BaseRestore(s: State, s': State, n: nat, idle: bool)
    requires Base(s) && s.gone && s.restored.None? && Held(s.world, n) && Ready(s.world, n)
    requires s.world.claim.Some?
    requires if idle then Fits(s, n, s.world.claim.value.cls) else s.world.claim.value.volume == Some(n)
    requires s' == s.(pc := s'.pc, world := s'.world, restored := Some((n, idle)))
    requires s'.world == s.world.(pvs := s.world.pvs[n := s.world.pvs[n].(policy := Final(s.read))])
    ensures Base(s')
  {}

  lemma BaseReclaim(s: State, s': State)
    requires Base(s) && s.gone && s.restored.Some? && Moved(s, s') && s'.world == Destroy(s.world, SOURCE)
    ensures Base(s')
  {}

  // ------------------------------------------------------- the migrator's steps

  lemma IdlePc(s: State, ok: bool)
    requires Base(s) && s.pc.Idle?
    ensures PcInv(CopyStep(s, ok))
  {
    hide AfterInv;
    hide PvOk;
  }

  lemma ReadsOrig(s: State, n: nat)
    requires WorldInv(s) && n in s.world.pvs && s.world.pvs[n].handle == SOURCE
    ensures n == s.orig
  {
    assert PvOk(s, n, s.world.pvs[n]);
  }

  lemma ReadPc(s: State, ok: bool)
    requires Inv(s) && s.pc.ReadPV?
    ensures PcInv(CopyStep(s, ok))
  {
    hide WorldInv;
    hide AfterInv;
    hide BeforeInv;
    var v := s.pc.claim.volume;
    if v.Some? && v.value in s.world.pvs && s.world.pvs[v.value].handle == SOURCE { ReadsOrig(s, v.value); }
  }

  lemma CopyPc(s: State, ok: bool)
    requires PcInv(s) && Copying(s.pc) && !s.pc.Idle? && !s.pc.ReadPV?
    ensures PcInv(CopyStep(s, ok))
  {}

  lemma CopyBase(s: State, ok: bool)
    requires Inv(s) && Copying(s.pc) && !s.pc.ReadPV? && !s.pc.Verify?
    ensures Base(CopyStep(s, ok))
  {
    hide Base;
    var w, s', pc := s.world, CopyStep(s, ok), s.pc;
    if pc.DropPartial? || pc.DropFailed? || pc.StartCopy? {
      DiskBase(s, ok);
    } else if pc.Stamp? && s.orig in w.pvs {
      BaseEditOrig(s, s', w.pvs[s.orig].(stamped := true));
    } else {
      BaseStays(s, s');
    }
  }

  lemma DiskBase(s: State, ok: bool)
    requires Inv(s) && (s.pc.DropPartial? || s.pc.DropFailed? || s.pc.StartCopy?)
    ensures Base(CopyStep(s, ok))
  {
    hide Base;
    BaseCopying(s);
    BaseDisk(s, CopyStep(s, ok));
  }

  lemma ReadBase(s: State, ok: bool)
    requires Inv(s) && s.pc.ReadPV?
    ensures Base(CopyStep(s, ok))
  {
    var s' := CopyStep(s, ok);
    if s'.pc.Resume? {
      assert !s.gone && s.pc.claim.volume == Some(s.orig);
      BaseRead(s, s'.pc);
    } else {
      BaseStays(s, s');
    }
    hide Base;
  }

  lemma BaseWorld(s: State)
    requires Base(s)
    ensures WorldInv(s)
  {}

  lemma BaseCopying(s: State)
    requires Base(s)
    ensures s.world.copying ==> s.world.target == Partial
  {}

  lemma VerifyBase(s: State, ok: bool)
    requires Base(s) && s.pc.Verify?
    ensures Base(CopyStep(s, ok))
  {
    BaseMark(s, CopyStep(s, ok).pc);
    BaseStays(s, Fail(s));
    hide Base;
  }

  lemma NoneLeft(s: State)
    requires Base(s) && !s.gone && !HasAdoptable(s.world)
    ensures NoTarget(s.world)
  {}

  lemma FindPc(s: State, ok: bool, pick: nat, cls: Option<string>, polls: nat)
    requires Inv(s) && s.pc.FindReservation? && Possible(s, ok, pick)
    ensures PcInv(ReserveStep(s, ok, pick, cls, polls))
  {
    hide Base;
    hide HasAdoptable;
    hide NoTarget;
    if !HasAdoptable(s.world) { NoneLeft(s); }
  }

  lemma GuardPc(s: State, ok: bool, pick: nat, cls: Option<string>, polls: nat)
    requires PcInv(s) && s.pc.GuardOld?
    ensures PcInv(ReserveStep(s, ok, pick, cls, polls))
  {}

  lemma CreatePc(s: State, ok: bool, pick: nat, cls: Option<string>, polls: nat)
    requires Inv(s) && s.pc.CreateReserved? && Possible(s, ok, pick)
    ensures PcInv(ReserveStep(s, ok, pick, cls, polls))
  {}

  lemma SwitchPc(s: State, ok: bool, pick: nat, cls: Option<string>, polls: nat)
    requires Inv(s) && (s.pc.DeleteClaim? || s.pc.DeleteOld? || s.pc.CreateClaim?)
    ensures PcInv(ReserveStep(s, ok, pick, cls, polls))
  {}

  lemma ReserveBase(s: State, ok: bool, pick: nat, cls: Option<string>, polls: nat)
    requires Inv(s) && (s.pc.FindReservation? || s.pc.GuardOld? || s.pc.CreateReserved?) && Possible(s, ok, pick)
    ensures Base(ReserveStep(s, ok, pick, cls, polls))
  {
    hide Base;
    var w, s', pc := s.world, ReserveStep(s, ok, pick, cls, polls), s.pc;
    if pc.FindReservation? {
      BaseListed(s, s'.pc, !ok, s'.misfit);
    } else if s'.world == w {
      BaseStays(s, s');
    } else if pc.GuardOld? {
      BaseEditOrig(s, s', w.pvs[s.orig].(policy := Retain));
    } else {
      BaseReserve(s, s', pick, Reservation(pc.rw));
    }
  }

  lemma SwitchBase(s: State, ok: bool, pick: nat, cls: Option<string>, polls: nat)
    requires Inv(s) && (s.pc.DeleteClaim? || s.pc.DeleteOld? || s.pc.CreateClaim?)
    ensures Base(ReserveStep(s, ok, pick, cls, polls))
  {
    hide Base;
    var w, s', pc := s.world, ReserveStep(s, ok, pick, cls, polls), s.pc;
    if Moved(s, s') && s'.world == w {
      BaseStays(s, s');
    } else if pc.DeleteClaim? {
      BaseGone(s, s'.pc, pc.rw.reserved);
    } else if pc.DeleteOld? {
      BaseRemove(s, s'.pc, s.orig);
    } else {
      BaseNewClaim(s, s', pc.rw.claimCls);
    }
  }

  lemma PollPc(s: State, rw: Rewiring, ok: bool)
    requires RewiringOk(s, rw) && (s.world.claim.Some? ==> ClaimOk(s, s.world.claim.value))
    ensures PcInv(Goto(s, PollNext(s.world.claim, rw, ok)))
  {
    hide Held;
    hide Ready;
  }

  lemma PollKeeps(s: State, ok: bool, pick: nat)
    requires Inv(s) && s.pc.Poll?
    ensures Inv(WaitStep(s, ok, pick))
  {
    BaseStays(s, WaitStep(s, ok, pick));
    PollPc(s, s.pc.rw, ok);
    hide PollNext;
    hide PcInv;
    hide Base;
  }

  /** A PV newer than the rewire is not one that was there before it. */
  lemma RacingIsNew(s: State, n: nat)
    requires Base(s) && n in s.world.pvs && Racing(s.world.pvs[n], s.started) && n != s.orig
    ensures LoserOk(s, n)
  {
    assert PvOk(s, n, s.world.pvs[n]);
  }

  lemma RacingPc(s: State, ok: bool, pick: nat)
    requires Inv(s) && s.pc.GetRacing?
    ensures PcInv(WaitStep(s, ok, pick))
  {
    hide Base;
    var v := s.pc.claim.volume;
    if v.Some? && v.value in s.world.pvs && Racing(s.world.pvs[v.value], s.started) { RacingIsNew(s, v.value); }
  }

  lemma LosersPc(s: State, ok: bool, pick: nat)
    requires PcInv(s) && (s.pc.DeleteRacingClaim? || s.pc.DeleteRacingPV?)
    ensures PcInv(WaitStep(s, ok, pick))
  {}

  lemma RaceBase(s: State, ok: bool, pick: nat)
    requires Inv(s) && (s.pc.GetRacing? || s.pc.DeleteRacingClaim? || s.pc.DeleteRacingPV?)
    ensures Base(WaitStep(s, ok, pick))
  {
    hide Base;
    var w, s', pc := s.world, WaitStep(s, ok, pick), s.pc;
    if pc.GetRacing? {
      BaseStays(s, s');
    } else if pc.DeleteRacingClaim? {
      BaseLoseClaim(s, s');
    } else if pc.racing in w.pvs {
      BaseRemove(s, s'.pc, pc.racing);
    } else {
      BaseStays(s, s');
    }
  }

  lemma TargetIsReserved(s: State, n: nat)
    requires WorldInv(s) && n in s.world.pvs && s.world.pvs[n].handle == TARGET
    ensures s.world.pvs[n].ref.Ref? && s.world.pvs[n].ref.ours && n in s.world.names
  {
    assert PvOk(s, n, s.world.pvs[n]);
  }

  lemma ReservedPc(s: State, ok: bool, pick: nat)
    requires WorldInv(s) && PcInv(s) && s.pc.GetReserved?
    ensures PcInv(WaitStep(s, ok, pick))
  {
    hide WorldInv;
    TargetIsReserved(s, s.pc.rw.reserved);
  }

  lemma NextPc(s: State, ok: bool, pick: nat)
    requires WorldInv(s) && PcInv(s) && (s.pc.CreateNext? || s.pc.DeleteOutdated?) && Possible(s, ok, pick)
    ensures PcInv(WaitStep(s, ok, pick))
  {
    hide WorldInv;
    TargetIsReserved(s, s.pc.rw.reserved);
  }

  lemma NextBase(s: State, ok: bool, pick: nat)
    requires Inv(s) && (s.pc.GetReserved? || s.pc.CreateNext? || s.pc.DeleteOutdated?) && Possible(s, ok, pick)
    ensures Base(WaitStep(s, ok, pick))
  {
    hide Base;
    var w, s', pc := s.world, WaitStep(s, ok, pick), s.pc;
    if pc.GetReserved? {
      BaseStays(s, s');
    } else if pc.CreateNext? {
      BaseReserve(s, s', pick, pc.current.(cls := s'.pc.cls, bound := false));
    } else {
      BaseRemove(s, s'.pc, pc.rw.reserved);
      BaseRefit(s'.(misfit := s.misfit));
    }
  }

  lemma FinishKeeps(s: State, ok: bool)
    requires Inv(s) && (s.pc.Restore? || s.pc.Reclaim?)
    ensures Inv(FinishStep(s, ok))
  {
    hide Base;
    var w, s', pc := s.world, FinishStep(s, ok), s.pc;
    if pc.Restore? {
      BaseRestore(s, s', pc.rw.reserved, pc.idle);
    } else if ok {
      BaseReclaim(s, s');
    } else {
      BaseStays(s, s');
    }
  }

  lemma MigKeeps(s: State, ok: bool, pick: nat, cls: Option<string>, polls: nat)
    requires Inv(s) && Possible(s, ok, pick)
    ensures Inv(MigStep(s, ok, pick, cls, polls))
  {
    hide Base;
    hide PcInv;
    hide CopyStep;
    hide ReserveStep;
    hide WaitStep;
    hide FinishStep;
    hide Possible;
    var pc := s.pc;
    if Copying(pc) {
      if pc.Idle? { IdlePc(s, ok); } else if pc.ReadPV? { ReadPc(s, ok); } else { CopyPc(s, ok); }
      if pc.Verify? { VerifyBase(s, ok); } else if pc.ReadPV? { ReadBase(s, ok); } else { CopyBase(s, ok); }
    } else if pc.FindReservation? || pc.GuardOld? || pc.CreateReserved? {
      if pc.FindReservation? { FindPc(s, ok, pick, cls, polls); }
      if pc.GuardOld? { GuardPc(s, ok, pick, cls, polls); }
      if pc.CreateReserved? { CreatePc(s, ok, pick, cls, polls); }
      ReserveBase(s, ok, pick, cls, polls);
    } else if pc.DeleteClaim? || pc.DeleteOld? || pc.CreateClaim? {
      SwitchPc(s, ok, pick, cls, polls);
      SwitchBase(s, ok, pick, cls, polls);
    } else if pc.Poll? {
      PollKeeps(s, ok, pick);
    } else if pc.GetRacing? || pc.DeleteRacingClaim? || pc.DeleteRacingPV? {
      if pc.GetRacing? { RacingPc(s, ok, pick); } else { LosersPc(s, ok, pick); }
      RaceBase(s, ok, pick);
    } else if Waiting(pc) {
      assert WorldInv(s) by { BaseWorld(s); }
      if pc.GetReserved? { ReservedPc(s, ok, pick); } else { NextPc(s, ok, pick); }
      NextBase(s, ok, pick);
    } else {
      FinishKeeps(s, ok);
    }
  }

  lemma StepKeeps(s: State, a: Action)
    requires Inv(s) && Enabled(s, a)
    ensures Inv(Do(s, a))
  {
    hide Base;
    if a.Mig? {
      MigKeeps(s, a.ok, a.pick, a.sc, a.polls);
    } else if a.Crash? {
      BaseStays(s, Fail(s));
    } else {
      EnvKeeps(s, a);
    }
  }

  // --------------------------------------------- what a call does to PVs and claims

  /** The PV a migrator call may edit or delete. */
  function Own(pc: Pc): set<nat> {
    match pc
    case Stamp(att) => {att.name}
    case GuardOld(rw, _) => {rw.att.name}
    case DeleteOld(rw) => {rw.att.name}
    case DeleteRacingPV(_, _, racing) => {racing}
    case DeleteOutdated(rw, _, _) => {rw.reserved}
    case Restore(rw, _) => {rw.reserved}
    case _ => {}
  }

  /** No more than this: a PV of its own is given another policy or stamp, or deleted; a PV is
      made that no claim has; the claim is deleted, or a new one made. */
  ghost predicate MigFrame(w: World, w': World, own: set<nat>) {
    && w.names <= w'.names
    && (forall n :: n in w.pvs && n !in own ==> n in w'.pvs && w'.pvs[n] == w.pvs[n])
    && (forall n :: n in w'.pvs && n in w.pvs ==>
          w'.pvs[n] == w.pvs[n].(policy := w'.pvs[n].policy, stamped := w'.pvs[n].stamped))
    && (forall n :: n in w'.pvs && n !in w.pvs ==> n !in w.names && w'.pvs[n].ref == Ref(true, 0))
    && (w'.claim == w.claim || w'.claim.None? || (w'.claim.value.uid == w.uids && w'.claim.value.volume.None?))
  }

  lemma FrameDisk(w: World, w': World, own: set<nat>)
    requires w'.pvs == w.pvs && w'.names == w.names && w'.claim == w.claim
    ensures MigFrame(w, w', own)
  {}

  lemma FrameEdit(w: World, n: nat, pv: PV)
    requires n in w.pvs && pv == w.pvs[n].(policy := pv.policy, stamped := pv.stamped)
    ensures MigFrame(w, w.(pvs := w.pvs[n := pv]), {n})
  {}

  lemma FrameAdd(w: World, n: nat, pv: PV)
    requires n !in w.names && (forall m :: m in w.pvs ==> m in w.names) && pv.ref == Ref(true, 0)
    ensures MigFrame(w, AddPV(w, n, pv), {})
  {}

  lemma FrameRemove(w: World, n: nat)
    ensures MigFrame(w, RemovePV(w, n), {n})
  {}

  lemma FrameClaim(w: World, cls: string)
    ensures MigFrame(w, w.(claim := None), {}) && MigFrame(w, NewClaim(w, cls), {})
  {}

  lemma CopyFrames(s: State, ok: bool)
    requires Copying(s.pc)
    ensures MigFrame(s.world, CopyStep(s, ok).world, Own(s.pc))
  {
    hide MigFrame;
    hide CopyStep;
    if s.pc.Stamp? {
      StampFrames(s, ok);
    } else if s.pc.DropPartial? || s.pc.StartCopy? || s.pc.DropFailed? {
      DiskFrames(s, ok);
    } else {
      LookFrames(s, ok);
      FrameDisk(s.world, s.world, {});
    }
  }

  lemma DiskFrames(s: State, ok: bool)
    requires s.pc.DropPartial? || s.pc.StartCopy? || s.pc.DropFailed?
    ensures MigFrame(s.world, CopyStep(s, ok).world, Own(s.pc))
  {
    hide MigFrame;
    FrameDisk(s.world, CopyStep(s, ok).world, {});
  }

  lemma LookFrames(s: State, ok: bool)
    requires Copying(s.pc) && !s.pc.Stamp? && !s.pc.DropPartial? && !s.pc.StartCopy? && !s.pc.DropFailed?
    ensures CopyStep(s, ok).world == s.world
  {}

  lemma StampFrames(s: State, ok: bool)
    requires s.pc.Stamp?
    ensures MigFrame(s.world, CopyStep(s, ok).world, Own(s.pc))
  {
    hide MigFrame;
    var w, n := s.world, s.pc.att.name;
    if n in w.pvs { FrameEdit(w, n, w.pvs[n].(stamped := true)); } else { FrameDisk(w, w, {n}); }
  }

  lemma ReserveFrames(s: State, ok: bool, pick: nat, cls: Option<string>, polls: nat)
    requires Reserving(s.pc) && Possible(s, ok, pick) && forall m :: m in s.world.pvs ==> m in s.world.names
    ensures MigFrame(s.world, ReserveStep(s, ok, pick, cls, polls).world, Own(s.pc))
  {
    hide MigFrame;
    hide AddPV;
    hide RemovePV;
    hide NewClaim;
    hide HasAdoptable;
    var w, pc := s.world, s.pc;
    FrameDisk(w, w, Own(pc));
    if pc.GuardOld? {
      var n := pc.rw.att.name;
      if n in w.pvs { FrameEdit(w, n, w.pvs[n].(policy := Retain)); }
    } else if pc.CreateReserved? {
      FrameAdd(w, pick, Reservation(pc.rw));
    } else if pc.DeleteClaim? {
      FrameClaim(w, "");
    } else if pc.DeleteOld? {
      FrameRemove(w, pc.rw.att.name);
    } else if pc.CreateClaim? {
      FrameClaim(w, pc.rw.claimCls);
    }
  }

  lemma WaitFrames(s: State, ok: bool, pick: nat)
    requires Waiting(s.pc) && Possible(s, ok, pick) && forall m :: m in s.world.pvs ==> m in s.world.names
    requires s.pc.CreateNext? ==> s.pc.current.ref == Ref(true, 0)
    ensures MigFrame(s.world, WaitStep(s, ok, pick).world, Own(s.pc))
  {
    hide MigFrame;
    hide AddPV;
    hide RemovePV;
    hide WaitNext;
    var w, pc := s.world, s.pc;
    FrameDisk(w, w, Own(pc));
    if pc.DeleteRacingClaim? {
      FrameClaim(w, "");
    } else if pc.DeleteRacingPV? {
      FrameRemove(w, pc.racing);
    } else if pc.CreateNext? {
      FrameAdd(w, pick, pc.current.(cls := pc.cls, bound := false));
    } else if pc.DeleteOutdated? {
      FrameRemove(w, pc.rw.reserved);
    }
  }

  lemma FinishFrames(s: State, ok: bool)
    requires s.pc.Restore? || s.pc.Reclaim?
    ensures MigFrame(s.world, FinishStep(s, ok).world, Own(s.pc))
  {
    hide MigFrame;
    var w := s.world;
    FrameDisk(w, w, Own(s.pc));
    if s.pc.Restore? {
      var n := s.pc.rw.reserved;
      if n in w.pvs { FrameEdit(w, n, w.pvs[n].(policy := s.pc.rw.final)); }
    } else {
      FrameDisk(w, Destroy(w, SOURCE), Own(s.pc));
    }
  }

  lemma CreatesReserved(s: State)
    requires Inv(s)
    ensures forall m :: m in s.world.pvs ==> m in s.world.names
    ensures s.pc.CreateNext? ==> s.pc.current.ref == Ref(true, 0)
  {
    KnownNames(s);
  }

  lemma MigFrames(s: State, ok: bool, pick: nat, cls: Option<string>, polls: nat)
    requires Inv(s) && Possible(s, ok, pick)
    ensures MigFrame(s.world, MigStep(s, ok, pick, cls, polls).world, Own(s.pc))
  {
    hide MigFrame;
    hide CopyStep;
    hide ReserveStep;
    hide WaitStep;
    hide FinishStep;
    hide Possible;
    hide Inv;
    hide Own;
    CreatesReserved(s);
    if Copying(s.pc) {
      CopyFrames(s, ok);
    } else if Reserving(s.pc) {
      ReserveFrames(s, ok, pick, cls, polls);
    } else if Waiting(s.pc) {
      WaitFrames(s, ok, pick);
    } else {
      FinishFrames(s, ok);
    }
  }

  /** What may be edited or deleted is the original PV, a PV of the copy, or a PV made since the
      rewire began. */
  lemma OwnMeans(s: State, n: nat)
    requires Inv(s) && n in Own(s.pc) && n in s.world.pvs
    ensures n == s.orig || s.world.pvs[n].handle == TARGET || n !in s.before
  {}

  /** A migration leaves every PV alone that is of neither disk and was there when its rewire
      began, whoever's claim it is for. */
  lemma OthersUntouched(s: State, ok: bool, pick: nat, cls: Option<string>, polls: nat, n: nat)
    requires Inv(s) && Possible(s, ok, pick)
    requires n in s.world.pvs && n in s.before && n != s.orig && s.world.pvs[n].handle != TARGET
    ensures var w' := MigStep(s, ok, pick, cls, polls).world; n in w'.pvs && w'.pvs[n] == s.world.pvs[n]
  {
    MigFrames(s, ok, pick, cls, polls);
    if n in Own(s.pc) { OwnMeans(s, n); }
    hide Inv;
    hide MigStep;
    hide Own;
  }

  // ------------------------------------------------- the claim that was found idle

  /** The reservation of a claim that was found idle, from that poll on. */
  function Awaited(s: State): Option<nat> {
    if s.pc.Restore? && s.pc.idle then Some(s.pc.rw.reserved)
    else if s.restored.Some? && s.restored.value.1 then Some(s.restored.value.0)
    else None
  }

  /** The binder gives such a claim another volume. */
  predicate Diverts(s: State, a: Action) {
    a.BindClaim? && Awaited(s).Some? && a.name != Awaited(s).value
  }

  /** A claim is bound only to PVs there have been; and a PV of the copy that has the claim's
      uid, or the claim, is of its class. */
  ghost predicate ClassInv(w: World) {
    w.claim.Some? ==>
      && (w.claim.value.volume.Some? ==> w.claim.value.volume.value in w.names)
      && (forall n :: n in w.pvs && Tied(w.pvs[n], n, w.claim.value) ==> w.pvs[n].cls == w.claim.value.cls)
  }

  predicate Tied(pv: PV, n: nat, c: Claim) {
    pv.handle == TARGET && ((pv.ref.Ref? && pv.ref.uid == c.uid) || c.volume == Some(n))
  }

  lemma FrameClass(s: State, w': World, own: set<nat>)
    requires WorldInv(s) && ClassInv(s.world) && MigFrame(s.world, w', own)
    ensures ClassInv(w')
  {
    forall n | n in s.world.pvs ensures PvOk(s, n, s.world.pvs[n]) {}
  }

  lemma EnvClass(s: State, a: Action)
    requires WorldInv(s) && ClassInv(s.world) && Enabled(s, a) && !a.Mig? && !a.Crash?
    ensures ClassInv(EnvStep(s.world, a))
  {
    forall n | n in s.world.pvs ensures PvOk(s, n, s.world.pvs[n]) {}
  }

  lemma ClassStep(s: State, a: Action)
    requires Inv(s) && ClassInv(s.world) && Enabled(s, a)
    ensures ClassInv(Do(s, a).world)
  {
    hide PcInv;
    hide AfterInv;
    hide BeforeInv;
    hide WorldInv;
    hide ClassInv;
    hide MigFrame;
    hide MigStep;
    hide EnvStep;
    if a.Mig? {
      MigFrames(s, a.ok, a.pick, a.sc, a.polls);
      FrameClass(s, Do(s, a).world, Own(s.pc));
    } else if !a.Crash? {
      EnvClass(s, a);
    }
  }

  /** Of a claim that was found idle it is known whether it has been given away since. */
  ghost predicate DivertInv(s: State, diverted: bool) {
    && (diverted ==> s.gone && (Awaited(s).Some? || s.pc.Idle? || s.pc.ReadPV?))
    && (Awaited(s).Some? && s.world.claim.Some? ==>
          (diverted <==> s.world.claim.value.volume.Some? && s.world.claim.value.volume != Awaited(s)))
  }

  /** Where the migrator can be once a claim was found idle, or an attempt after the old claim
      was deleted is over. */
  predicate Settled(s: State) {
    Awaited(s).Some? || (s.gone && (s.pc.Idle? || s.pc.ReadPV?))
  }

  lemma SettledPc(s: State)
    requires Inv(s) && Settled(s)
    ensures s.gone && (s.pc.Restore? || s.pc.Reclaim? || s.pc.Idle? || s.pc.ReadPV?)
    ensures Awaited(s).Some? ==> s.world.claim.Some?
    ensures s.pc.Restore? ==> s.restored.None?
    ensures s.pc.Reclaim? ==> s.restored == Some((s.pc.rw.reserved, s.pc.idle))
  {}

  lemma NotOrig(s: State)
    requires Inv(s) && s.gone && s.pc.ReadPV?
    ensures var v := s.pc.claim.volume; v.Some? && v.value in s.world.pvs ==> s.world.pvs[v.value].handle != SOURCE
  {
    hide AfterInv;
  }

  lemma DivertRead(s: State, ok: bool, diverted: bool)
    requires Inv(s) && DivertInv(s, diverted) && s.gone && (s.pc.Idle? || s.pc.ReadPV?)
    ensures DivertInv(CopyStep(s, ok), diverted)
  {
    if s.pc.ReadPV? { NotOrig(s); }
    hide Inv;
  }

  lemma DivertFinish(s: State, ok: bool, diverted: bool)
    requires Inv(s) && DivertInv(s, diverted) && Awaited(s).Some? && (s.pc.Restore? || s.pc.Reclaim?)
    ensures DivertInv(FinishStep(s, ok), diverted)
  {
    SettledPc(s);
    hide Inv;
  }

  /** No other call begins such a wait but a poll that finds the claim unbound. */
  lemma DivertPoll(s: State, ok: bool, pick: nat)
    requires Waiting(s.pc) && Awaited(s).None?
    ensures DivertInv(WaitStep(s, ok, pick), false)
  {
    hide Racing;
    hide Replaceable;
    hide RemovePV;
    hide AddPV;
  }

  lemma CopyAwaits(s: State, ok: bool)
    requires Awaited(s).None? && Copying(s.pc)
    ensures Awaited(CopyStep(s, ok)).None?
  {
    hide Destroy;
  }

  lemma ReserveAwaits(s: State, ok: bool, pick: nat, cls: Option<string>, polls: nat)
    requires Awaited(s).None? && Reserving(s.pc)
    ensures Awaited(ReserveStep(s, ok, pick, cls, polls)).None?
  {
    hide HasAdoptable;
    hide AddPV;
    hide RemovePV;
    hide NewClaim;
    hide Misfit;
  }

  lemma FinishAwaits(s: State, ok: bool)
    requires Inv(s) && Awaited(s).None? && (s.pc.Restore? || s.pc.Reclaim?)
    ensures Awaited(FinishStep(s, ok)).None?
  {
    if s.pc.Reclaim? { assert s.restored == Some((s.pc.rw.reserved, s.pc.idle)); }
    hide Inv;
  }

  lemma DivertMig(s: State, ok: bool, pick: nat, cls: Option<string>, polls: nat, diverted: bool)
    requires Inv(s) && DivertInv(s, diverted)
    ensures DivertInv(MigStep(s, ok, pick, cls, polls), diverted)
  {
    hide CopyStep;
    hide ReserveStep;
    hide WaitStep;
    hide FinishStep;
    hide Inv;
    if Settled(s) { SettledPc(s); }
    if s.gone && (s.pc.Idle? || s.pc.ReadPV?) {
      DivertRead(s, ok, diverted);
    } else if Awaited(s).Some? {
      DivertFinish(s, ok, diverted);
    } else if Waiting(s.pc) {
      DivertPoll(s, ok, pick);
    } else if Copying(s.pc) {
      CopyAwaits(s, ok);
    } else if Reserving(s.pc) {
      ReserveAwaits(s, ok, pick, cls, polls);
    } else {
      FinishAwaits(s, ok);
    }
  }

  lemma DivertEnv(s: State, a: Action, diverted: bool)
    requires Enabled(s, a) && !a.Mig? && !a.Crash? && DivertInv(s, diverted)
    requires Awaited(s).Some? ==> s.world.claim.Some? && s.gone
    ensures DivertInv(s.(world := EnvStep(s.world, a)), diverted || Diverts(s, a))
  {
    hide Bindable;
  }

  lemma DivertStep(s: State, a: Action, diverted: bool)
    requires Inv(s) && DivertInv(s, diverted) && Enabled(s, a)
    ensures DivertInv(Do(s, a), diverted || Diverts(s, a))
  {
    hide Inv;
    hide MigStep;
    hide EnvStep;
    if Settled(s) { SettledPc(s); }
    if a.Mig? {
      DivertMig(s, a.ok, a.pick, a.sc, a.polls, diverted);
    } else if !a.Crash? {
      hide DivertInv;
      DivertEnv(s, a, diverted);
    }
  }

  /** No claim that was found idle is given another volume than its reservation. */
  predicate LeftAlone(s: State, acts: seq<Action>)
    requires IsRun(s, acts)
    decreases |acts|
  {
    acts != [] ==> !Diverts(s, acts[0]) && LeftAlone(Do(s, acts[0]), acts[1..])
  }

  lemma {:induction false} IdleKeeps(s: State, acts: seq<Action>, diverted: bool)
    requires Inv(s) && ClassInv(s.world) && DivertInv(s, diverted) && IsRun(s, acts)
    ensures var t := After(s, acts); Inv(t) && ClassInv(t.world) && DivertInv(t, diverted || !LeftAlone(s, acts))
    decreases |acts|
  {
    hide Inv;
    hide ClassInv;
    hide DivertInv;
    hide Do;
    hide Diverts;
    hide Enabled;
    if acts != [] {
      StepKeeps(s, acts[0]);
      ClassStep(s, acts[0]);
      DivertStep(s, acts[0], diverted);
      IdleKeeps(Do(s, acts[0]), acts[1..], diverted || Diverts(s, acts[0]));
    }
  }

  // ----------------------------------------------------------------- results

  /** Before the first attempt: the claim is bound to the SOURCE volume, and nothing of the
      target exists. */
  ghost predicate Initial(s: State) {
    var w := s.world;
    && s.pc == Idle && !s.gone && s.restored.None? && !s.listFailed && s.removed == map[]
    && s.started <= w.now && s.before <= w.names && !s.misfit
    && w.source && w.target == Absent && !w.copying
    && 0 < s.uid < w.uids && w.claim.Some? && w.claim.value.uid == s.uid && w.claim.value.volume == Some(s.orig)
    && s.orig in w.pvs && w.pvs[s.orig].handle == SOURCE && w.pvs[s.orig].ref == Ref(true, s.uid)
    && w.pvs[s.orig].policy == s.policy == s.read
    && (forall n :: n in w.pvs ==>
          && n in w.names && w.pvs[n].created <= w.now && w.pvs[n].handle != TARGET
          && (n in s.before ==> w.pvs[n].created <= s.started)
          && (n != s.orig ==> w.pvs[n].handle != SOURCE) && (w.pvs[n].ref.Ref? ==> w.pvs[n].ref.uid < w.uids))
  }

  lemma {:induction false} RunKeeps(s: State, acts: seq<Action>)
    requires Inv(s) && IsRun(s, acts)
    ensures Inv(After(s, acts))
    decreases |acts|
  {
    if acts != [] {
      StepKeeps(s, acts[0]);
      hide Inv;
      RunKeeps(Do(s, acts[0]), acts[1..]);
    }
  }

  lemma ReachableInv(s: State, acts: seq<Action>)
    requires Initial(s) && IsRun(s, acts)
    ensures Inv(After(s, acts))
  {
    RunKeeps(s, acts);
  }

  lemma InitialIdle(s: State)
    requires Initial(s)
    ensures Inv(s) && ClassInv(s.world) && DivertInv(s, false)
  {}

  lemma ReachableIdle(s: State, acts: seq<Action>)
    requires Initial(s) && IsRun(s, acts)
    ensures var t := After(s, acts); Inv(t) && ClassInv(t.world) && DivertInv(t, !LeftAlone(s, acts))
  {
    InitialIdle(s);
    IdleKeeps(s, acts, false);
    hide *;
  }

  /** An idle claim's reservation, in a reachable state. */
  lemma IdleMeans(s: State, diverted: bool)
    requires Inv(s) && ClassInv(s.world) && DivertInv(s, diverted) && s.restored.Some? && s.restored.value.1
    ensures CanBind(s.world, s.restored.value.0) <==> !s.misfit && !diverted
  {
    SettledPc(s);
    RestoredInv(s);
    hide PcInv;
    hide WorldInv;
  }

  /** Where the data is: on the source disk until the claim that uses it is gone, on a full
      copy from then on. The source disk goes only when the claim is bound to a TARGET PV, or was
      found idle with one reserved for it. That one has the claim, or can still be bound to it,
      exactly when it was not adopted with another class and the claim has not been given
      another volume since it was found idle. */
  ghost predicate DataSafe(s: State, diverted: bool) {
    var w := s.world;
    && (!s.gone ==> w.source && w.claim.Some? && w.claim.value.volume == Some(s.orig) && s.orig in w.pvs)
    && (s.gone ==> w.target == Full && !w.copying)
    && (!w.source ==>
          && s.gone && s.restored.Some? && Ready(w, s.restored.value.0) && w.claim.Some?
          && (if s.restored.value.1 then CanBind(w, s.restored.value.0) <==> !s.misfit && !diverted
              else w.claim.value.volume == Some(s.restored.value.0)))
  }

  /** No run of attempts, crashes and other actors loses the data. */
  lemma DataIsNeverLost(s: State, acts: seq<Action>)
    requires Initial(s) && IsRun(s, acts)
    ensures DataSafe(After(s, acts), !LeftAlone(s, acts))
  {
    ReachableIdle(s, acts);
    hide IsRun;
    hide After;
    hide Initial;
    hide PcInv;
    hide ClassInv;
    hide DivertInv;
    hide CanBind;
    hide LeftAlone;
    var t := After(s, acts);
    if t.restored.Some? && t.restored.value.1 { IdleMeans(t, !LeftAlone(s, acts)); }
  }

  /** The reservation of an idle claim, once its policy is restored and for as long as the run
      goes on: the claim has it or can still be bound to it if and only if it was not adopted
      with another class and no step since the poll has given the claim another volume. */
  lemma IdleReservation(s: State, acts: seq<Action>)
    requires Initial(s) && IsRun(s, acts)
    requires var t := After(s, acts); t.restored.Some? && t.restored.value.1
    ensures var t := After(s, acts);
      CanBind(t.world, t.restored.value.0) <==> !t.misfit && LeftAlone(s, acts)
  {
    ReachableIdle(s, acts);
    IdleMeans(After(s, acts), !LeftAlone(s, acts));
    hide *;
  }

  lemma RestoredInv(s: State)
    requires Base(s) && s.restored.Some?
    ensures s.gone && Ready(s.world, s.restored.value.0) && s.world.pvs[s.restored.value.0].ref.ours
  {
    assert PvOk(s, s.restored.value.0, s.world.pvs[s.restored.value.0]);
  }

  /** What a migrator call settles at the lookup of a reservation, and nothing else does: an
      adopted one fits when it has the class the rewire goes on with, a created one always. */
  lemma MisfitMeansAdopted(s: State, a: Action)
    requires Enabled(s, a)
    ensures var w := s.world;
      if a.Mig? && s.pc.FindReservation? then
        Do(s, a).misfit <==>
          a.ok && HasAdoptable(w) && w.pvs[a.pick].cls != if a.sc.Some? then a.sc.value else s.pc.att.pv.cls
      else Do(s, a).misfit ==> s.misfit
  {
    hide EnvStep;
    hide HasAdoptable;
    hide RemovePV;
    hide AddPV;
    hide WaitNext;
    hide Bindable;
  }

  /** Every lookup of the run that adopts a reservation adopts one of the class it goes on with. */
  predicate AdoptsItsClass(s: State, acts: seq<Action>)
    requires IsRun(s, acts)
    decreases |acts|
  {
    acts != [] ==>
      && (acts[0].Mig? && s.pc.FindReservation? && acts[0].ok && HasAdoptable(s.world) ==>
            s.world.pvs[acts[0].pick].cls == if acts[0].sc.Some? then acts[0].sc.value else s.pc.att.pv.cls)
      && AdoptsItsClass(Do(s, acts[0]), acts[1..])
  }

  lemma {:induction false} AdoptedFits(s: State, acts: seq<Action>)
    requires IsRun(s, acts) && AdoptsItsClass(s, acts) && !s.misfit
    ensures !After(s, acts).misfit
    decreases |acts|
  {
    if acts != [] {
      MisfitMeansAdopted(s, acts[0]);
      hide Do;
      AdoptedFits(Do(s, acts[0]), acts[1..]);
    }
  }

  /** In such a run, if the binder leaves idle claims to their reservations, the source disk is
      reclaimed only for a claim that has the copy or can still be bound to it. */
  lemma IdleReservationBinds(s: State, acts: seq<Action>)
    requires Initial(s) && IsRun(s, acts) && AdoptsItsClass(s, acts) && LeftAlone(s, acts)
    requires !After(s, acts).world.source
    ensures var t := After(s, acts); t.restored.Some? && CanBind(t.world, t.restored.value.0)
  {
    DataIsNeverLost(s, acts);
    AdoptedFits(s, acts);
    hide IsRun;
    hide After;
    hide Initial;
    hide AdoptsItsClass;
    hide LeftAlone;
  }

  /** The policy a migrated volume ends up with is the one the attempt that finished had read.
      It is the original one unless an earlier attempt had by then set the old PV to Retain. */
  lemma PolicyReturns(s: State, acts: seq<Action>)
    requires Initial(s) && IsRun(s, acts) && After(s, acts).restored.Some?
    ensures var t := After(s, acts); var n := t.restored.value.0;
      && n in t.world.pvs && t.world.pvs[n].policy == Final(t.read) && (t.read == t.policy || t.read == Retain)
      && (t.world.pvs[n].policy == Final(t.policy) <==> t.read == t.policy)
  {
    ReachableInv(s, acts);
    hide IsRun;
    hide After;
    hide Initial;
    hide PcInv;
    RestoredInv(After(s, acts));
  }

  /** From the deletion of the old claim until the policy is restored, through every
      re-reservation, a Retain PV holds the copy. */
  lemma CopyIsHeld(s: State, acts: seq<Action>)
    requires Initial(s) && IsRun(s, acts)
    ensures var t := After(s, acts); t.gone && t.restored.None? ==> SomeHeld(t.world)
  {
    ReachableInv(s, acts);
    hide IsRun;
    hide After;
    hide Initial;
    hide PcInv;
  }

  /** Of the PVs that existed when its latest rewire began, the migrator has deleted none but
      the original one and outdated reservations of the copy. */
  lemma OnlyOwnVolumesDeleted(s: State, acts: seq<Action>, n: nat)
    requires Initial(s) && IsRun(s, acts)
    requires n in After(s, acts).removed && n in After(s, acts).before
    ensures n == s.orig || After(s, acts).removed[n].handle == TARGET
  {
    ReachableInv(s, acts);
    OrigStays(s, acts);
    hide IsRun;
    hide After;
    hide Initial;
    hide PcInv;
  }

  lemma OrigStep(s: State, a: Action)
    requires Enabled(s, a)
    ensures Do(s, a).orig == s.orig
  {
    hide Enabled;
    hide EnvStep;
    hide CopyStep;
    hide ReserveStep;
    hide WaitStep;
    hide FinishStep;
  }

  lemma {:induction false} OrigStays(s: State, acts: seq<Action>)
    requires IsRun(s, acts)
    ensures After(s, acts).orig == s.orig
    decreases |acts|
  {
    if acts != [] {
      OrigStep(s, acts[0]);
      hide Do;
      OrigStays(Do(s, acts[0]), acts[1..]);
    }
  }

  /** Retries adopt the reservation an earlier attempt left instead of making a second one. */
  lemma AtMostOneReservation(s: State, acts: seq<Action>, m: nat, n: nat)
    requires Initial(s) && IsRun(s, acts)
    requires var t := After(s, acts);
      && !t.gone && !t.listFailed && m in t.world.pvs && n in t.world.pvs
      && t.world.pvs[m].handle == TARGET && t.world.pvs[n].handle == TARGET
    ensures m == n
  {
    ReachableInv(s, acts);
    hide IsRun;
    hide After;
    hide Initial;
    hide PcInv;
  }

  // ------------------------------------------------------------- a third volume

  /** Handles as a migration of another volume to another place has them. */
  function Relabel(handle: nat, source: nat, target: nat): nat {
    if handle == source then SOURCE else if handle == target then TARGET else handle + 2
  }

  /** The cluster as an attempt finds it that is for the volume of PV v. */
  function Restart(t: State, v: nat, target: nat): State
    requires t.world.claim.Some? && v in t.world.pvs
  {
    var w, pv := t.world, t.world.pvs[v];
    var pvs := map n | n in w.pvs :: w.pvs[n].(handle := Relabel(w.pvs[n].handle, pv.handle, target));
    State(World(pvs, w.claim, true, Absent, false, w.now, w.names, w.uids), Idle,
          v, w.claim.value.uid, false, None, false, w.now, {}, map[], pv.policy, pv.policy, false)
  }

  /** An attempt that meets the claim bound to a third volume, which no other PV is of, begins a
      migration like this one of that volume: the results hold of it too, and the PVs of these
      two disks are among those it leaves alone. */
  lemma AnotherVolume(t: State, v: nat, target: nat)
    requires Inv(t) && t.world.claim.Some? && t.world.claim.value.volume == Some(v) && v in t.world.pvs
    requires t.world.pvs[v].ref == Ref(true, t.world.claim.value.uid) && t.world.pvs[v].handle != target
    requires forall n :: n in t.world.pvs && n != v ==> t.world.pvs[n].handle !in {t.world.pvs[v].handle, target}
    ensures Initial(Restart(t, v, target))
  {
    hide PcInv;
    hide AfterInv;
    hide BeforeInv;
    forall n | n in t.world.pvs ensures PvOk(t, n, t.world.pvs[n]) {}
  }

  // ----------------------------------------------- a reservation of another class

  lemma {:induction false} Extend(s: State, acts: seq<Action>, a: Action)
    requires IsRun(s, acts) && Enabled(After(s, acts), a)
    ensures IsRun(s, acts + [a]) && After(s, acts + [a]) == Do(After(s, acts), a)
    decreases |acts|
  {
    if acts != [] {
      hide Do;
      hide Enabled;
      assert (acts + [a])[1..] == acts[1..] + [a];
      Extend(Do(s, acts[0]), acts[1..], a);
    }
  }

  const CALL := Mig(true, 0, None, 0)
  const OLD_CLAIM := Claim(1, Some(10), "a")
  const OLD_PV := PV(SOURCE, Delete, Ref(true, 1), "a", 0, true, false)
  const GUARDED_PV := PV(SOURCE, Retain, Ref(true, 1), "a", 0, true, true)
  const RESERVED_PV := PV(TARGET, Retain, Ref(true, 0), "a", 0, false, false)
  const START := State(
    World(map[10 := OLD_PV], Some(OLD_CLAIM), true, Absent, false, 0, {10}, 2), Idle,
    10, 1, false, None, false, 0, {}, map[], Delete, Delete, false)

  /** The first attempt copies the disk. */
  lemma CopyingRun() returns (acts: seq<Action>)
    ensures IsRun(START, acts)
    ensures After(START, acts) == START.(
      world := START.world.(pvs := map[10 := OLD_PV.(stamped := true)], target := Full),
      pc := AwaitCopy(Attempt(OLD_CLAIM, 10, OLD_PV)))
  {
    hide IsRun;
    hide After;
    var s, att := START, Attempt(OLD_CLAIM, 10, OLD_PV);
    acts := [];
    assert IsRun(s, acts) && After(s, acts) == s by { EmptyRun(s); }
    Extend(s, acts, CALL);
    acts := acts + [CALL];
    assert After(s, acts) == s.(pc := ReadPV(OLD_CLAIM));
    Extend(s, acts, CALL);
    acts := acts + [CALL];
    assert After(s, acts) == s.(pc := Resume(att));
    Extend(s, acts, CALL);
    acts := acts + [CALL];
    assert After(s, acts) == s.(pc := Stamp(att));
    Extend(s, acts, CALL);
    acts := acts + [CALL];
    var w := s.world.(pvs := map[10 := OLD_PV.(stamped := true)]);
    assert After(s, acts) == s.(pc := StartCopy(att), world := w);
    Extend(s, acts, CALL);
    acts := acts + [CALL];
    assert After(s, acts) == s.(pc := AwaitCopy(att), world := w.(target := Partial, copying := true));
    Extend(s, acts, CopyEnds(true, true));
    acts := acts + [CopyEnds(true, true)];
  }

  lemma StartIsInitial()
    ensures Initial(START)
  {}

  lemma EmptyRun(s: State)
    ensures IsRun(s, []) && After(s, []) == s
  {}

  const FIRST_REWIRE := Rewiring(Attempt(OLD_CLAIM, 10, OLD_PV), 0, Delete, 20, "a", "a", 0, 0)

  /** It reserves under the old class, no other being found. */
  lemma ReservedRun() returns (acts: seq<Action>)
    ensures IsRun(START, acts)
    ensures After(START, acts) == START.(
      world := START.world.(pvs := map[10 := GUARDED_PV, 20 := RESERVED_PV], target := Full, names := {10, 20}),
      pc := DeleteClaim(FIRST_REWIRE), before := {10})
  {
    hide IsRun;
    hide After;
    var att := Attempt(OLD_CLAIM, 10, OLD_PV);
    var rw := Rewiring(att, 0, Delete, 0, "a", "a", 0, 0);
    acts := CopyingRun();
    var s, s1 := START, After(START, acts);
    Extend(s, acts, CALL);
    acts := acts + [CALL];
    assert After(s, acts) == s1.(pc := Verify(att));
    Extend(s, acts, CALL);
    acts := acts + [CALL];
    assert After(s, acts) == s1.(pc := FindReservation(att, 0), before := {10});
    Extend(s, acts, CALL);
    acts := acts + [CALL];
    assert After(s, acts) == s1.(pc := GuardOld(rw, false), before := {10});
    Extend(s, acts, CALL);
    acts := acts + [CALL];
    var w := s1.world.(pvs := map[10 := GUARDED_PV]);
    assert After(s, acts) == s1.(pc := CreateReserved(rw), before := {10}, world := w);
    Extend(s, acts, CALL.(pick := 20));
    acts := acts + [CALL.(pick := 20)];
    var w' := w.(pvs := map[10 := GUARDED_PV, 20 := RESERVED_PV], names := {10, 20});
    assert After(s, acts) == s1.(pc := DeleteClaim(FIRST_REWIRE), before := {10}, world := w');
  }

  /** And dies. */
  lemma ReservingRun() returns (acts: seq<Action>)
    ensures IsRun(START, acts)
    ensures After(START, acts) == START.(
      world := START.world.(pvs := map[10 := GUARDED_PV, 20 := RESERVED_PV], target := Full, names := {10, 20}),
      before := {10})
  {
    hide IsRun;
    hide After;
    acts := ReservedRun();
    Extend(START, acts, Crash);
    acts := acts + [Crash];
  }

  /** What the second attempt goes on with: the adopted reservation, and the class it found. */
  const SECOND_REWIRE := Rewiring(Attempt(OLD_CLAIM, 10, GUARDED_PV), 0, Retain, 20, "b", "b", 0, 0)

  lemma AdoptingRun() returns (acts: seq<Action>)
    ensures IsRun(START, acts)
    ensures After(START, acts) == START.(
      world := START.world.(pvs := map[10 := GUARDED_PV, 20 := RESERVED_PV], target := Full, names := {10, 20}),
      pc := GuardOld(SECOND_REWIRE, true), before := {10, 20}, read := Retain, misfit := true)
  {
    hide IsRun;
    hide After;
    var att := Attempt(OLD_CLAIM, 10, GUARDED_PV);
    acts := ReservingRun();
    var s, s1 := START, After(START, acts);
    Extend(s, acts, CALL);
    acts := acts + [CALL];
    assert After(s, acts) == s1.(pc := ReadPV(OLD_CLAIM));
    Extend(s, acts, CALL);
    acts := acts + [CALL];
    assert After(s, acts) == s1.(pc := Resume(att), read := Retain);
    Extend(s, acts, CALL);
    acts := acts + [CALL];
    assert After(s, acts) == s1.(pc := Verify(att), read := Retain);
    Extend(s, acts, CALL);
    acts := acts + [CALL];
    assert After(s, acts) == s1.(pc := FindReservation(att, 0), read := Retain, before := {10, 20});
    assert Adoptable(s1.world.pvs[20]);
    Extend(s, acts, CALL.(pick := 20, sc := Some("b")));
    acts := acts + [CALL.(pick := 20, sc := Some("b"))];
  }

  /** It replaces the claim by one of the class it found. */
  lemma SwitchingRun() returns (acts: seq<Action>)
    ensures IsRun(START, acts)
    ensures After(START, acts) == START.(
      world := World(map[20 := RESERVED_PV], Some(Claim(2, None, "b")), true, Full, false, 0, {10, 20}, 3),
      pc := Poll(SECOND_REWIRE), gone := true, before := {10, 20}, removed := map[10 := GUARDED_PV],
      read := Retain, misfit := true)
  {
    hide IsRun;
    hide After;
    acts := AdoptingRun();
    var s, s1, rw := START, After(START, acts), SECOND_REWIRE;
    Extend(s, acts, CALL);
    acts := acts + [CALL];
    assert After(s, acts) == s1.(pc := DeleteClaim(rw));
    Extend(s, acts, CALL);
    acts := acts + [CALL];
    var w := s1.world.(claim := None);
    assert After(s, acts) == s1.(pc := DeleteOld(rw), gone := true, world := w);
    Extend(s, acts, CALL);
    acts := acts + [CALL];
    assert w.pvs - {10} == map[20 := RESERVED_PV];
    assert After(s, acts) == s1.(
      pc := CreateClaim(rw), gone := true, world := w.(pvs := map[20 := RESERVED_PV]),
      removed := map[10 := GUARDED_PV]);
    Extend(s, acts, CALL);
    acts := acts + [CALL];
  }

  /** It finds that claim idle, and restores the policy it had read. */
  lemma RestoringRun() returns (acts: seq<Action>)
    ensures IsRun(START, acts)
    ensures After(START, acts) == START.(
      world := World(map[20 := RESERVED_PV], Some(Claim(2, None, "b")), true, Full, false, 0, {10, 20}, 3),
      pc := Reclaim(SECOND_REWIRE, true), gone := true, restored := Some((20, true)),
      before := {10, 20}, removed := map[10 := GUARDED_PV], read := Retain, misfit := true)
  {
    hide IsRun;
    hide After;
    acts := SwitchingRun();
    var s, s1, rw := START, After(START, acts), SECOND_REWIRE;
    Extend(s, acts, CALL);
    acts := acts + [CALL];
    assert After(s, acts) == s1.(pc := Restore(rw, true));
    Extend(s, acts, CALL);
    acts := acts + [CALL];
  }

  /** The class found can differ from that of a reservation an earlier attempt left. Then the
      source disk is reclaimed for an idle claim that its reservation cannot bind; and the
      volume, guarded by the earlier attempt, keeps Retain where it had Delete. */
  lemma MisfitRun() returns (acts: seq<Action>)
    ensures Initial(START) && IsRun(START, acts)
    ensures var t := After(START, acts);
      && !t.world.source && t.restored == Some((20, true)) && 20 in t.world.pvs
      && t.world.claim == Some(Claim(2, None, "b")) && !Bindable(t.world.pvs[20], t.world.claim.value)
      && START.policy == Delete && t.world.pvs[20].policy == Retain
  {
    hide IsRun;
    hide After;
    hide Initial;
    StartIsInitial();
    acts := RestoringRun();
    Extend(START, acts, CALL);
    acts := acts + [CALL];
  }

  // ------------------------------------------------- a claim that is given away

  /** The same first attempt lives on: it replaces the claim, and finds the new one idle. */
  lemma IdleRun() returns (acts: seq<Action>)
    ensures IsRun(START, acts)
    ensures After(START, acts) == START.(
      world := World(map[20 := RESERVED_PV], Some(Claim(2, None, "a")), true, Full, false, 0, {10, 20}, 3),
      pc := Restore(FIRST_REWIRE, true), gone := true, before := {10}, removed := map[10 := GUARDED_PV])
  {
    hide IsRun;
    hide After;
    acts := ReservedRun();
    var s, s1, rw := START, After(START, acts), FIRST_REWIRE;
    Extend(s, acts, CALL);
    acts := acts + [CALL];
    var w := s1.world.(claim := None);
    assert After(s, acts) == s1.(pc := DeleteOld(rw), gone := true, world := w);
    Extend(s, acts, CALL);
    acts := acts + [CALL];
    assert w.pvs - {10} == map[20 := RESERVED_PV];
    var s2 := s1.(gone := true, world := w.(pvs := map[20 := RESERVED_PV]), removed := map[10 := GUARDED_PV]);
    assert After(s, acts) == s2.(pc := CreateClaim(rw));
    Extend(s, acts, CALL);
    acts := acts + [CALL];
    assert After(s, acts) == s2.(pc := Poll(rw), world := NewClaim(s2.world, "a"));
    Extend(s, acts, CALL);
    acts := acts + [CALL];
  }

  const FINAL_PV := RESERVED_PV.(policy := Delete)
  const EMPTY_PV := PV(5, Delete, Ref(true, 2), "a", 0, false, false)

  /** It restores the policy; and the claim is given a new volume. */
  lemma DivertingRun() returns (acts: seq<Action>)
    ensures IsRun(START, acts)
    ensures After(START, acts) == START.(
      world := World(map[20 := FINAL_PV, 30 := EMPTY_PV], Some(Claim(2, Some(30), "a")), true, Full, false, 0,
                     {10, 20, 30}, 3),
      pc := Reclaim(FIRST_REWIRE, true), gone := true, restored := Some((20, true)), before := {10},
      removed := map[10 := GUARDED_PV])
  {
    hide IsRun;
    hide After;
    acts := IdleRun();
    var s, s1, rw := START, After(START, acts), FIRST_REWIRE;
    Extend(s, acts, CALL);
    acts := acts + [CALL];
    var s2 := s1.(pc := Reclaim(rw, true), restored := Some((20, true)));
    var w := s1.world.(pvs := map[20 := FINAL_PV]);
    assert After(s, acts) == s2.(world := w);
    Extend(s, acts, Provision(30, 5, Delete));
    acts := acts + [Provision(30, 5, Delete)];
    var w' := w.(pvs := map[20 := FINAL_PV, 30 := EMPTY_PV], names := {10, 20, 30});
    assert After(s, acts) == s2.(world := w');
    Extend(s, acts, BindClaim(30));
    acts := acts + [BindClaim(30)];
  }

  /** The idle answer is from one poll. A provisioner can give the claim a new volume before the
      source disk is reclaimed, and it is reclaimed all the same: the reservation fits, and
      nothing can bind the claim to it. */
  lemma DivertedRun() returns (acts: seq<Action>)
    ensures Initial(START) && IsRun(START, acts)
    ensures var t := After(START, acts);
      && !t.world.source && t.restored == Some((20, true)) && !t.misfit
      && t.world.claim == Some(Claim(2, Some(30), "a")) && !CanBind(t.world, 20)
      && !Enabled(t, BindPV(20)) && !Enabled(t, BindClaim(20))
  {
    hide IsRun;
    hide After;
    hide Initial;
    StartIsInitial();
    acts := DivertingRun();
    Extend(START, acts, CALL);
    acts := acts + [CALL];
  }

  /** How far the wait is from its end: rounds of re-reservation left, calls left in this
      round, polls left. */
  function Remaining(pc: Pc): int
    requires Waiting(pc)
  {
    7 * (MAX_RECONCILIATIONS - pc.rw.reconciliations) + pc.rw.polls +
      if pc.GetRacing? then 6 else if pc.DeleteRacingClaim? then 5 else if pc.DeleteRacingPV? then 4
      else if pc.GetReserved? then 3 else if pc.CreateNext? then 2 else if pc.DeleteOutdated? then 1 else 0
  }

  lemma PollProgress(claim: Option<Claim>, rw: Rewiring, ok: bool)
    requires Waiting(PollNext(claim, rw, ok))
    ensures Remaining(PollNext(claim, rw, ok)) < Remaining(Poll(rw))
  {}

  lemma WaitProgress(w: World, pc: Pc, ok: bool, pick: nat)
    requires Waiting(pc) && Waiting(WaitNext(w, pc, ok, pick))
    ensures Remaining(WaitNext(w, pc, ok, pick)) < Remaining(pc)
  {
    hide PollNext;
    hide Racing;
    hide Replaceable;
    if pc.Poll? { PollProgress(w.claim, pc.rw, ok); }
  }

  predicate KeepsWaiting(s: State, acts: seq<Action>)
    requires IsRun(s, acts)
    decreases |acts|
  {
    Waiting(s.pc) && (acts != [] ==> KeepsWaiting(Do(s, acts[0]), acts[1..]))
  }

  function Calls(acts: seq<Action>): nat {
    if acts == [] then 0 else (if acts[0].Mig? then 1 else 0) + Calls(acts[1..])
  }

  lemma WaitingInv(s: State)
    requires Inv(s) && Waiting(s.pc)
    ensures Remaining(s.pc) >= 0 && s.pc.rw.reconciliations <= MAX_RECONCILIATIONS
  {}

  /** The wait ends: whatever the other actors do, and however claims race it, the migrator
      cannot stay in it for more calls than what remained at its start. */
  lemma {:induction false} WaitIsBounded(s: State, acts: seq<Action>)
    requires Inv(s) && IsRun(s, acts) && KeepsWaiting(s, acts)
    ensures Calls(acts) <= Remaining(s.pc)
    decreases |acts|
  {
    hide Inv;
    hide Remaining;
    hide WaitNext;
    hide WaitStep;
    hide EnvStep;
    hide Enabled;
    WaitingInv(s);
    if acts != [] {
      var a, s' := acts[0], Do(s, acts[0]);
      StepKeeps(s, a);
      if a.Mig? { WaitProgress(s.world, s.pc, a.ok, a.pick); }
      WaitIsBounded(s', acts[1..]);
    }
  }

  /** Replacement reservations made, and racing pairs deleted, by the calls of a run. */
  function Rereserved(s: State, acts: seq<Action>): nat
    requires IsRun(s, acts)
    decreases |acts|
  {
    if acts == [] then 0
    else (if acts[0].Mig? && s.pc.CreateNext? then 1 else 0) + Rereserved(Do(s, acts[0]), acts[1..])
  }

  function PairsDeleted(s: State, acts: seq<Action>): nat
    requires IsRun(s, acts)
    decreases |acts|
  {
    if acts == [] then 0
    else (if acts[0].Mig? && s.pc.DeleteRacingPV? then 1 else 0) + PairsDeleted(Do(s, acts[0]), acts[1..])
  }

  /** Rounds of reconciliation not yet begun. */
  function RoundsLeft(pc: Pc): int
    requires Waiting(pc)
  {
    MAX_RECONCILIATIONS - pc.rw.reconciliations
  }

  predicate BeforeNext(pc: Pc) {
    pc.GetRacing? || pc.DeleteRacingClaim? || pc.DeleteRacingPV? || pc.GetReserved? || pc.CreateNext?
  }

  predicate BeforePair(pc: Pc) {
    pc.GetRacing? || pc.DeleteRacingClaim? || pc.DeleteRacingPV?
  }

  lemma PollRounds(claim: Option<Claim>, rw: Rewiring, ok: bool)
    requires Waiting(PollNext(claim, rw, ok))
    ensures var p, left := PollNext(claim, rw, ok), RoundsLeft(Poll(rw));
      (p.Poll? && RoundsLeft(p) == left) || (BeforeNext(p) && RoundsLeft(p) == left - 1)
  {}

  lemma RoundsStep(w: World, p: Pc, ok: bool, pick: nat)
    requires Waiting(p) && !p.Poll? && Waiting(WaitNext(w, p, ok, pick))
    ensures var p' := WaitNext(w, p, ok, pick);
      && RoundsLeft(p') == RoundsLeft(p)
      && (BeforeNext(p) <==> BeforeNext(p') || p.CreateNext?)
      && (BeforePair(p) <==> BeforePair(p') || p.DeleteRacingPV?)
  {
    hide Racing;
    hide Replaceable;
    hide PollNext;
  }

  function NextsLeft(pc: Pc): int
    requires Waiting(pc)
  {
    RoundsLeft(pc) + if BeforeNext(pc) then 1 else 0
  }

  function PairsLeft(pc: Pc): int
    requires Waiting(pc)
  {
    RoundsLeft(pc) + if BeforePair(pc) then 1 else 0
  }

  lemma RoundsDo(s: State, a: Action)
    requires Inv(s) && Enabled(s, a) && Waiting(s.pc) && Waiting(Do(s, a).pc)
    ensures var p, p' := s.pc, Do(s, a).pc;
      && NextsLeft(p') + (if a.Mig? && p.CreateNext? then 1 else 0) <= NextsLeft(p)
      && PairsLeft(p') + (if a.Mig? && p.DeleteRacingPV? then 1 else 0) <= PairsLeft(p)
  {
    hide Inv;
    hide EnvStep;
    hide WaitStep;
    hide PollNext;
    if a.Mig? {
      if s.pc.Poll? { PollRounds(s.world.claim, s.pc.rw, a.ok); } else { RoundsStep(s.world, s.pc, a.ok, a.pick); }
    }
  }

  /** At most two re-reservations and two racing pairs per wait. */
  lemma {:induction false} AtMostTwoRounds(s: State, acts: seq<Action>)
    requires Inv(s) && IsRun(s, acts) && KeepsWaiting(s, acts)
    ensures Rereserved(s, acts) <= NextsLeft(s.pc) && PairsDeleted(s, acts) <= PairsLeft(s.pc)
    decreases |acts|
  {
    WaitingInv(s);
    if acts != [] {
      StepKeeps(s, acts[0]);
      assert Waiting(Do(s, acts[0]).pc);
      RoundsDo(s, acts[0]);
      hide Inv;
      hide Do;
      hide NextsLeft;
      hide PairsLeft;
      hide Enabled;
      hide Waiting;
      AtMostTwoRounds(Do(s, acts[0]), acts[1..]);
    }
  }

  /** A wait begun in any reachable state. */
  lemma WaitEnds(s: State, pre: seq<Action>, acts: seq<Action>)
    requires Initial(s) && IsRun(s, pre)
    requires var t := After(s, pre);
      t.pc.Poll? && t.pc.rw.reconciliations == 0 && IsRun(t, acts) && KeepsWaiting(t, acts)
    ensures var t := After(s, pre);
      Calls(acts) <= 14 + t.pc.rw.polls && Rereserved(t, acts) <= 2 && PairsDeleted(t, acts) <= 2
  {
    ReachableInv(s, pre);
    WaitIsBounded(After(s, pre), acts);
    AtMostTwoRounds(After(s, pre), acts);
    hide IsRun;
    hide After;
    hide KeepsWaiting;
    hide Inv;
    hide Initial;
  }
}

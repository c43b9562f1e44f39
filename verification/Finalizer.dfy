/** The operator's attachment protocol: the attachment reconciler
    (pkg/operator/controller/attachment/reconciler.go) and the API calls that create and delete
    its object (pkg/operator/api/service.go), over one attachment name.

    Objects are written at the API server and read through a cache that lags behind it; a write
    carries the version it was based on and is refused if there is a newer one. */
module Finalizer {
  import opened Strings

  /** A ProxmoxVolumeAttachment; its version is its place in the history. */
  datatype Object = Object(uid: nat, version: nat, deleting: bool, finalizer: bool, attached: bool)

  datatype Pc =
    | Idle
    | Checking(copy: Object)                   // reconcileAttach before it holds the object
    | Holding(copy: Object)
    | Attaching(copy: Object)
    | Reporting(copy: Object, attached: bool)
    | Reading(copy: Object)                    // reconcileDetach: the volume record
    | Detaching(copy: Object)
    | Releasing(copy: Object, detached: bool)

  /** Everything the server has held under the name, how far the cache has read, whether the
      disk is in the VM's config, the reconciler; and the objects it released, and whether one
      of them without a detach. */
  datatype State = State(
    history: seq<Option<Object>>, seen: nat, inVm: bool, pc: Pc, uids: nat,
    released: set<nat>, abandoned: bool)

  datatype Action =
    | Create                                   // AttachVolume finds no object
    | Delete                                   // DetachVolume, or the clean-up of a refused attach
    | CacheReads(upto: nat)
    | Reconcile                                // the reconciler takes the key up
    | Step(ok: bool, landed: bool, relabel: bool)
    | Crash

  predicate Valid(s: State) { 0 <= s.seen < |s.history| }

  function Server(s: State): Option<Object>
    requires Valid(s)
  {
    s.history[|s.history| - 1]
  }

  function Cached(s: State): Option<Object>
    requires Valid(s)
  {
    s.history[s.seen]
  }

  /** A write that takes effect. */
  function Put(s: State, o: Object): State { s.(history := s.history + [Some(o.(version := |s.history|))]) }

  function Drop(s: State): State { s.(history := s.history + [None]) }

  /** The copy is what the server has. */
  predicate Current(s: State, copy: Object)
    requires Valid(s)
  {
    Server(s).Some? && Server(s).value.version == copy.version
  }

  predicate Enabled(s: State, a: Action)
    requires Valid(s)
  {
    match a
    case Create => Server(s).None?
    case Delete => Server(s).Some?
    case CacheReads(n) => s.seen <= n < |s.history|
    case Reconcile => s.pc.Idle?
    case Step(_, _, _) => !s.pc.Idle?
    case Crash => true
  }

  function DeleteObject(s: State): State
    requires Valid(s) && Server(s).Some?
  {
    var o := Server(s).value;
    if o.deleting then s else if o.finalizer then Put(s, o.(deleting := true)) else Drop(s)
  }

  /** Reconcile's dispatch on the cached copy. */
  function Dispatch(s: State): Pc
    requires Valid(s)
  {
    match Cached(s)
    case None => Idle
    case Some(o) =>
      if o.deleting then (if o.finalizer then Reading(o) else Idle)
      else if o.attached then Idle
      else Checking(o)
  }

  /** One call of the reconciler: whether it succeeds, and for an attach or detach that fails,
      whether it reached Proxmox all the same. */
  function ReconcilerStep(s: State, ok: bool, landed: bool, relabel: bool): State
    requires Valid(s)
  {
    match s.pc
    case Checking(c) => if ok then s.(pc := Holding(c)) else s.(pc := Reporting(c, false))
    case Holding(c) =>
      if c.finalizer && !relabel then s.(pc := Attaching(c))
      else if !ok || !Current(s, c) then s.(pc := Idle)
      else Put(s, c.(finalizer := true)).(pc := Attaching(c.(finalizer := true, version := |s.history|)))
    case Attaching(c) => s.(inVm := s.inVm || ok || landed, pc := Reporting(c, ok))
    case Reporting(c, attached) =>
      if ok && Current(s, c) then Put(s, Server(s).value.(attached := attached)).(pc := Idle) else s.(pc := Idle)
    case Reading(c) => if ok then s.(pc := Detaching(c)) else s.(pc := Releasing(c, false))
    case Detaching(c) =>
      if ok then s.(inVm := false, pc := Releasing(c, true))
      else s.(inVm := s.inVm && !landed, pc := Reporting(c, c.attached))
    case Releasing(c, detached) =>
      if ok && Current(s, c) then
        Drop(s).(pc := Idle, released := s.released + {c.uid}, abandoned := s.abandoned || !detached)
      else s.(pc := Idle)
    case Idle => s
  }

  function Do(s: State, a: Action): (s': State)
    requires Valid(s) && Enabled(s, a)
    ensures Valid(s')
  {
    match a
    case Create =>
      Put(s, Object(s.uids, 0, false, false, false)).(uids := s.uids + 1)
    case Delete => DeleteObject(s)
    case CacheReads(n) => s.(seen := n)
    case Reconcile => s.(pc := Dispatch(s))
    case Step(ok, landed, relabel) => ReconcilerStep(s, ok, landed, relabel)
    case Crash => s.(pc := Idle)
  }

  predicate IsRun(s: State, acts: seq<Action>)
    requires Valid(s)
    decreases |acts|
  {
    acts != [] ==> Enabled(s, acts[0]) && IsRun(Do(s, acts[0]), acts[1..])
  }

  function After(s: State, acts: seq<Action>): (t: State)
    requires Valid(s) && IsRun(s, acts)
    ensures Valid(t)
    decreases |acts|
  {
    if acts == [] then s else After(Do(s, acts[0]), acts[1..])
  }

  // --------------------------------------------------------------- invariants

  /** Versions are places in the history, and uids have been handed out. */
  ghost predicate HistoryOk(s: State) {
    && (forall i :: 0 <= i < |s.history| && s.history[i].Some? ==>
          s.history[i].value.version == i && s.history[i].value.uid < s.uids)
    && (forall u :: u in s.released ==> u < s.uids)
  }

  /** What the cache can still show. */
  ghost predicate CacheOk(s: State)
    requires Valid(s)
  {
    && (forall i :: s.seen <= i < |s.history| && s.history[i].Some? && s.history[i].value.uid in s.released ==>
          s.history[i].value.deleting)
    && (forall i :: s.seen <= i < |s.history| && s.history[i].Some? && s.history[i].value.finalizer ==>
          || s.history[i].value.uid in s.released
          || (Server(s).Some? && Server(s).value.uid == s.history[i].value.uid && Server(s).value.finalizer))
    && (Server(s).Some? ==> Server(s).value.uid !in s.released)
    && (Server(s).Some? && Server(s).value.finalizer ==>
          forall i :: s.seen <= i < |s.history| ==> s.history[i].Some? && s.history[i].value.uid == Server(s).value.uid)
  }

  /** A copy the reconciler holds: read from the cache, at or before where that is now. */
  ghost predicate CopyOk(s: State, c: Object) {
    c.version <= s.seen < |s.history| && s.history[c.version] == Some(c)
  }

  ghost predicate PcOk(s: State)
    requires Valid(s)
  {
    match s.pc
    case Idle => true
    case Checking(c) => CopyOk(s, c) && !c.deleting && c.uid !in s.released && HeldIf(s, c)
    case Holding(c) => CopyOk(s, c) && !c.deleting && c.uid !in s.released && HeldIf(s, c)
    case Attaching(c) => Server(s).Some? && Server(s).value.uid == c.uid && Server(s).value.finalizer
    case Reporting(c, _) => true
    case Reading(c) => CopyOk(s, c) && c.deleting
    case Detaching(c) => CopyOk(s, c) && c.deleting
    case Releasing(c, detached) => CopyOk(s, c) && c.deleting && (detached ==> !s.inVm)
  }

  /** A copy with the finalizer is of the object the server still has. */
  ghost predicate HeldIf(s: State, c: Object)
    requires Valid(s)
  {
    c.finalizer ==> Server(s).Some? && Server(s).value.uid == c.uid && Server(s).value.finalizer
  }

  /** A disk in the VM is held by a finalizer, unless one was released unread. */
  ghost predicate Guarded(s: State)
    requires Valid(s)
  {
    s.inVm && !s.abandoned ==> Server(s).Some? && Server(s).value.finalizer
  }

  ghost predicate Inv(s: State) {
    Valid(s) && HistoryOk(s) && CacheOk(s) && PcOk(s) && Guarded(s)
  }

  ghost predicate Base(s: State) {
    Valid(s) && HistoryOk(s) && CacheOk(s)
  }

  /** A write to the object there is: it keeps its finalizer, and gains one only when the cache
      has caught up. */
  lemma PutKeeps(s: State, o: Object)
    requires Base(s) && Server(s).Some? && o.uid == Server(s).value.uid && (Server(s).value.finalizer ==> o.finalizer)
    requires o.finalizer && !Server(s).value.finalizer ==> s.seen == |s.history| - 1
    ensures Base(Put(s, o))
  {
    var s', n := Put(s, o), |s.history|;
    assert forall i :: 0 <= i < n ==> s'.history[i] == s.history[i];
  }

  lemma DropKeeps(s: State)
    requires Base(s) && Server(s).Some? && !Server(s).value.finalizer
    ensures Base(Drop(s))
  {
    var s', n := Drop(s), |s.history|;
    assert forall i :: 0 <= i < n ==> s'.history[i] == s.history[i];
  }

  lemma ReleaseKeeps(s: State)
    requires Base(s) && Server(s).Some? && Server(s).value.deleting && s.seen == |s.history| - 1
    ensures Base(Drop(s).(released := s.released + {Server(s).value.uid}))
  {
    var s', n := Drop(s), |s.history|;
    assert forall i :: 0 <= i < n ==> s'.history[i] == s.history[i];
  }

  lemma CreateKeeps(s: State)
    requires Base(s) && Server(s).None?
    ensures Base(Put(s, Object(s.uids, 0, false, false, false)).(uids := s.uids + 1))
  {
    var s', n := Put(s, Object(s.uids, 0, false, false, false)), |s.history|;
    assert forall i :: 0 <= i < n ==> s'.history[i] == s.history[i];
  }

  lemma CacheKeeps(s: State, n: nat)
    requires Base(s) && s.seen <= n < |s.history|
    ensures Base(s.(seen := n))
  {}

  /** What others can do to the object under the reconciler's feet. */
  ghost predicate Around(s: State, s': State)
    requires Valid(s) && Valid(s')
  {
    && s.history <= s'.history && s.seen <= s'.seen && s'.inVm == s.inVm && s'.pc == s.pc
    && s'.released == s.released && s'.abandoned == s.abandoned
    && (Server(s).Some? && Server(s).value.finalizer ==>
          Server(s').Some? && Server(s').value.uid == Server(s).value.uid && Server(s').value.finalizer)
  }

  lemma PcKept(s: State, s': State)
    requires Valid(s) && Valid(s') && PcOk(s) && Guarded(s) && Around(s, s')
    ensures PcOk(s') && Guarded(s')
  {
    assert forall i :: 0 <= i < |s.history| ==> s'.history[i] == s.history[i];
  }

  lemma EnvKeeps(s: State, a: Action)
    requires Inv(s) && Enabled(s, a) && (a.Create? || a.Delete? || a.CacheReads?)
    ensures Inv(Do(s, a))
  {
    var s' := Do(s, a);
    if a.Create? {
      CreateKeeps(s);
    } else if a.CacheReads? {
      CacheKeeps(s, a.upto);
    } else {
      var o := Server(s).value;
      if !o.deleting && o.finalizer { PutKeeps(s, o.(deleting := true)); }
      if !o.deleting && !o.finalizer { DropKeeps(s); }
    }
    hide CacheOk;
    hide HistoryOk;
    PcKept(s, s');
    hide PcOk;
  }

  lemma ReconcileKeeps(s: State)
    requires Inv(s) && s.pc.Idle?
    ensures Inv(s.(pc := Dispatch(s)))
  {}

  lemma CrashKeeps(s: State)
    requires Inv(s)
    ensures Inv(s.(pc := Idle))
  {}

  lemma BaseMoves(s: State, pc: Pc, inVm: bool)
    requires Base(s)
    ensures Base(s.(pc := pc, inVm := inVm))
  {}

  lemma BaseReleased(s: State, s': State)
    requires Base(s) && s' == s.(pc := s'.pc, abandoned := s'.abandoned)
    ensures Base(s')
  {}

  lemma CheckKeeps(s: State, ok: bool, landed: bool, relabel: bool)
    requires Inv(s) && s.pc.Checking?
    ensures Inv(ReconcilerStep(s, ok, landed, relabel))
  {
    BaseMoves(s, ReconcilerStep(s, ok, landed, relabel).pc, s.inVm);
    hide CacheOk;
    hide HistoryOk;
  }

  /** A copy that is what the server has, read from the cache, means the cache is up to date. */
  lemma CurrentCopy(s: State, c: Object)
    requires Valid(s) && HistoryOk(s) && CopyOk(s, c) && Current(s, c)
    ensures Server(s) == Some(c) && s.seen == |s.history| - 1
  {}

  lemma HoldKeeps(s: State, ok: bool, landed: bool, relabel: bool)
    requires Inv(s) && s.pc.Holding?
    ensures Inv(ReconcilerStep(s, ok, landed, relabel))
  {
    hide CacheOk;
    hide HistoryOk;
    var c, s' := s.pc.copy, ReconcilerStep(s, ok, landed, relabel);
    BaseMoves(s, s'.pc, s.inVm);
    if ok && Current(s, c) {
      CurrentCopy(s, c);
      PutKeeps(s, c.(finalizer := true));
      BaseMoves(Put(s, c.(finalizer := true)), s'.pc, s.inVm);
    }
  }

  lemma AttachKeeps(s: State, ok: bool, landed: bool, relabel: bool)
    requires Inv(s) && (s.pc.Attaching? || s.pc.Reporting?)
    ensures Inv(ReconcilerStep(s, ok, landed, relabel))
  {
    if s.pc.Reporting? && Current(s, s.pc.copy) { PutKeeps(s, Server(s).value.(attached := s.pc.attached)); }
    hide CacheOk;
  }

  lemma DetachKeeps(s: State, ok: bool, landed: bool, relabel: bool)
    requires Inv(s) && (s.pc.Reading? || s.pc.Detaching? || s.pc.Releasing?)
    ensures Inv(ReconcilerStep(s, ok, landed, relabel))
  {
    hide CacheOk;
    hide HistoryOk;
    var s' := ReconcilerStep(s, ok, landed, relabel);
    BaseMoves(s, s'.pc, s'.inVm);
    if s.pc.Releasing? && ok && Current(s, s.pc.copy) {
      CurrentCopy(s, s.pc.copy);
      ReleaseKeeps(s);
      BaseReleased(Drop(s).(released := s.released + {s.pc.copy.uid}), s');
    }
  }

  lemma DoKeeps(s: State, a: Action)
    requires Inv(s) && Enabled(s, a)
    ensures Inv(Do(s, a))
  {
    hide CacheOk;
    hide HistoryOk;
    hide PcOk;
    hide Guarded;
    hide ReconcilerStep;
    match a
    case Create => EnvKeeps(s, a);
    case Delete => EnvKeeps(s, a);
    case CacheReads(_) => EnvKeeps(s, a);
    case Reconcile => ReconcileKeeps(s);
    case Crash => CrashKeeps(s);
    case Step(ok, landed, relabel) =>
      if s.pc.Checking? {
        CheckKeeps(s, ok, landed, relabel);
      } else if s.pc.Holding? {
        HoldKeeps(s, ok, landed, relabel);
      } else if s.pc.Attaching? || s.pc.Reporting? {
        AttachKeeps(s, ok, landed, relabel);
      } else {
        DetachKeeps(s, ok, landed, relabel);
      }
  }

  // ------------------------------------------------------------------ results

  /** No object yet, and the disk in no VM. */
  predicate Initial(s: State) {
    s.history == [None] && s.seen == 0 && !s.inVm && s.pc == Idle && s.released == {} && !s.abandoned
  }

  lemma {:induction false} RunKeeps(s: State, acts: seq<Action>)
    requires Inv(s) && IsRun(s, acts)
    ensures Inv(After(s, acts))
    decreases |acts|
  {
    if acts != [] {
      DoKeeps(s, acts[0]);
      hide Inv;
      hide Do;
      RunKeeps(Do(s, acts[0]), acts[1..]);
    }
  }

  /** Whatever the API calls, the cache and the reconciler do, and wherever it dies: a disk that
      is in the VM is behind a finalizer, unless one was released without a detach. */
  lemma DiskIsHeld(s: State, acts: seq<Action>)
    requires Initial(s) && IsRun(s, acts)
    ensures var t := After(s, acts); t.inVm && !t.abandoned ==> Server(t).Some? && Server(t).value.finalizer
  {
    RunKeeps(s, acts);
  }

  lemma NotFoundMeansOut(t: State)
    requires Inv(t) && (Cached(t).None? || Server(t).None?)
    ensures t.inVm ==> t.abandoned
  {
    hide PcOk;
    hide HistoryOk;
  }

  /** The record is readable whenever a detach asks for it. */
  predicate RecordsReadable(s: State, acts: seq<Action>)
    requires Valid(s) && IsRun(s, acts)
    decreases |acts|
  {
    acts != [] ==> (s.pc.Reading? && acts[0].Step? ==> acts[0].ok) && RecordsReadable(Do(s, acts[0]), acts[1..])
  }

  /** A release is either after a detach or of an object whose record could not be read. */
  ghost predicate NoneAbandoned(s: State) {
    !s.abandoned && (s.pc.Releasing? ==> s.pc.detached)
  }

  lemma ReadableStep(s: State, a: Action)
    requires Valid(s) && Enabled(s, a) && NoneAbandoned(s) && (s.pc.Reading? && a.Step? ==> a.ok)
    ensures NoneAbandoned(Do(s, a))
  {}

  lemma {:induction false} NothingAbandoned(s: State, acts: seq<Action>)
    requires Valid(s) && IsRun(s, acts) && RecordsReadable(s, acts) && NoneAbandoned(s)
    ensures !After(s, acts).abandoned
    decreases |acts|
  {
    if acts != [] {
      ReadableStep(s, acts[0]);
      hide Do;
      NothingAbandoned(Do(s, acts[0]), acts[1..]);
    }
  }

  /** DetachVolume succeeds when the cache or the server answers that there is no object. With
      the volume record readable, the disk is then out of the VM. */
  lemma DetachMeansOut(s: State, acts: seq<Action>)
    requires Initial(s) && IsRun(s, acts) && RecordsReadable(s, acts)
    requires Cached(After(s, acts)).None? || Server(After(s, acts)).None?
    ensures !After(s, acts).inVm
  {
    RunKeeps(s, acts);
    NothingAbandoned(s, acts);
    NotFoundMeansOut(After(s, acts));
  }

  // ------------------------------------------------------------- the reported status

  /** The cache has shown an object of this uid. */
  ghost predicate Seen(s: State, uid: nat) {
    exists i :: 0 <= i <= s.seen && i < |s.history| && s.history[i].Some? && s.history[i].value.uid == uid
  }

  /** Objects come one after the other, a deletion is not taken back, and no object is reported
      attached that the reconciler has not seen. */
  ghost predicate OrderOk(s: State) {
    && (forall i, j :: 0 <= i < j < |s.history| && s.history[i].Some? && s.history[j].Some? ==>
          && s.history[i].value.uid <= s.history[j].value.uid
          && (s.history[i].value.uid == s.history[j].value.uid && s.history[i].value.deleting ==>
                s.history[j].value.deleting))
    && (forall i :: 0 <= i < |s.history| && s.history[i].Some? && s.history[i].value.attached ==>
          Seen(s, s.history[i].value.uid))
  }

  /** The copy is of a version there was. */
  ghost predicate WasThere(s: State, c: Object) {
    c.version < |s.history| && s.history[c.version] == Some(c)
  }

  /** Nothing newer than the object has been reported attached. */
  ghost predicate Newest(s: State, uid: nat) {
    forall i :: 0 <= i < |s.history| && s.history[i].Some? && s.history[i].value.attached ==>
      s.history[i].value.uid <= uid
  }

  ghost predicate ReportOk(s: State) {
    match s.pc
    case Idle => true
    case Checking(c) => Seen(s, c.uid)
    case Holding(c) => Seen(s, c.uid)
    case Attaching(c) => Seen(s, c.uid) && WasThere(s, c)
    case Reporting(c, attached) =>
      Seen(s, c.uid) && (attached ==> s.inVm || c.deleting) && (c.deleting || attached ==> WasThere(s, c))
    case Reading(c) => Seen(s, c.uid) && Newest(s, c.uid)
    case Detaching(c) => Seen(s, c.uid) && Newest(s, c.uid)
    case Releasing(c, _) => true
  }

  /** What the object says: attached, and not on its way out, means the disk is in the VM. */
  ghost predicate Truthful(s: State)
    requires Valid(s)
  {
    Server(s).Some? && Server(s).value.attached && !Server(s).value.deleting ==> s.inVm
  }

  ghost predicate StatusInv(s: State) {
    Valid(s) && OrderOk(s) && ReportOk(s) && Truthful(s)
  }

  lemma SeenStays(s: State, s': State, uid: nat)
    requires s.history <= s'.history && s.seen <= s'.seen && Seen(s, uid)
    ensures Seen(s', uid)
  {
    var i :| 0 <= i <= s.seen && i < |s.history| && s.history[i].Some? && s.history[i].value.uid == uid;
    assert s'.history[i] == s.history[i];
  }

  /** A version is added, of the object there is or a newer one. */
  lemma OrderPut(s: State, s': State, o: Object)
    requires OrderOk(s) && HistoryOk(s) && Valid(s) && s'.history == s.history + [Some(o)] && s'.seen == s.seen
    requires
      || o.uid == s.uids
      || (Server(s).Some? && Server(s).value.uid == o.uid && (Server(s).value.deleting ==> o.deleting))
    requires o.attached ==> Seen(s, o.uid)
    ensures OrderOk(s')
  {
    var n := |s.history|;
    assert forall i :: 0 <= i < n ==> s'.history[i] == s.history[i];
    forall i | 0 <= i <= n && s'.history[i].Some? && s'.history[i].value.attached
      ensures Seen(s', s'.history[i].value.uid)
    {
      SeenStays(s, s', s'.history[i].value.uid);
    }
  }

  lemma OrderDrop(s: State, s': State)
    requires OrderOk(s) && s'.history == s.history + [None] && s'.seen == s.seen
    ensures OrderOk(s')
  {
    var n := |s.history|;
    assert forall i :: 0 <= i < n ==> s'.history[i] == s.history[i];
    forall i | 0 <= i <= n && s'.history[i].Some? && s'.history[i].value.attached
      ensures Seen(s', s'.history[i].value.uid)
    {
      SeenStays(s, s', s'.history[i].value.uid);
    }
  }

  lemma OrderSame(s: State, s': State)
    requires OrderOk(s) && s'.history == s.history && s.seen <= s'.seen
    ensures OrderOk(s')
  {
    forall i | 0 <= i < |s.history| && s'.history[i].Some? && s'.history[i].value.attached
      ensures Seen(s', s'.history[i].value.uid)
    {
      SeenStays(s, s', s'.history[i].value.uid);
    }
  }

  /** Others' steps: no object is newly reported attached. */
  lemma ReportKept(s: State, s': State)
    requires ReportOk(s) && s.history <= s'.history && s.seen <= s'.seen && s'.pc == s.pc && s'.inVm == s.inVm
    requires forall i :: |s.history| <= i < |s'.history| && s'.history[i].Some? && s'.history[i].value.attached ==>
      exists j :: 0 <= j < |s.history| && s.history[j].Some? && s.history[j].value.attached
                  && s.history[j].value.uid == s'.history[i].value.uid
    ensures ReportOk(s')
  {
    assert forall i :: 0 <= i < |s.history| ==> s'.history[i] == s.history[i];
    if !s.pc.Idle? && Seen(s, s.pc.copy.uid) { SeenStays(s, s', s.pc.copy.uid); }
  }

  lemma StatusEnv(s: State, a: Action)
    requires Inv(s) && StatusInv(s) && Enabled(s, a) && (a.Create? || a.Delete? || a.CacheReads?)
    ensures StatusInv(Do(s, a))
  {
    hide CacheOk;
    hide PcOk;
    hide Guarded;
    hide OrderOk;
    hide ReportOk;
    var s' := Do(s, a);
    if a.Create? {
      OrderPut(s, s', Object(s.uids, |s.history|, false, false, false));
    } else if a.CacheReads? {
      OrderSame(s, s');
    } else {
      var o := Server(s).value;
      if o.deleting {
        OrderSame(s, s');
      } else if o.finalizer {
        if o.attached { AttachedSeen(s); }
        OrderPut(s, s', o.(deleting := true, version := |s.history|));
      } else {
        OrderDrop(s, s');
      }
    }
    assert s.history <= s'.history;
    ReportKept(s, s');
  }

  lemma AttachedSeen(s: State)
    requires OrderOk(s) && Valid(s) && Server(s).Some? && Server(s).value.attached
    ensures Seen(s, Server(s).value.uid)
  {}

  lemma StatusDispatch(s: State)
    requires Inv(s) && StatusInv(s) && s.pc.Idle?
    ensures StatusInv(s.(pc := Dispatch(s)))
  {
    hide CacheOk;
    hide PcOk;
    hide Guarded;
    var s' := s.(pc := Dispatch(s));
    OrderSame(s, s');
    if Cached(s).Some? {
      var c := Cached(s).value;
      assert s.history[s.seen].value.uid == c.uid;
      assert Seen(s', c.uid);
      forall i | 0 <= i < |s.history| && s.history[i].Some? && s.history[i].value.attached
        ensures s.history[i].value.uid <= c.uid
      {
        var uid := s.history[i].value.uid;
        var j :| 0 <= j <= s.seen && j < |s.history| && s.history[j].Some? && s.history[j].value.uid == uid;
        assert s.history[j].value.uid <= s.history[s.seen].value.uid;
      }
      assert Newest(s', c.uid);
    }
  }

  /** When a detach lands, no object that stays says attached. */
  lemma DetachIsTruthful(s: State)
    requires Inv(s) && StatusInv(s) && s.pc.Detaching? && Server(s).Some? && Server(s).value.attached
    ensures Server(s).value.deleting
  {
    var c, n := s.pc.copy, |s.history| - 1;
    assert CopyOk(s, c) && c.deleting;
    assert s.history[n].value.uid <= c.uid;
  }

  lemma StatusHold(s: State, ok: bool, landed: bool, relabel: bool)
    requires Inv(s) && StatusInv(s) && (s.pc.Checking? || s.pc.Holding?)
    ensures StatusInv(ReconcilerStep(s, ok, landed, relabel))
  {
    hide CacheOk;
    hide Guarded;
    hide OrderOk;
    var c, s' := s.pc.copy, ReconcilerStep(s, ok, landed, relabel);
    assert CopyOk(s, c);
    if s'.history == s.history {
      OrderSame(s, s');
      SeenStays(s, s', c.uid);
    } else {
      CurrentCopy(s, c);
      OrderPut(s, s', c.(finalizer := true, version := |s.history|));
      SeenStays(s, s', c.uid);
    }
  }

  lemma StatusReport(s: State, ok: bool, landed: bool, relabel: bool)
    requires Inv(s) && StatusInv(s) && (s.pc.Attaching? || s.pc.Reporting?)
    ensures StatusInv(ReconcilerStep(s, ok, landed, relabel))
  {
    hide CacheOk;
    hide Guarded;
    hide PcOk;
    hide OrderOk;
    var c, s' := s.pc.copy, ReconcilerStep(s, ok, landed, relabel);
    if s'.history == s.history {
      OrderSame(s, s');
      SeenStays(s, s', c.uid);
    } else {
      var o := Server(s).value.(attached := s.pc.attached, version := |s.history|);
      if s.pc.attached { assert s.history[c.version] == Some(c) && Server(s) == Some(c); }
      OrderPut(s, s', o);
    }
  }

  lemma StatusDetach(s: State, ok: bool, landed: bool, relabel: bool)
    requires Inv(s) && StatusInv(s) && (s.pc.Reading? || s.pc.Detaching? || s.pc.Releasing?)
    ensures StatusInv(ReconcilerStep(s, ok, landed, relabel))
  {
    hide CacheOk;
    hide Guarded;
    hide OrderOk;
    var s' := ReconcilerStep(s, ok, landed, relabel);
    if s.pc.Detaching? && Server(s).Some? && Server(s).value.attached { DetachIsTruthful(s); }
    if s'.history == s.history {
      OrderSame(s, s');
      if !s.pc.Releasing? { SeenStays(s, s', s.pc.copy.uid); }
    } else {
      OrderDrop(s, s');
    }
  }

  lemma StatusKeeps(s: State, a: Action)
    requires Inv(s) && StatusInv(s) && Enabled(s, a)
    ensures StatusInv(Do(s, a))
  {
    hide Inv;
    hide OrderOk;
    hide ReportOk;
    hide ReconcilerStep;
    if a.Create? || a.Delete? || a.CacheReads? {
      StatusEnv(s, a);
    } else if a.Reconcile? {
      StatusDispatch(s);
    } else if a.Crash? {
      OrderSame(s, s.(pc := Idle));
      assert ReportOk(s.(pc := Idle)) by { IdleReport(s); }
    } else if s.pc.Checking? || s.pc.Holding? {
      StatusHold(s, a.ok, a.landed, a.relabel);
    } else if s.pc.Attaching? || s.pc.Reporting? {
      StatusReport(s, a.ok, a.landed, a.relabel);
    } else {
      StatusDetach(s, a.ok, a.landed, a.relabel);
    }
  }

  lemma IdleReport(s: State)
    ensures ReportOk(s.(pc := Idle))
  {}

  lemma {:induction false} StatusRuns(s: State, acts: seq<Action>)
    requires Inv(s) && StatusInv(s) && IsRun(s, acts)
    ensures Inv(After(s, acts)) && StatusInv(After(s, acts))
    decreases |acts|
  {
    hide Do;
    hide OrderOk;
    hide ReportOk;
    hide HistoryOk;
    hide CacheOk;
    hide PcOk;
    hide Guarded;
    hide Truthful;
    if acts != [] {
      DoKeeps(s, acts[0]);
      StatusKeeps(s, acts[0]);
      StatusRuns(Do(s, acts[0]), acts[1..]);
    }
  }

  /** Over every run an object that says attached, and is not being deleted, has its disk in the
      VM: so it is when AttachVolume answers with success. */
  lemma AttachedMeansIn(s: State, acts: seq<Action>)
    requires Initial(s) && IsRun(s, acts)
    ensures var t := After(s, acts);
      Server(t).Some? && Server(t).value.attached && !Server(t).value.deleting ==> t.inVm
  {
    StatusRuns(s, acts);
  }

  lemma {:induction false} Extend(s: State, acts: seq<Action>, a: Action)
    requires Valid(s) && IsRun(s, acts) && Enabled(After(s, acts), a)
    ensures IsRun(s, acts + [a]) && After(s, acts + [a]) == Do(After(s, acts), a)
    decreases |acts|
  {
    if acts != [] {
      hide Do;
      hide Enabled;
      assert (acts + [a])[1..] == acts[1..] + [a];
      Extend(Do(s, acts[0]), acts[1..], a);
    }
  }

  // ------------------------------------------------------------- what a pass gets done

  /** One call that is answered. */
  function Yes(s: State): State
    requires Valid(s)
  {
    ReconcilerStep(s, true, false, false)
  }

  /** One that fails, having reached Proxmox or not. */
  function No(s: State, landed: bool): State
    requires Valid(s)
  {
    ReconcilerStep(s, false, landed, false)
  }

  /** A pass over an attachment up to its attach: taken up, checked and held. */
  function Held(s: State, relabel: bool): (t: State)
    requires Valid(s) && s.pc.Idle?
    ensures Valid(t)
  {
    ReconcilerStep(Yes(Do(s, Reconcile)), true, false, relabel)
  }

  /** The cache is up to date with an object the reconciler may take up. */
  ghost predicate Fresh(s: State) {
    Inv(s) && s.pc.Idle? && s.seen == |s.history| - 1 && Server(s).Some?
  }

  lemma FreshVersion(s: State)
    requires Fresh(s)
    ensures Server(s).value.version == |s.history| - 1 && Cached(s) == Server(s)
  {}

  lemma HeldIs(s: State, relabel: bool)
    requires Fresh(s) && !Server(s).value.deleting && !Server(s).value.attached
    ensures var t, o := Held(s, relabel), Server(s).value;
      && t.pc.Attaching? && Server(t) == Some(t.pc.copy) && t.inVm == s.inVm
      && t.pc.copy == o.(finalizer := true, version := t.pc.copy.version)
  {
    FreshVersion(s);
    hide Inv;
    var c := Server(s).value;
    assert Do(s, Reconcile) == s.(pc := Checking(c));
    assert Yes(Do(s, Reconcile)) == s.(pc := Holding(c));
  }

  /** A new object, every call answered: the disk is in the VM, and the object says so and has
      its finalizer. */
  lemma AttachDone(s: State, relabel: bool)
    requires Fresh(s) && !Server(s).value.deleting && !Server(s).value.attached
    ensures var t := Yes(Yes(Held(s, relabel)));
      && Valid(t) && t.pc.Idle? && t.inVm && Server(t).Some?
      && Server(t).value == Server(s).value.(attached := true, finalizer := true, version := Server(t).value.version)
  {
    HeldIs(s, relabel);
    hide Held;
    hide Inv;
  }

  /** An attach that fails leaves the object held and not attached, whether it reached Proxmox or
      not; one that is refused before does not reach it. */
  lemma AttachFails(s: State, relabel: bool, landed: bool)
    requires Fresh(s) && !Server(s).value.deleting && !Server(s).value.attached
    ensures var t := Yes(No(Held(s, relabel), landed));
      Valid(t) && t.pc.Idle? && Server(t).Some? && !Server(t).value.attached && Server(t).value.finalizer
    ensures var t := Yes(No(Do(s, Reconcile), landed));
      Valid(t) && t.pc.Idle? && Server(t).Some? && !Server(t).value.attached && t.inVm == s.inVm
  {
    HeldIs(s, relabel);
    FreshVersion(s);
    hide Held;
    hide Inv;
  }

  /** A deleted object with its finalizer, every call answered: the disk is out, the object is
      gone, and was not given up. */
  lemma DetachDone(s: State)
    requires Fresh(s) && Server(s).value.deleting && Server(s).value.finalizer
    ensures var t := Yes(Yes(Yes(Do(s, Reconcile))));
      && Valid(t) && t.pc.Idle? && !t.inVm && Server(t).None?
      && t.abandoned == s.abandoned && t.released == s.released + {Server(s).value.uid}
  {
    FreshVersion(s);
    hide Inv;
  }

  /** A detach that fails leaves the object, its finalizer and what it says. */
  lemma DetachFails(s: State, landed: bool)
    requires Fresh(s) && Server(s).value.deleting && Server(s).value.finalizer
    ensures var t := Yes(No(Yes(Do(s, Reconcile)), landed));
      && Valid(t) && t.pc.Idle? && t.abandoned == s.abandoned
      && Server(t) == Some(Server(s).value.(version := |s.history|))
  {
    FreshVersion(s);
    hide Inv;
  }

  /** An object that is attached, or deleted without a finalizer, is left alone. */
  lemma NothingToDo(s: State)
    requires Fresh(s) && (if Server(s).value.deleting then !Server(s).value.finalizer else Server(s).value.attached)
    ensures Do(s, Reconcile) == s
  {}

  /** One of the states from which the disk is in the VM and its object is there. */
  lemma AttachRun() returns (s: State, acts: seq<Action>)
    ensures Initial(s) && IsRun(s, acts)
    ensures var o := Object(0, 3, false, true, true);
      var h := [None, Some(Object(0, 1, false, false, false)), Some(Object(0, 2, false, true, false)), Some(o)];
      After(s, acts) == State(h, 1, true, Idle, 1, {}, false)
  {
    var o1, o2 := Object(0, 1, false, false, false), Object(0, 2, false, true, false);
    var yes := Step(true, false, false);
    s := State([None], 0, false, Idle, 0, {}, false);
    acts := [];
    Extend(s, acts, Create);
    acts := acts + [Create];
    assert After(s, acts) == State([None, Some(o1)], 0, false, Idle, 1, {}, false);
    Extend(s, acts, CacheReads(1));
    acts := acts + [CacheReads(1)];
    Extend(s, acts, Reconcile);
    acts := acts + [Reconcile];
    assert After(s, acts) == State([None, Some(o1)], 1, false, Checking(o1), 1, {}, false);
    Extend(s, acts, yes);
    acts := acts + [yes];
    Extend(s, acts, yes);
    acts := acts + [yes];
    assert After(s, acts) == State([None, Some(o1), Some(o2)], 1, false, Attaching(o2), 1, {}, false);
    Extend(s, acts, yes);
    acts := acts + [yes];
    Extend(s, acts, yes);
    acts := acts + [yes];
    hide IsRun;
  }

  /** Without that, a detach can succeed with the disk still in the VM. */
  lemma UnreadableRecordStrands() returns (s: State, acts: seq<Action>)
    ensures Initial(s) && IsRun(s, acts)
    ensures Server(After(s, acts)).None? && Cached(After(s, acts)).None? && After(s, acts).inVm
  {
    var yes, no := Step(true, false, false), Step(false, false, false);
    s, acts := AttachRun();
    var o := Object(0, 4, true, true, true);
    var h := After(s, acts).history + [Some(o)];
    Extend(s, acts, Delete);
    acts := acts + [Delete];
    assert After(s, acts) == State(h, 1, true, Idle, 1, {}, false);
    Extend(s, acts, CacheReads(4));
    acts := acts + [CacheReads(4)];
    Extend(s, acts, Reconcile);
    acts := acts + [Reconcile];
    assert After(s, acts) == State(h, 4, true, Reading(o), 1, {}, false);
    Extend(s, acts, no);
    acts := acts + [no];
    assert After(s, acts) == State(h, 4, true, Releasing(o, false), 1, {}, false);
    Extend(s, acts, yes);
    acts := acts + [yes];
    assert After(s, acts) == State(h + [None], 4, true, Idle, 1, {0}, true);
    Extend(s, acts, CacheReads(5));
    acts := acts + [CacheReads(5)];
    hide IsRun;
  }
}

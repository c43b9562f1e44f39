/** Rename-on-attach: ControllerPublishVolume and ControllerUnpublishVolume
    (pkg/csi/controller.go) over the Proxmox calls of pkg/tools/proxmox, as an interleaved
    protocol that can lose its controller between any two API calls.

    A disk is known by the vmid it is named for and the suffix a rename leaves alone; module
    Names shows that this is what a disk name amounts to. Every API call is one step.
    Calls run concurrently, and a call holds its VM's lock from Locking until it returns. */
module RenameProtocol {
  import opened Strings
  import Decimal
  import Names

  datatype Disk = Disk(vmid: nat, suffix: string)

  /** A VM config: drive slots by lun, and the `unused<n>` keys a detach leaves behind. */
  datatype Config = Config(slots: map<nat, Disk>, unused: map<nat, Disk>)

  /** Proxmox: what each stored disk holds, the VM configs, and how often each volume has
      been renamed so far. */
  datatype World = World(content: map<Disk, nat>, vms: map<nat, Config>, renames: map<string, nat>)

  datatype Outcome =
    | Published(lun: nat)
    | Unpublished(renamedBack: bool, renamesThen: nat)
    | NotFound
    | Failed

  datatype Pc =
    | CheckName                                      // ResolveVolume: the handle's own name
    | SearchSuffix                                   // ResolveVolume: FindVolumeBySuffix
    | SizeFound(found: Disk)                         // ResolveVolume: the found name's size
    | Locking
    | Renaming
    | ReadSlots                                      // AttachVolume: GetVMConfig
    | Attaching(lun: nat)
    | FindSlot                                       // DetachVolume: GetVMConfig
    | Unlinking(lun: nat)
    | AwaitDetach
    | RenamingBack
    | ReadUnused(renamesThen: nat)                   // ClearUnusedDisk: GetVMConfig
    | CheckUnused(keys: map<nat, Disk>, renamesThen: nat)
    | DropUnused(key: nat, keys: map<nat, Disk>, renamesThen: nat)
    | Done(outcome: Outcome)

  /** One RPC: the handle it was given, the disk name it resolved, and the number of
      renames its volume had seen when it began. */
  datatype Op = Op(publish: bool, vm: nat, handle: Disk, disk: Disk, mark: nat, locked: bool, pc: Pc)

  datatype State = State(home: nat, world: World, ops: map<nat, Op>, locks: map<nat, nat>)

  /** How an API call is answered: done, refused, or done and answered with an error. */
  datatype Answer = Fine | Refused | Lost

  datatype Action =
    | Start(id: nat, publish: bool, vm: nat, handle: Disk)
    | Step(id: nat, ans: Answer, pick: nat)         // one API call: its answer and its choice
    | Return(id: nat)
    | Crash

  // ---------------------------------------------------------------- Proxmox

  function Count(w: World, suffix: string): nat {
    if suffix in w.renames then w.renames[suffix] else 0
  }

  ghost predicate Referenced(w: World, d: Disk) {
    exists v, l :: v in w.vms && l in w.vms[v].slots && w.vms[v].slots[l] == d
  }

  /** The rename endpoint refuses a missing source, an existing target and a volume any
      drive slot references. */
  ghost predicate CanRename(w: World, d: Disk, vmid: nat) {
    d in w.content && Disk(vmid, d.suffix) !in w.content && !Referenced(w, d)
  }

  function Rename(w: World, d: Disk, vmid: nat): World
    requires d in w.content
  {
    w.(content := (w.content - {d})[Disk(vmid, d.suffix) := w.content[d]],
       renames := w.renames[d.suffix := Count(w, d.suffix) + 1])
  }

  function SetConfig(w: World, vm: nat, c: Config): World {
    w.(vms := w.vms[vm := c])
  }

  /** Deleting an `unused<n>` key destroys the volume it names if that is still there. */
  function DeleteUnused(w: World, vm: nat, key: nat): World
    requires vm in w.vms && key in w.vms[vm].unused
  {
    var d := w.vms[vm].unused[key];
    SetConfig(w.(content := w.content - {d}), vm, w.vms[vm].(unused := w.vms[vm].unused - {key}))
  }

  /** Unlinking a drive keeps an `unused<n>` key when the VM owns the volume. */
  function Unlink(w: World, vm: nat, lun: nat, key: nat): World
    requires vm in w.vms && lun in w.vms[vm].slots
  {
    var c := w.vms[vm];
    var unused := if c.slots[lun].vmid == vm then c.unused[key := c.slots[lun]] else c.unused;
    SetConfig(w, vm, Config(c.slots - {lun}, unused))
  }

  predicate HasSlot(c: Config, suffix: string) {
    exists l :: l in c.slots && c.slots[l].suffix == suffix
  }

  predicate Holds(c: Config, lun: nat, suffix: string) {
    lun in c.slots && c.slots[lun].suffix == suffix
  }

  /** The first free lun in 1..29, or 30. */
  function FirstFree(c: Config, lun: nat): (r: nat)
    requires lun <= 30
    ensures lun <= r <= 30 && (r < 30 ==> r !in c.slots)
    ensures forall l :: lun <= l < r ==> l in c.slots
    decreases 30 - lun
  {
    if lun == 30 || lun !in c.slots then lun else FirstFree(c, lun + 1)
  }

  function UnusedOf(c: Config, suffix: string): map<nat, Disk> {
    map k | k in c.unused && c.unused[k].suffix == suffix :: c.unused[k]
  }

  // -------------------------------------------------------------- the calls

  /** The choices an API answer leaves open: which listed disk or slot matched, and which
      `unused<n>` key Proxmox picked. */
  ghost predicate Possible(w: World, op: Op, pick: nat) {
    op.vm in w.vms &&
    var c := w.vms[op.vm];
    match op.pc
    case SearchSuffix => (exists d :: d in w.content && d.suffix == op.handle.suffix) ==>
      Disk(pick, op.handle.suffix) in w.content
    case ReadSlots => HasSlot(c, op.handle.suffix) ==> Holds(c, pick, op.handle.suffix)
    case FindSlot => HasSlot(c, op.handle.suffix) ==> Holds(c, pick, op.handle.suffix)
    case Unlinking(lun) => pick !in c.unused && lun in c.slots
    case CheckUnused(keys, _) => keys != map[] ==> pick in keys
    case DropUnused(key, _, _) => key in c.unused
    case Locking => false
    case Done(_) => false
    case _ => true
  }

  function Finish(op: Op, r: Outcome): Op { op.(pc := Done(r)) }

  /** A step keeps what the call was asked and whether it holds its lock. */
  predicate SameCall(op: Op, op': Op) {
    && op'.publish == op.publish && op'.vm == op.vm && op'.handle == op.handle
    && op'.mark == op.mark && op'.locked == op.locked
  }

  /** checkVolume: resolve the handle before the lock is taken. */
  function CheckStep(w: World, op: Op, ans: Answer, pick: nat): (next: Op)
    ensures SameCall(op, next)
  {
    if ans != Fine then Finish(op, Failed)
    else
      match op.pc
      case CheckName =>
        if op.handle in w.content then op.(disk := op.handle, pc := Locking) else op.(pc := SearchSuffix)
      case SearchSuffix =>
        var found := Disk(pick, op.handle.suffix);
        if found in w.content then op.(pc := SizeFound(found)) else Finish(op, NotFound)
      case SizeFound(found) => if found in w.content then op.(disk := found, pc := Locking) else Finish(op, NotFound)
      case _ => op
  }

  /** ControllerPublishVolume under the lock: rename, then attach. A failed rename never
      fails the attach, and Proxmox refuses a drive whose volume does not exist. */
  ghost function PublishStep(w: World, op: Op, ans: Answer, pick: nat): (next: (World, Op))
    requires op.vm in w.vms
    ensures SameCall(op, next.1)
  {
    var c := w.vms[op.vm];
    match op.pc
    case Renaming =>
      if ans == Refused || !CanRename(w, op.disk, op.vm) then (w, op.(pc := ReadSlots))
      else if ans == Lost then (Rename(w, op.disk, op.vm), op.(pc := ReadSlots))
      else (Rename(w, op.disk, op.vm), op.(disk := Disk(op.vm, op.disk.suffix), pc := ReadSlots))
    case ReadSlots =>
      if ans != Fine then (w, Finish(op, Failed))
      else if HasSlot(c, op.handle.suffix) then (w, Finish(op, Published(pick)))
      else if FirstFree(c, 1) == 30 then (w, Finish(op, Failed))
      else (w, op.(pc := Attaching(FirstFree(c, 1))))
    case Attaching(lun) =>
      if ans == Refused || op.disk !in w.content then (w, Finish(op, Failed))
      else
        (SetConfig(w, op.vm, c.(slots := c.slots[lun := op.disk])),
         Finish(op, if ans == Fine then Published(lun) else Failed))
    case _ => (w, op)
  }

  /** ControllerUnpublishVolume under the lock: detach, confirm, rename back. */
  ghost function UnpublishStep(home: nat, w: World, op: Op, ans: Answer, pick: nat): (next: (World, Op))
    requires op.vm in w.vms && (op.pc.Unlinking? ==> op.pc.lun in w.vms[op.vm].slots)
    ensures SameCall(op, next.1)
  {
    var c := w.vms[op.vm];
    match op.pc
    case FindSlot =>
      if ans != Fine then (w, Finish(op, Failed))
      else if HasSlot(c, op.handle.suffix) then (w, op.(pc := Unlinking(pick)))
      else (w, op.(pc := AwaitDetach))
    case Unlinking(lun) =>
      if ans == Refused then (w, Finish(op, Failed))
      else (Unlink(w, op.vm, lun, pick), op.(pc := if ans == Fine then AwaitDetach else Done(Failed)))
    case AwaitDetach =>
      if ans != Fine || HasSlot(c, op.handle.suffix) then (w, Finish(op, Failed))
      else if op.disk.vmid == home then (w, Finish(op, Unpublished(false, 0)))
      else (w, op.(pc := RenamingBack))
    case RenamingBack =>
      if ans == Refused || !CanRename(w, op.disk, home) then (w, Finish(op, Unpublished(false, 0)))
      else if ans == Lost then (Rename(w, op.disk, home), Finish(op, Unpublished(false, 0)))
      else
        (Rename(w, op.disk, home),
         op.(disk := Disk(home, op.disk.suffix), pc := ReadUnused(Count(w, op.disk.suffix) + 1)))
    case _ => (w, op)
  }

  /** ClearUnusedDisk: a key goes only after its volume was looked up and not found. */
  function ClearStep(w: World, op: Op, ans: Answer, pick: nat): (next: (World, Op))
    requires op.vm in w.vms
    requires op.pc.CheckUnused? ==> op.pc.keys == map[] || pick in op.pc.keys
    requires op.pc.DropUnused? ==> op.pc.key in w.vms[op.vm].unused
    ensures SameCall(op, next.1)
  {
    match op.pc
    case ReadUnused(n) =>
      if ans != Fine then (w, Finish(op, Unpublished(true, n)))
      else (w, op.(pc := CheckUnused(UnusedOf(w.vms[op.vm], op.handle.suffix), n)))
    case CheckUnused(keys, n) =>
      if ans != Fine || keys == map[] || keys[pick] in w.content then (w, Finish(op, Unpublished(true, n)))
      else (w, op.(pc := DropUnused(pick, keys, n)))
    case DropUnused(key, keys, n) =>
      if ans == Refused then (w, Finish(op, Unpublished(true, n)))
      else
        (DeleteUnused(w, op.vm, key),
         op.(pc := if ans == Fine then CheckUnused(keys - {key}, n) else Done(Unpublished(true, n))))
    case _ => (w, op)
  }

  predicate Checking(pc: Pc) { pc.CheckName? || pc.SearchSuffix? || pc.SizeFound? }
  predicate Publishing(pc: Pc) { pc.Renaming? || pc.ReadSlots? || pc.Attaching? }
  predicate Unpublishing(pc: Pc) { pc.FindSlot? || pc.Unlinking? || pc.AwaitDetach? || pc.RenamingBack? }
  predicate Clearing(pc: Pc) { pc.ReadUnused? || pc.CheckUnused? || pc.DropUnused? }

  /** One API call of one RPC. */
  ghost function StepOp(home: nat, w: World, op: Op, ans: Answer, pick: nat): (next: (World, Op))
    requires Possible(w, op, pick)
    ensures SameCall(op, next.1)
  {
    if Checking(op.pc) then (w, CheckStep(w, op, ans, pick))
    else if Publishing(op.pc) then PublishStep(w, op, ans, pick)
    else if Unpublishing(op.pc) then UnpublishStep(home, w, op, ans, pick)
    else ClearStep(w, op, ans, pick)
  }

  // ------------------------------------------------------------ transitions

  ghost predicate Enabled(s: State, a: Action) {
    match a
    case Start(id, _, vm, _) => id !in s.ops && vm in s.world.vms && vm != s.home
    case Step(id, _, pick) =>
      id in s.ops &&
      (if s.ops[id].pc.Locking? then s.ops[id].vm !in s.locks else Possible(s.world, s.ops[id], pick))
    case Return(id) => id in s.ops && s.ops[id].pc.Done?
    case Crash => true
  }

  ghost function Do(s: State, a: Action): State
    requires Enabled(s, a)
  {
    match a
    case Start(id, publish, vm, handle) =>
      s.(ops := s.ops[id := Op(publish, vm, handle, handle, Count(s.world, handle.suffix), false, CheckName)])
    case Step(id, ans, pick) =>
      var op := s.ops[id];
      if op.pc.Locking? then
        var next := if !op.publish then FindSlot else if op.disk.vmid != op.vm then Renaming else ReadSlots;
        s.(ops := s.ops[id := op.(locked := true, pc := next)], locks := s.locks[op.vm := id])
      else
        var (w, op') := StepOp(s.home, s.world, op, ans, pick);
        s.(world := w, ops := s.ops[id := op'])
    case Return(id) =>
      var op := s.ops[id];
      s.(ops := s.ops - {id}, locks := if op.locked then s.locks - {op.vm} else s.locks)
    case Crash =>
      // The controller process is gone, and its mutexes with it.
      s.(ops := map[], locks := map[])
  }

  ghost predicate IsRun(s: State, acts: seq<Action>)
    decreases |acts|
  {
    acts != [] ==> Enabled(s, acts[0]) && IsRun(Do(s, acts[0]), acts[1..])
  }

  ghost function After(s: State, acts: seq<Action>): State
    requires IsRun(s, acts)
    decreases |acts|
  {
    if acts == [] then s else After(Do(s, acts[0]), acts[1..])
  }

  // ------------------------------------------------------------- invariants

  /** No two stored disks share a suffix. */
  ghost predicate Unique(content: map<Disk, nat>) {
    forall d, e :: d in content && e in content && d.suffix == e.suffix ==> d == e
  }

  /** What is stored, volume by volume, whatever the disks are named. */
  ghost function Holdings(content: map<Disk, nat>): set<(string, nat)> {
    set d | d in content :: (d.suffix, content[d])
  }

  /** A volume takes at most one slot of a VM. */
  ghost predicate OneSlotEach(slots: map<nat, Disk>) {
    forall l, m :: l in slots && m in slots && slots[l].suffix == slots[m].suffix ==> l == m
  }

  ghost predicate WorldInv(w: World, home: nat) {
    && Unique(w.content)
    && (forall v, l :: v in w.vms && l in w.vms[v].slots ==> w.vms[v].slots[l] in w.content)
    && (forall v, k :: v in w.vms && k in w.vms[v].unused ==> w.vms[v].unused[k].vmid == v)
    && (forall v :: v in w.vms ==> OneSlotEach(w.vms[v].slots))
    && (home in w.vms ==> w.vms[home].unused == map[])
  }

  /** The `unused<n>` keys a call read are still what its VM's config says. */
  ghost predicate Snapshot(c: Config, keys: map<nat, Disk>, suffix: string) {
    forall k :: k in keys ==> k in c.unused && c.unused[k] == keys[k] && keys[k].suffix == suffix
  }

  ghost predicate Exists(w: World, suffix: string) {
    exists d :: d in w.content && d.suffix == suffix
  }

  /** The disk bears its handle's vmid again, or the volume was renamed once more since. */
  ghost predicate BackHome(w: World, home: nat, suffix: string, n: nat) {
    n <= Count(w, suffix) && (n == Count(w, suffix) ==> Disk(home, suffix) in w.content)
  }

  ghost predicate CheckKnows(w: World, op: Op) {
    op.pc.SizeFound? ==>
      && op.pc.found.suffix == op.handle.suffix
      && (op.pc.found in w.content || op.mark < Count(w, op.handle.suffix))
  }

  ghost predicate PublishKnows(c: Config, op: Op) {
    op.pc.Attaching? ==> 1 <= op.pc.lun < 30 && op.pc.lun !in c.slots && !HasSlot(c, op.handle.suffix)
  }

  ghost predicate UnpublishKnows(c: Config, op: Op) {
    && (op.pc.Unlinking? ==> Holds(c, op.pc.lun, op.handle.suffix))
    && (op.pc.RenamingBack? ==> !HasSlot(c, op.handle.suffix))
  }

  ghost predicate ClearKnows(w: World, home: nat, c: Config, op: Op)
    requires Clearing(op.pc)
  {
    && !HasSlot(c, op.handle.suffix) && BackHome(w, home, op.handle.suffix, op.pc.renamesThen)
    && (op.pc.CheckUnused? ==> Snapshot(c, op.pc.keys, op.handle.suffix))
    && (op.pc.DropUnused? ==>
          Snapshot(c, op.pc.keys, op.handle.suffix) && op.pc.key in op.pc.keys && op.pc.keys[op.pc.key] !in w.content)
  }

  ghost predicate DoneKnows(w: World, home: nat, c: Config, op: Op, r: Outcome) {
    match r
    case Published(lun) => op.locked && Holds(c, lun, op.handle.suffix)
    case Unpublished(back, n) =>
      op.locked && !HasSlot(c, op.handle.suffix) && (back ==> BackHome(w, home, op.handle.suffix, n))
    case NotFound => Exists(w, op.handle.suffix) ==> op.mark < Count(w, op.handle.suffix)
    case Failed => true
  }

  /** What a call knows of the world at each of its steps. */
  ghost predicate OpInv(w: World, home: nat, op: Op) {
    && op.vm in w.vms && op.vm != home
    && op.disk.suffix == op.handle.suffix
    && op.mark <= Count(w, op.handle.suffix)
    && (Publishing(op.pc) || Unpublishing(op.pc) || Clearing(op.pc) ==> op.locked)
    && (Checking(op.pc) ==> CheckKnows(w, op))
    && (Publishing(op.pc) ==> PublishKnows(w.vms[op.vm], op))
    && (Unpublishing(op.pc) ==> UnpublishKnows(w.vms[op.vm], op))
    && (Clearing(op.pc) ==> ClearKnows(w, home, w.vms[op.vm], op))
    && (op.pc.Done? ==> DoneKnows(w, home, w.vms[op.vm], op, op.pc.outcome))
  }

  ghost predicate LocksInv(s: State) {
    && (forall id :: id in s.ops && s.ops[id].locked ==> s.ops[id].vm in s.locks && s.locks[s.ops[id].vm] == id)
    && (forall v :: v in s.locks ==> s.locks[v] in s.ops && s.ops[s.locks[v]].locked && s.ops[s.locks[v]].vm == v)
  }

  ghost predicate Inv(s: State) {
    && WorldInv(s.world, s.home)
    && LocksInv(s)
    && forall id :: id in s.ops ==> OpInv(s.world, s.home, s.ops[id])
  }

  // ---------------------------------------------------------------- framing

  /** What one call on a VM can do to the rest of the world. */
  ghost predicate Frame(w: World, w': World, vm: nat, home: nat) {
    && w.vms.Keys == w'.vms.Keys
    && (forall v :: v in w.vms && v != vm ==> w'.vms[v] == w.vms[v])
    && (forall d :: d in w'.content && d !in w.content ==> d.vmid == vm || d.vmid == home)
    && (forall s :: Count(w, s) <= Count(w', s))
    && (forall d :: d in w.content && d !in w'.content ==> Count(w, d.suffix) < Count(w', d.suffix))
    && (forall s :: Exists(w, s) <==> Exists(w', s))
  }

  /** A call on another VM, or one that holds no lock yet, keeps what it knows. */
  lemma OtherOpKeeps(w: World, w': World, vm: nat, home: nat, op: Op)
    requires WorldInv(w, home) && OpInv(w, home, op) && Frame(w, w', vm, home)
    requires op.locked ==> op.vm != vm
    ensures OpInv(w', home, op)
  {
  }

  /** A world change of one call on a VM that keeps the world sound and moves no data. */
  ghost predicate Sound(w: World, w': World, vm: nat, home: nat) {
    && WorldInv(w', home) && Frame(w, w', vm, home)
    && Holdings(w'.content) == Holdings(w.content)
  }

  lemma SameSound(w: World, vm: nat, home: nat)
    requires WorldInv(w, home)
    ensures Sound(w, w, vm, home)
  {}

  lemma RenameSound(w: World, d: Disk, vmid: nat, vm: nat, home: nat)
    requires WorldInv(w, home) && CanRename(w, d, vmid) && (vmid == vm || vmid == home)
    ensures Sound(w, Rename(w, d, vmid), vm, home)
  {
    var w' := Rename(w, d, vmid);
    var d' := Disk(vmid, d.suffix);
    assert w'.content[d'] == w.content[d];
    forall s ensures Exists(w, s) <==> Exists(w', s) {
      if s == d.suffix { assert d in w.content && d' in w'.content; }
      if Exists(w, s) && s != d.suffix {
        var e :| e in w.content && e.suffix == s;
        assert e in w'.content;
      }
    }
    assert Holdings(w'.content) == Holdings(w.content) by {
      forall h | h in Holdings(w.content) ensures h in Holdings(w'.content) {
        var e :| e in w.content && h == (e.suffix, w.content[e]);
        if e == d { assert d' in w'.content; } else { assert e in w'.content; }
      }
      forall h | h in Holdings(w'.content) ensures h in Holdings(w.content) {
        var e :| e in w'.content && h == (e.suffix, w'.content[e]);
        if e == d' { assert d in w.content; } else { assert e in w.content; }
      }
    }
    forall v, l | v in w.vms && l in w.vms[v].slots ensures w.vms[v].slots[l] in w'.content {
      assert w.vms[v].slots[l] != d;
    }
  }

  lemma ConfigSound(w: World, vm: nat, c: Config, home: nat)
    requires WorldInv(w, home) && vm in w.vms && vm != home
    requires forall l :: l in c.slots ==> c.slots[l] in w.content
    requires forall k :: k in c.unused ==> c.unused[k].vmid == vm
    requires OneSlotEach(c.slots)
    ensures Sound(w, SetConfig(w, vm, c), vm, home)
  {
    var w' := SetConfig(w, vm, c);
    assert w'.content == w.content;
    assert forall s :: Exists(w, s) <==> Exists(w', s);
  }

  lemma AttachSound(w: World, vm: nat, lun: nat, d: Disk, home: nat)
    requires WorldInv(w, home) && vm in w.vms && vm != home && d in w.content
    requires lun !in w.vms[vm].slots && !HasSlot(w.vms[vm], d.suffix)
    ensures Sound(w, SetConfig(w, vm, w.vms[vm].(slots := w.vms[vm].slots[lun := d])), vm, home)
  {
    ConfigSound(w, vm, w.vms[vm].(slots := w.vms[vm].slots[lun := d]), home);
  }

  lemma UnlinkSound(w: World, vm: nat, lun: nat, key: nat, home: nat)
    requires WorldInv(w, home) && vm in w.vms && vm != home && lun in w.vms[vm].slots
    ensures Sound(w, Unlink(w, vm, lun, key), vm, home)
  {
    var c := w.vms[vm];
    var unused := if c.slots[lun].vmid == vm then c.unused[key := c.slots[lun]] else c.unused;
    ConfigSound(w, vm, Config(c.slots - {lun}, unused), home);
  }

  lemma DropSound(w: World, vm: nat, key: nat, home: nat)
    requires WorldInv(w, home) && vm in w.vms && vm != home
    requires key in w.vms[vm].unused && w.vms[vm].unused[key] !in w.content
    ensures Sound(w, DeleteUnused(w, vm, key), vm, home)
  {
    var d := w.vms[vm].unused[key];
    assert w.content - {d} == w.content;
    ConfigSound(w, vm, w.vms[vm].(unused := w.vms[vm].unused - {key}), home);
  }

  /** What one API call must keep: a sound world, every volume's data, its own record; and
      it renames at most its own volume, while no slot references it. */
  ghost predicate Keeps(home: nat, w: World, op: Op, next: (World, Op)) {
    && Sound(w, next.0, op.vm, home) && OpInv(next.0, home, next.1)
    && SameCall(op, next.1)
    && RenamesOnly(w, next.0, op.disk)
  }

  ghost predicate RenamesOnly(w: World, w': World, d: Disk) {
    forall x :: Count(w', x) == Count(w, x) || (x == d.suffix && d in w.content && !Referenced(w, d))
  }

  lemma PublishSound(home: nat, w: World, op: Op, ans: Answer, pick: nat)
    requires WorldInv(w, home) && OpInv(w, home, op) && Possible(w, op, pick) && Publishing(op.pc)
    ensures Sound(w, PublishStep(w, op, ans, pick).0, op.vm, home)
    ensures RenamesOnly(w, PublishStep(w, op, ans, pick).0, op.disk)
  {
    hide Sound;
    hide WorldInv;
    SameSound(w, op.vm, home);
    if op.pc.Renaming? && CanRename(w, op.disk, op.vm) { RenameSound(w, op.disk, op.vm, op.vm, home); }
    if op.pc.Attaching? && op.disk in w.content {
      AttachSound(w, op.vm, op.pc.lun, op.disk, home);
    }
  }

  lemma UnpublishSound(home: nat, w: World, op: Op, ans: Answer, pick: nat)
    requires WorldInv(w, home) && OpInv(w, home, op) && Possible(w, op, pick) && Unpublishing(op.pc)
    ensures Sound(w, UnpublishStep(home, w, op, ans, pick).0, op.vm, home)
    ensures RenamesOnly(w, UnpublishStep(home, w, op, ans, pick).0, op.disk)
  {
    hide Sound;
    hide WorldInv;
    SameSound(w, op.vm, home);
    if op.pc.RenamingBack? && CanRename(w, op.disk, home) { RenameSound(w, op.disk, home, op.vm, home); }
    if op.pc.Unlinking? {
      UnlinkSound(w, op.vm, op.pc.lun, pick, home);
    }
  }

  lemma ClearSound(home: nat, w: World, op: Op, ans: Answer, pick: nat)
    requires WorldInv(w, home) && OpInv(w, home, op) && Possible(w, op, pick) && Clearing(op.pc)
    ensures Sound(w, ClearStep(w, op, ans, pick).0, op.vm, home)
    ensures RenamesOnly(w, ClearStep(w, op, ans, pick).0, op.disk)
  {
    hide Sound;
    hide WorldInv;
    SameSound(w, op.vm, home);
    if op.pc.DropUnused? { DropSound(w, op.vm, op.pc.key, home); }
  }

  lemma CheckKnowsNext(home: nat, w: World, op: Op, ans: Answer, pick: nat)
    requires OpInv(w, home, op) && Possible(w, op, pick) && Checking(op.pc)
    ensures var (w', op') := (w, CheckStep(w, op, ans, pick)); OpInv(w', home, op')
  {}

  lemma RenamingKnows(home: nat, w: World, op: Op, ans: Answer, pick: nat)
    requires OpInv(w, home, op) && Possible(w, op, pick) && op.pc.Renaming?
    ensures var (w', op') := PublishStep(w, op, ans, pick); OpInv(w', home, op')
  {}

  lemma ReadSlotsKnows(home: nat, w: World, op: Op, ans: Answer, pick: nat)
    requires OpInv(w, home, op) && Possible(w, op, pick) && op.pc.ReadSlots?
    ensures var (w', op') := PublishStep(w, op, ans, pick); OpInv(w', home, op')
  {}

  lemma AttachingKnows(home: nat, w: World, op: Op, ans: Answer, pick: nat)
    requires OpInv(w, home, op) && Possible(w, op, pick) && op.pc.Attaching?
    ensures var (w', op') := PublishStep(w, op, ans, pick); OpInv(w', home, op')
  {}

  lemma FindSlotKnows(home: nat, w: World, op: Op, ans: Answer, pick: nat)
    requires OpInv(w, home, op) && Possible(w, op, pick) && op.pc.FindSlot?
    ensures var (w', op') := UnpublishStep(home, w, op, ans, pick); OpInv(w', home, op')
  {}

  lemma UnlinkingKnows(home: nat, w: World, op: Op, ans: Answer, pick: nat)
    requires OpInv(w, home, op) && Possible(w, op, pick) && op.pc.Unlinking?
    ensures var (w', op') := UnpublishStep(home, w, op, ans, pick); OpInv(w', home, op')
  {}

  lemma AwaitDetachKnows(home: nat, w: World, op: Op, ans: Answer, pick: nat)
    requires OpInv(w, home, op) && Possible(w, op, pick) && op.pc.AwaitDetach?
    ensures var (w', op') := UnpublishStep(home, w, op, ans, pick); OpInv(w', home, op')
  {}

  lemma RenamingBackKnows(home: nat, w: World, op: Op, ans: Answer, pick: nat)
    requires OpInv(w, home, op) && Possible(w, op, pick) && op.pc.RenamingBack?
    ensures var (w', op') := UnpublishStep(home, w, op, ans, pick); OpInv(w', home, op')
  {}

  lemma ReadUnusedKnows(home: nat, w: World, op: Op, ans: Answer, pick: nat)
    requires OpInv(w, home, op) && Possible(w, op, pick) && op.pc.ReadUnused?
    ensures var (w', op') := ClearStep(w, op, ans, pick); OpInv(w', home, op')
  {}

  lemma CheckUnusedKnows(home: nat, w: World, op: Op, ans: Answer, pick: nat)
    requires OpInv(w, home, op) && Possible(w, op, pick) && op.pc.CheckUnused?
    ensures var (w', op') := ClearStep(w, op, ans, pick); OpInv(w', home, op')
  {}

  lemma DropUnusedKnows(home: nat, w: World, op: Op, ans: Answer, pick: nat)
    requires OpInv(w, home, op) && Possible(w, op, pick) && op.pc.DropUnused?
    ensures var (w', op') := ClearStep(w, op, ans, pick); OpInv(w', home, op')
  {
    assert w.content - {op.pc.keys[op.pc.key]} == w.content;
  }

  lemma StepKeeps(home: nat, w: World, op: Op, ans: Answer, pick: nat)
    requires WorldInv(w, home) && OpInv(w, home, op) && Possible(w, op, pick)
    ensures Keeps(home, w, op, StepOp(home, w, op, ans, pick))
  {
    hide WorldInv;
    hide OpInv;
    hide Sound;
    hide RenamesOnly;
    assert !op.pc.Locking? && !op.pc.Done?;
    hide Possible;
    hide CheckStep;
    hide PublishStep;
    hide UnpublishStep;
    hide ClearStep;
    SameSound(w, op.vm, home);
    SameNames(w, op.disk);
    if Publishing(op.pc) { PublishSound(home, w, op, ans, pick); }
    if Unpublishing(op.pc) { UnpublishSound(home, w, op, ans, pick); }
    if Clearing(op.pc) { ClearSound(home, w, op, ans, pick); }
    match op.pc
    case CheckName => CheckKnowsNext(home, w, op, ans, pick);
    case SearchSuffix => CheckKnowsNext(home, w, op, ans, pick);
    case SizeFound(_) => CheckKnowsNext(home, w, op, ans, pick);
    case Renaming => RenamingKnows(home, w, op, ans, pick);
    case ReadSlots => ReadSlotsKnows(home, w, op, ans, pick);
    case Attaching(_) => AttachingKnows(home, w, op, ans, pick);
    case FindSlot => FindSlotKnows(home, w, op, ans, pick);
    case Unlinking(_) => UnlinkingKnows(home, w, op, ans, pick);
    case AwaitDetach => AwaitDetachKnows(home, w, op, ans, pick);
    case RenamingBack => RenamingBackKnows(home, w, op, ans, pick);
    case ReadUnused(_) => ReadUnusedKnows(home, w, op, ans, pick);
    case CheckUnused(_, _) => CheckUnusedKnows(home, w, op, ans, pick);
    case DropUnused(_, _, _) => DropUnusedKnows(home, w, op, ans, pick);
    case _ =>
  }

  lemma SameNames(w: World, d: Disk)
    ensures RenamesOnly(w, w, d)
  {}

  // ------------------------------------------------------------- whole runs

  ghost predicate Initial(s: State) {
    WorldInv(s.world, s.home) && s.ops == map[] && s.locks == map[]
  }

  lemma StepOpKeeps(s: State, a: Action)
    requires Inv(s) && Enabled(s, a) && a.Step? && !s.ops[a.id].pc.Locking?
    ensures Inv(Do(s, a)) && Holdings(Do(s, a).world.content) == Holdings(s.world.content)
  {
    hide OpInv;
    hide WorldInv;
    hide Frame;
    hide StepOp;
    hide Possible;
    var s' := Do(s, a);
    var op := s.ops[a.id];
    StepKeeps(s.home, s.world, op, a.ans, a.pick);
    if !op.locked { StepLocked(s.home, s.world, op, a.ans, a.pick); }
    forall id | id in s'.ops ensures OpInv(s'.world, s.home, s'.ops[id]) {
      if id != a.id && op.locked { OtherOpKeeps(s.world, s'.world, op.vm, s.home, s.ops[id]); }
    }
  }

  /** A call changes nothing before it holds its VM's lock. */
  lemma StepLocked(home: nat, w: World, op: Op, ans: Answer, pick: nat)
    requires OpInv(w, home, op) && Possible(w, op, pick) && !op.locked
    ensures StepOp(home, w, op, ans, pick).0 == w
  {}

  lemma LockKeeps(s: State, a: Action)
    requires Inv(s) && Enabled(s, a) && a.Step? && s.ops[a.id].pc.Locking?
    ensures Inv(Do(s, a)) && Do(s, a).world == s.world
  {
    hide WorldInv;
    hide StepOp;
    var s' := Do(s, a);
    assert OpInv(s.world, s.home, s.ops[a.id]);
    assert OpInv(s.world, s.home, s'.ops[a.id]);
    hide OpInv;
  }

  lemma StartKeeps(s: State, a: Action)
    requires Inv(s) && Enabled(s, a) && a.Start?
    ensures Inv(Do(s, a)) && Do(s, a).world == s.world
  {
    hide WorldInv;
    hide StepOp;
    var s' := Do(s, a);
    assert OpInv(s.world, s.home, s'.ops[a.id]);
    hide OpInv;
  }

  lemma DoKeeps(s: State, a: Action)
    requires Inv(s) && Enabled(s, a)
    ensures Inv(Do(s, a)) && Holdings(Do(s, a).world.content) == Holdings(s.world.content)
    ensures Do(s, a).home == s.home
  {
    hide WorldInv;
    hide OpInv;
    hide StepOp;
    if a.Step? && !s.ops[a.id].pc.Locking? {
      StepOpKeeps(s, a);
    } else if a.Step? {
      LockKeeps(s, a);
    } else if a.Start? {
      StartKeeps(s, a);
    }
  }

  lemma {:induction false} RunKeeps(s: State, acts: seq<Action>)
    requires Inv(s) && IsRun(s, acts)
    ensures Inv(After(s, acts)) && Holdings(After(s, acts).world.content) == Holdings(s.world.content)
    ensures After(s, acts).home == s.home
    decreases |acts|
  {
    hide Inv;
    hide Do;
    hide Enabled;
    if acts != [] {
      DoKeeps(s, acts[0]);
      RunKeeps(Do(s, acts[0]), acts[1..]);
    }
  }

  // ---------------------------------------------------------------- results

  /** Conservation: whatever publish and unpublish calls interleave and wherever the
      controller dies, every volume is stored exactly once with the data it started with,
      and no drive slot dangles. */
  lemma Conservation(s: State, acts: seq<Action>)
    requires Initial(s) && IsRun(s, acts)
    ensures var w := After(s, acts).world;
            && Unique(w.content)
            && Holdings(w.content) == Holdings(s.world.content)
            && forall v, l :: v in w.vms && l in w.vms[v].slots ==> w.vms[v].slots[l] in w.content
  {
    RunKeeps(s, acts);
  }

  /** ResolveVolume asked in one instant: the handle's own name, else the name found by suffix. */
  ghost function Resolve(w: World, handle: Disk): Option<Disk> {
    if handle in w.content then Some(handle)
    else if Exists(w, handle.suffix) then
      var d :| d in w.content && d.suffix == handle.suffix; Some(d)
    else None
  }

  /** At every crash point the immutable handle resolves to the volume's one disk. */
  lemma Resolvable(s: State, acts: seq<Action>, handle: Disk)
    requires Initial(s) && IsRun(s, acts) && Exists(s.world, handle.suffix)
    ensures var w := After(s, acts).world;
            var d := Resolve(w, handle);
            && d.Some? && d.value in w.content && d.value.suffix == handle.suffix
            && forall e :: e in s.world.content && e.suffix == handle.suffix ==>
               w.content[d.value] == s.world.content[e]
  {
    RunKeeps(s, acts);
    var w := After(s, acts).world;
    forall e | e in s.world.content && e.suffix == handle.suffix
      ensures Exists(w, handle.suffix)
      ensures forall d :: d in w.content && d.suffix == handle.suffix ==> w.content[d] == s.world.content[e]
    {
      assert (e.suffix, s.world.content[e]) in Holdings(w.content);
    }
  }

  ghost predicate Attached(w: World, suffix: string) {
    exists v, l :: v in w.vms && Holds(w.vms[v], l, suffix)
  }

  /** The answers ControllerUnpublishVolume returns as success: detached, or no such volume. */
  predicate Succeeded(op: Op) {
    !op.publish && op.pc.Done? && (op.pc.outcome.Unpublished? || op.pc.outcome.NotFound?)
  }

  /** The volume was not renamed since the call began. */
  predicate Undisturbed(w: World, op: Op) { Count(w, op.handle.suffix) == op.mark }

  /** What a successful unpublish leaves behind. */
  ghost predicate LeftDetached(s: State, op: Op, r: Outcome)
    requires r.Unpublished? || r.NotFound?
  {
    && op.vm in s.world.vms
    && (r.Unpublished? || Undisturbed(s.world, op) ==> !HasSlot(s.world.vms[op.vm], op.handle.suffix))
    && (r.Unpublished? && r.renamedBack && Count(s.world, op.handle.suffix) == r.renamesThen ==>
          Disk(s.home, op.handle.suffix) in s.world.content)
    && (r.NotFound? && Undisturbed(s.world, op) ==>
          !Exists(s.world, op.handle.suffix) && !Attached(s.world, op.handle.suffix))
  }

  lemma AttachedExists(w: World, home: nat, suffix: string)
    requires WorldInv(w, home) && Attached(w, suffix)
    ensures Exists(w, suffix)
  {
    var v, l :| v in w.vms && Holds(w.vms[v], l, suffix);
    assert w.vms[v].slots[l] in w.content;
  }

  lemma InvDetached(s: State, id: nat)
    requires Inv(s) && id in s.ops && Succeeded(s.ops[id])
    ensures LeftDetached(s, s.ops[id], s.ops[id].pc.outcome)
  {
    var op := s.ops[id];
    assert OpInv(s.world, s.home, op);
    if Attached(s.world, op.handle.suffix) { AttachedExists(s.world, s.home, op.handle.suffix); }
    if HasSlot(s.world.vms[op.vm], op.handle.suffix) {
      var l :| l in s.world.vms[op.vm].slots && s.world.vms[op.vm].slots[l].suffix == op.handle.suffix;
      assert Holds(s.world.vms[op.vm], l, op.handle.suffix);
      assert Attached(s.world, op.handle.suffix);
    }
    hide WorldInv;
  }

  /** An unpublish that succeeds on a found volume leaves its VM no slot of it; when the
      rename back succeeded, the disk carries the controller's vmid again unless the volume
      was renamed once more since. One that succeeds for want of a volume leaves no VM a slot
      of it, unless the volume was renamed while the call looked for it. */
  lemma UnpublishDetaches(s: State, acts: seq<Action>, id: nat)
    requires Initial(s) && IsRun(s, acts)
    ensures var t := After(s, acts);
            id in t.ops && Succeeded(t.ops[id]) ==> LeftDetached(t, t.ops[id], t.ops[id].pc.outcome)
  {
    hide OpInv;
    hide IsRun;
    hide After;
    RunKeeps(s, acts);
    var t := After(s, acts);
    if id in t.ops && Succeeded(t.ops[id]) { InvDetached(t, id); }
  }

  lemma {:induction false} Extend(s: State, acts: seq<Action>, a: Action)
    requires IsRun(s, acts) && Enabled(After(s, acts), a)
    ensures IsRun(s, acts + [a]) && After(s, acts + [a]) == Do(After(s, acts), a)
    decreases |acts|
  {
    if acts != [] {
      hide Do;
      hide Enabled;
      assert (acts + [a])[1..] == acts[1..] + [a];
      Extend(Do(s, acts[0]), acts[1..], a);
    }
  }

  /** A volume stored under VM 102's name, an empty VM 101, and an unpublish that has found it. */
  lemma LookingRun(x: string) returns (s: State, acts: seq<Action>)
    ensures Initial(s) && IsRun(s, acts)
    ensures var h, d := Disk(100, x), Disk(102, x);
      After(s, acts) == State(100, World(map[d := 7], map[101 := Config(map[], map[])], map[]),
                              map[0 := Op(false, 101, h, h, 0, false, SizeFound(d))], map[])
  {
    var h, d := Disk(100, x), Disk(102, x);
    var w := World(map[d := 7], map[101 := Config(map[], map[])], map[]);
    s := State(100, w, map[], map[]);
    acts := [];
    Extend(s, acts, Start(0, false, 101, h));
    acts := acts + [Start(0, false, 101, h)];
    assert After(s, acts) == State(100, w, map[0 := Op(false, 101, h, h, 0, false, CheckName)], map[]);
    Extend(s, acts, Step(0, Fine, 0));
    acts := acts + [Step(0, Fine, 0)];
    assert After(s, acts) == State(100, w, map[0 := Op(false, 101, h, h, 0, false, SearchSuffix)], map[]);
    Extend(s, acts, Step(0, Fine, 102));
    acts := acts + [Step(0, Fine, 102)];
  }

  /** Next a publish to VM 101 finds it too. */
  lemma FindingRun(x: string) returns (s: State, acts: seq<Action>)
    ensures Initial(s) && IsRun(s, acts)
    ensures var h, d := Disk(100, x), Disk(102, x);
      var ops := map[0 := Op(false, 101, h, h, 0, false, SizeFound(d)),
                     1 := Op(true, 101, h, h, 0, false, SizeFound(d))];
      After(s, acts) == State(100, World(map[d := 7], map[101 := Config(map[], map[])], map[]), ops, map[])
  {
    hide IsRun;
    hide After;
    var h, d := Disk(100, x), Disk(102, x);
    s, acts := LookingRun(x);
    var w, op0 := After(s, acts).world, Op(false, 101, h, h, 0, false, SizeFound(d));
    Extend(s, acts, Start(1, true, 101, h));
    acts := acts + [Start(1, true, 101, h)];
    assert After(s, acts) == State(100, w, map[0 := op0, 1 := Op(true, 101, h, h, 0, false, CheckName)], map[]);
    Extend(s, acts, Step(1, Fine, 0));
    acts := acts + [Step(1, Fine, 0)];
    assert After(s, acts) == State(100, w, map[0 := op0, 1 := Op(true, 101, h, h, 0, false, SearchSuffix)], map[]);
    Extend(s, acts, Step(1, Fine, 102));
    acts := acts + [Step(1, Fine, 102)];
  }

  /** It takes the lock, and renames the volume. */
  lemma RenamingRun(x: string) returns (s: State, acts: seq<Action>)
    ensures Initial(s) && IsRun(s, acts)
    ensures var h, d, e := Disk(100, x), Disk(102, x), Disk(101, x);
      var ops := map[0 := Op(false, 101, h, h, 0, false, SizeFound(d)), 1 := Op(true, 101, h, e, 0, true, ReadSlots)];
      After(s, acts) ==
        State(100, World(map[e := 7], map[101 := Config(map[], map[])], map[x := 1]), ops, map[101 := 1])
  {
    hide IsRun;
    hide After;
    var h, d, e := Disk(100, x), Disk(102, x), Disk(101, x);
    s, acts := FindingRun(x);
    var w, op0 := After(s, acts).world, Op(false, 101, h, h, 0, false, SizeFound(d));
    Extend(s, acts, Step(1, Fine, 0));
    acts := acts + [Step(1, Fine, 0)];
    assert After(s, acts) == State(100, w, map[0 := op0, 1 := Op(true, 101, h, d, 0, false, Locking)], map[]);
    Extend(s, acts, Step(1, Fine, 0));
    acts := acts + [Step(1, Fine, 0)];
    assert After(s, acts) == State(100, w, map[0 := op0, 1 := Op(true, 101, h, d, 0, true, Renaming)], map[101 := 1]);
    assert CanRename(w, d, 101);
    Extend(s, acts, Step(1, Fine, 0));
    acts := acts + [Step(1, Fine, 0)];
  }

  /** And attaches it. */
  lemma AttachingRun(x: string) returns (s: State, acts: seq<Action>)
    ensures Initial(s) && IsRun(s, acts)
    ensures var h, d, e := Disk(100, x), Disk(102, x), Disk(101, x);
      var ops := map[0 := Op(false, 101, h, h, 0, false, SizeFound(d)),
                     1 := Op(true, 101, h, e, 0, true, Done(Published(1)))];
      After(s, acts) ==
        State(100, World(map[e := 7], map[101 := Config(map[1 := e], map[])], map[x := 1]), ops, map[101 := 1])
  {
    hide IsRun;
    hide After;
    var h, d, e := Disk(100, x), Disk(102, x), Disk(101, x);
    s, acts := RenamingRun(x);
    var w, op0 := After(s, acts).world, Op(false, 101, h, h, 0, false, SizeFound(d));
    assert FirstFree(Config(map[], map[]), 1) == 1;
    Extend(s, acts, Step(1, Fine, 0));
    acts := acts + [Step(1, Fine, 0)];
    assert After(s, acts) ==
      State(100, w, map[0 := op0, 1 := Op(true, 101, h, e, 0, true, Attaching(1))], map[101 := 1]);
    Extend(s, acts, Step(1, Fine, 0));
    acts := acts + [Step(1, Fine, 0)];
  }

  /** An unpublish can answer that there is no such volume, and so succeed, with the volume in a
      slot of its VM: a publish renamed it between the search and the look at what was found. */
  lemma NotFoundWhileAttached(x: string) returns (s: State, acts: seq<Action>)
    ensures Initial(s) && IsRun(s, acts)
    ensures var t := After(s, acts);
      && 0 in t.ops && Succeeded(t.ops[0]) && t.ops[0].pc.outcome.NotFound?
      && t.ops[0].vm == 101 && t.ops[0].handle.suffix == x
      && 101 in t.world.vms && HasSlot(t.world.vms[101], x)
  {
    hide IsRun;
    hide After;
    s, acts := AttachingRun(x);
    assert After(s, acts).world.vms[101].slots[1].suffix == x;
    Extend(s, acts, Step(0, Fine, 0));
    acts := acts + [Step(0, Fine, 0)];
  }

  /** The answered lun is the volume's one slot. */
  ghost predicate LeftAttached(s: State, op: Op, lun: nat) {
    && op.vm in s.world.vms && Holds(s.world.vms[op.vm], lun, op.handle.suffix)
    && (forall l :: Holds(s.world.vms[op.vm], l, op.handle.suffix) ==> l == lun)
    && s.world.vms[op.vm].slots[lun] in s.world.content
  }

  lemma InvAttached(s: State, id: nat)
    requires Inv(s) && id in s.ops && s.ops[id].pc.Done? && s.ops[id].pc.outcome.Published?
    ensures LeftAttached(s, s.ops[id], s.ops[id].pc.outcome.lun)
  {
    assert OpInv(s.world, s.home, s.ops[id]);
  }

  /** A publish that succeeds leaves its volume's one disk in the answered slot and no other. */
  lemma PublishAttaches(s: State, acts: seq<Action>, id: nat)
    requires Initial(s) && IsRun(s, acts)
    ensures var t := After(s, acts);
            id in t.ops && t.ops[id].pc.Done? && t.ops[id].pc.outcome.Published? ==>
              LeftAttached(t, t.ops[id], t.ops[id].pc.outcome.lun)
  {
    hide OpInv;
    hide IsRun;
    hide After;
    RunKeeps(s, acts);
    var t := After(s, acts);
    if id in t.ops && t.ops[id].pc.Done? && t.ops[id].pc.outcome.Published? {
      InvAttached(t, id);
    }
  }

  lemma InvClears(s: State, id: nat)
    requires Inv(s) && id in s.ops && s.ops[id].pc.DropUnused?
    ensures var op := s.ops[id];
            && op.vm in s.world.vms && op.pc.key in s.world.vms[op.vm].unused
            && s.world.vms[op.vm].unused[op.pc.key] !in s.world.content
  {
    assert OpInv(s.world, s.home, s.ops[id]);
  }

  /** Existence check and `unused<n>` delete are two calls, yet whenever the delete is issued
      the key still names a volume that is not stored: it never deallocates anything. */
  lemma ClearNeverDeallocates(s: State, acts: seq<Action>, id: nat)
    requires Initial(s) && IsRun(s, acts)
    ensures var t := After(s, acts);
            id in t.ops && t.ops[id].pc.DropUnused? ==>
              var op := t.ops[id];
              && op.vm in t.world.vms && op.pc.key in t.world.vms[op.vm].unused
              && t.world.vms[op.vm].unused[op.pc.key] !in t.world.content
  {
    hide OpInv;
    hide IsRun;
    hide After;
    RunKeeps(s, acts);
    var t := After(s, acts);
    if id in t.ops && t.ops[id].pc.DropUnused? { InvClears(t, id); }
  }

  /** Proxmox renames a volume only while nothing is attached to it. */
  lemma RenamedOnlyDetached(s: State, a: Action, suffix: string)
    requires Inv(s) && Enabled(s, a) && Attached(s.world, suffix)
    ensures Count(Do(s, a).world, suffix) == Count(s.world, suffix)
  {
    hide StepOp;
    hide Possible;
    hide OpInv;
    if a.Step? && !s.ops[a.id].pc.Locking? {
      var op := s.ops[a.id];
      StepKeeps(s.home, s.world, op, a.ans, a.pick);
      var v, l :| v in s.world.vms && Holds(s.world.vms[v], l, suffix);
      if op.disk.suffix == suffix && op.disk in s.world.content {
        assert s.world.vms[v].slots[l] == op.disk;
      }
    }
  }

  ghost predicate AttachedThroughout(s: State, acts: seq<Action>, suffix: string)
    requires IsRun(s, acts)
    decreases |acts|
  {
    Attached(s.world, suffix) && (acts != [] ==> AttachedThroughout(Do(s, acts[0]), acts[1..], suffix))
  }

  /** The call, if it is about this volume, began after its latest rename. */
  ghost predicate Recent(s: State, id: nat, suffix: string) {
    id in s.ops && s.ops[id].handle.suffix == suffix ==> s.ops[id].mark == Count(s.world, suffix)
  }

  lemma StaysRecent(s: State, a: Action, id: nat, suffix: string)
    requires Inv(s) && Enabled(s, a) && Recent(s, id, suffix)
    requires Count(Do(s, a).world, suffix) == Count(s.world, suffix)
    ensures Recent(Do(s, a), id, suffix)
  {
    hide StepOp;
    hide Possible;
    hide OpInv;
    hide WorldInv;
    if a.Step? && !s.ops[a.id].pc.Locking? {
      StepKeeps(s.home, s.world, s.ops[a.id], a.ans, a.pick);
    }
  }

  lemma RecentIsFound(s: State, id: nat, suffix: string)
    requires Inv(s) && Attached(s.world, suffix) && Recent(s, id, suffix)
    ensures id in s.ops && s.ops[id].handle.suffix == suffix ==> s.ops[id].pc != Done(NotFound)
  {
    var v, l :| v in s.world.vms && Holds(s.world.vms[v], l, suffix);
    assert s.world.vms[v].slots[l] in s.world.content;
    assert Exists(s.world, suffix);
  }

  /** "Not found" is never answered about a volume that stays attached for the length of
      the call, under whatever VM's name it is stored. */
  lemma {:induction false} AttachedIsNeverNotFound(s: State, acts: seq<Action>, id: nat, suffix: string)
    requires Inv(s) && IsRun(s, acts) && AttachedThroughout(s, acts, suffix) && Recent(s, id, suffix)
    ensures var t := After(s, acts);
            id in t.ops && t.ops[id].handle.suffix == suffix ==> t.ops[id].pc != Done(NotFound)
    decreases |acts|
  {
    hide Inv;
    hide Do;
    hide Enabled;
    hide Attached;
    if acts == [] {
      RecentIsFound(s, id, suffix);
    } else {
      DoKeeps(s, acts[0]);
      RenamedOnlyDetached(s, acts[0], suffix);
      StaysRecent(s, acts[0], id, suffix);
      AttachedIsNeverNotFound(Do(s, acts[0]), acts[1..], id, suffix);
    }
  }

  // ------------------------------------------------------- disks and their names

  /** The name a disk is stored under, in a directory of its vmid or not. */
  function NameOf(d: Disk, dir: bool): string { Names.Render(PartsOf(d, dir)) }

  function PartsOf(d: Disk, dir: bool): Names.Parts {
    var vmid := Decimal.Print(d.vmid);
    Names.Parts(if dir then Some(vmid) else None, vmid, d.suffix)
  }

  predicate Nameable(d: Disk) { Names.LegalVmid(d.vmid) && d.suffix != "" && '\n' !in d.suffix }

  lemma NameMatches(d: Disk, dir: bool)
    requires Nameable(d)
    ensures Names.MatchDisk(NameOf(d, dir)) == Some(PartsOf(d, dir))
  {
    Names.LegalVmidText(d.vmid);
    Names.RenderMatches(PartsOf(d, dir));
  }

  /** What the protocol does to vmid and suffix is what the driver does to names: a rename to a
      vmid is WithVMID, the suffix is DiskSuffix, and different disks have different names. */
  lemma NamesAreFaithful(d: Disk, e: Disk, vmid: nat, dir: bool)
    requires Nameable(d) && Nameable(e) && Names.LegalVmid(vmid)
    ensures Names.DiskSuffix(NameOf(d, dir)) == d.suffix && Names.VMID(NameOf(d, dir)) == Decimal.Print(d.vmid)
    ensures Names.WithVMID(NameOf(d, dir), vmid) == Some(NameOf(Disk(vmid, d.suffix), dir))
    ensures NameOf(d, dir) == NameOf(e, dir) ==> d == e
  {
    NameMatches(d, dir);
    NameMatches(e, dir);
    Names.VmidOfDisk(NameOf(d, dir));
    Decimal.ParsePrint(d.vmid);
    Decimal.ParsePrint(e.vmid);
    hide Names.MatchDisk;
    hide Decimal.Print;
    hide Decimal.ParseInt;
    hide Names.VMID;
  }
}

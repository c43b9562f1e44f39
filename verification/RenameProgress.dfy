/** What publish and unpublish get done: a call of module RenameProtocol that begins in any
    reachable state and is left alone. Every API call is answered as it should be, but for the
    rename, whose answer is any. */
module RenameProgress {
  import opened RenameProtocol

  /** Steps of the one call lead from the one state to the other. */
  ghost predicate Leads(s: State, t: State, id: nat) {
    exists acts :: IsRun(s, acts) && After(s, acts) == t && forall i :: 0 <= i < |acts| ==> Of(acts[i], id)
  }

  predicate Of(a: Action, id: nat) { (a.Start? || a.Step?) && a.id == id }

  lemma Go(s: State, t: State, id: nat, a: Action)
    requires Leads(s, t, id) && Enabled(t, a) && Of(a, id)
    ensures Leads(s, Do(t, a), id)
  {
    hide IsRun;
    hide After;
    hide Do;
    hide Enabled;
    var acts :| IsRun(s, acts) && After(s, acts) == t && forall i :: 0 <= i < |acts| ==> Of(acts[i], id);
    Extend(s, acts, a);
    assert forall i :: 0 <= i < |acts + [a]| ==> Of((acts + [a])[i], id);
  }

  /** The state in which the call has come to op, with the cluster as w, and nobody else has moved. */
  ghost function At(s: State, id: nat, w: World, op: Op): State {
    s.(world := w, ops := s.ops[id := op], locks := if op.locked then s.locks[op.vm := id] else s.locks)
  }

  ghost predicate Comes(s: State, id: nat, w: World, op: Op) { Leads(s, At(s, id, w, op), id) }

  lemma Begins(s: State, id: nat, publish: bool, vm: nat, handle: Disk)
    requires id !in s.ops && vm in s.world.vms && vm != s.home
    ensures Comes(s, id, s.world, Op(publish, vm, handle, handle, Count(s.world, handle.suffix), false, CheckName))
  {
    assert Leads(s, s, id) by {
      var acts: seq<Action> := [];
      assert IsRun(s, acts) && After(s, acts) == s;
    }
    hide Leads;
    Go(s, s, id, Start(id, publish, vm, handle));
  }

  lemma Calls(s: State, id: nat, w: World, op: Op, ans: Answer, pick: nat)
    requires Comes(s, id, w, op) && Possible(w, op, pick) && id !in s.ops
    ensures var (w', op') := StepOp(s.home, w, op, ans, pick); Comes(s, id, w', op')
  {
    hide Leads;
    hide StepOp;
    var t := At(s, id, w, op);
    assert !op.pc.Locking?;
    hide Possible;
    Go(s, t, id, Step(id, ans, pick));
    var (w', op') := StepOp(s.home, w, op, ans, pick);
    assert t.ops[id := op'] == s.ops[id := op'];
    assert Do(t, Step(id, ans, pick)) == At(s, id, w', op');
  }

  lemma Locks(s: State, id: nat, w: World, op: Op)
    requires Comes(s, id, w, op) && op.pc.Locking? && !op.locked && op.vm !in s.locks && id !in s.ops
    ensures Comes(s, id, w, op.(locked := true, pc :=
      if !op.publish then FindSlot else if op.disk.vmid != op.vm then Renaming else ReadSlots))
  {
    hide Leads;
    hide StepOp;
    var t := At(s, id, w, op);
    Go(s, t, id, Step(id, Fine, 0));
    var op' := op.(locked := true, pc :=
      if !op.publish then FindSlot else if op.disk.vmid != op.vm then Renaming else ReadSlots);
    assert t.ops[id := op'] == s.ops[id := op'];
    assert Do(t, Step(id, Fine, 0)) == At(s, id, w, op');
  }

  // ------------------------------------------------------------------- the lookup

  /** The call has its lock, and the name its volume is stored under. */
  ghost predicate Ready(s: State, id: nat, op: Op, publish: bool, vm: nat, handle: Disk, d: Disk) {
    && Comes(s, id, s.world, op)
    && op.locked && op.publish == publish && op.vm == vm && op.handle == handle && op.disk == d
    && op.pc == if !publish then FindSlot else if d.vmid != vm then Renaming else ReadSlots
  }

  /** The volume is found by its handle's name, or by suffix. */
  lemma Finds(s: State, id: nat, publish: bool, vm: nat, handle: Disk, d: Disk) returns (op: Op)
    requires Inv(s) && id !in s.ops && vm in s.world.vms && vm != s.home && vm !in s.locks
    requires d in s.world.content && d.suffix == handle.suffix
    ensures Ready(s, id, op, publish, vm, handle, d)
  {
    hide Leads;
    var w := s.world;
    assert Unique(w.content);
    hide Inv;
    Begins(s, id, publish, vm, handle);
    op := Op(publish, vm, handle, handle, Count(w, handle.suffix), false, CheckName);
    Calls(s, id, w, op, Fine, 0);
    if handle in w.content {
      op := op.(pc := Locking);
    } else {
      op := op.(pc := SearchSuffix);
      Calls(s, id, w, op, Fine, d.vmid);
      op := op.(pc := SizeFound(d));
      Calls(s, id, w, op, Fine, 0);
      op := op.(disk := d, pc := Locking);
    }
    Locks(s, id, w, op);
    op := op.(locked := true, pc := if !publish then FindSlot else if d.vmid != vm then Renaming else ReadSlots);
  }

  /** A volume that is not stored is answered so. */
  lemma NotThere(s: State, id: nat, publish: bool, vm: nat, handle: Disk) returns (op: Op)
    requires Inv(s) && id !in s.ops && vm in s.world.vms && vm != s.home && !Exists(s.world, handle.suffix)
    ensures Comes(s, id, s.world, op) && op.pc == Done(NotFound)
  {
    hide Leads;
    var w := s.world;
    hide Inv;
    Begins(s, id, publish, vm, handle);
    op := Op(publish, vm, handle, handle, Count(w, handle.suffix), false, CheckName);
    assert handle !in w.content && Disk(0, handle.suffix) !in w.content;
    Calls(s, id, w, op, Fine, 0);
    op := op.(pc := SearchSuffix);
    Calls(s, id, w, op, Fine, 0);
    op := op.(pc := Done(NotFound));
  }

  // ----------------------------------------------------------------- the unpublish

  /** Some other VM has the volume. */
  ghost predicate Elsewhere(w: World, vm: nat, suffix: string) {
    exists v, l :: v in w.vms && v != vm && Holds(w.vms[v], l, suffix)
  }

  /** The VM has lost the volume's slots and nothing else, and may have a key for it. */
  ghost predicate Detached(w: World, w': World, vm: nat, suffix: string) {
    && vm in w.vms && w'.content == w.content && w'.renames == w.renames && w'.vms.Keys == w.vms.Keys
    && (forall v :: v in w.vms && v != vm ==> w'.vms[v] == w.vms[v])
    && (forall l :: l in w'.vms[vm].slots <==> l in w.vms[vm].slots && w.vms[vm].slots[l].suffix != suffix)
    && (forall l :: l in w'.vms[vm].slots ==> w'.vms[vm].slots[l] == w.vms[vm].slots[l])
    && (forall k :: k in w.vms[vm].unused ==> k in w'.vms[vm].unused && w'.vms[vm].unused[k] == w.vms[vm].unused[k])
    && (forall k :: k in w'.vms[vm].unused && k !in w.vms[vm].unused ==> w'.vms[vm].unused[k] == Disk(vm, suffix))
  }

  lemma UnlinkDetaches(w: World, home: nat, vm: nat, lun: nat, key: nat, suffix: string)
    requires WorldInv(w, home) && vm in w.vms && Holds(w.vms[vm], lun, suffix) && key !in w.vms[vm].unused
    ensures Detached(w, Unlink(w, vm, lun, key), vm, suffix)
  {
    assert OneSlotEach(w.vms[vm].slots);
  }

  lemma Detaches(s: State, id: nat, op: Op, d: Disk, key: nat) returns (w: World)
    requires Inv(s) && id !in s.ops && Ready(s, id, op, false, op.vm, op.handle, d) && op.vm in s.world.vms
    requires key !in s.world.vms[op.vm].unused
    ensures Comes(s, id, w, op.(pc := AwaitDetach)) && Detached(s.world, w, op.vm, op.handle.suffix)
  {
    hide Comes;
    hide WorldInv;
    hide OpInv;
    hide LocksInv;
    hide Detached;
    hide CheckStep;
    hide PublishStep;
    hide ClearStep;
    hide Unlink;
    w := s.world;
    var c, x := w.vms[op.vm], op.handle.suffix;
    if HasSlot(c, x) {
      var l :| l in c.slots && c.slots[l].suffix == x;
      assert Holds(c, l, x);
      UnlinkDetaches(w, s.home, op.vm, l, key, x);
      Calls(s, id, w, op, Fine, l);
      Calls(s, id, w, op.(pc := Unlinking(l)), Fine, key);
      w := Unlink(w, op.vm, l, key);
    } else {
      NothingToDetach(w, op.vm, x);
      Calls(s, id, w, op, Fine, 0);
    }
  }

  lemma NothingToDetach(w: World, vm: nat, suffix: string)
    requires vm in w.vms && !HasSlot(w.vms[vm], suffix)
    ensures Detached(w, w, vm, suffix)
  {}

  /** With the volume out of this VM, the rename back is allowed exactly when no other has it. */
  lemma MayRenameBack(w: World, w': World, home: nat, vm: nat, d: Disk)
    requires WorldInv(w, home) && Detached(w, w', vm, d.suffix) && d in w.content && d.vmid != home
    ensures CanRename(w', d, home) <==> !Elsewhere(w, vm, d.suffix)
  {
    if Elsewhere(w, vm, d.suffix) {
      var v, l :| v in w.vms && v != vm && Holds(w.vms[v], l, d.suffix);
      assert w.vms[v].slots[l] in w.content;
      assert w'.vms[v].slots[l] == d;
    } else if Referenced(w', d) {
      var v, l :| v in w'.vms && l in w'.vms[v].slots && w'.vms[v].slots[l] == d;
      assert v != vm;
      assert Holds(w.vms[v], l, d.suffix);
    }
    assert Disk(home, d.suffix) !in w.content;
  }

  /** The keys of the volume, and only those, are gone from the VM. */
  ghost predicate Cleared(w: World, w': World, vm: nat, keys: set<nat>) {
    && vm in w.vms && w'.content == w.content && w'.renames == w.renames
    && w'.vms == w.vms[vm := w.vms[vm].(unused := w.vms[vm].unused - keys)]
  }

  /** Clearing the keys is best effort: whatever its calls meet, the unpublish has succeeded and
      says that the disk was renamed back. */
  lemma ClearingIsBestEffort(home: nat, w: World, op: Op, ans: Answer, pick: nat)
    requires Clearing(op.pc) && Possible(w, op, pick)
    ensures var pc := StepOp(home, w, op, ans, pick).1.pc;
      if Clearing(pc) then ans == Fine && pc.renamesThen == op.pc.renamesThen
      else pc == Done(Unpublished(true, op.pc.renamesThen))
  {}

  lemma {:induction false} Clears(s: State, id: nat, w: World, op: Op) returns (w': World)
    requires Comes(s, id, w, op) && id !in s.ops && op.pc.CheckUnused? && op.vm in w.vms
    requires Snapshot(w.vms[op.vm], op.pc.keys, op.handle.suffix)
    requires forall k :: k in op.pc.keys ==> op.pc.keys[k] !in w.content
    ensures Comes(s, id, w', op.(pc := Done(Unpublished(true, op.pc.renamesThen))))
    ensures Cleared(w, w', op.vm, op.pc.keys.Keys)
    decreases |op.pc.keys|
  {
    hide Comes;
    var keys, n := op.pc.keys, op.pc.renamesThen;
    if keys == map[] {
      ClearsNone(s, id, w, op);
      w' := w;
      assert keys.Keys == {};
      ClearedNone(w, op.vm);
    } else {
      var k :| k in keys;
      var w1 := ClearsOne(s, id, w, op, k);
      var rest := keys - {k};
      assert keys.Keys == {k} + rest.Keys;
      assert |keys.Keys| == 1 + |rest.Keys|;
      assert Snapshot(w1.vms[op.vm], rest, op.handle.suffix);
      hide Cleared;
      hide Snapshot;
      w' := Clears(s, id, w1, op.(pc := CheckUnused(rest, n)));
      ClearedMore(w, w1, w', op.vm, {k}, rest.Keys);
    }
  }

  lemma ClearsNone(s: State, id: nat, w: World, op: Op)
    requires Comes(s, id, w, op) && id !in s.ops && op.pc.CheckUnused? && op.vm in w.vms && op.pc.keys == map[]
    ensures Comes(s, id, w, op.(pc := Done(Unpublished(true, op.pc.renamesThen))))
  {
    hide Comes;
    Calls(s, id, w, op, Fine, 0);
  }

  lemma ClearedNone(w: World, vm: nat)
    requires vm in w.vms
    ensures Cleared(w, w, vm, {})
  {
    var c := w.vms[vm];
    assert c.unused - {} == c.unused;
    assert c.(unused := c.unused - {}) == c;
    assert w.vms[vm := c] == w.vms;
  }

  lemma ClearedMore(w: World, w1: World, w2: World, vm: nat, a: set<nat>, b: set<nat>)
    requires Cleared(w, w1, vm, a) && Cleared(w1, w2, vm, b)
    ensures Cleared(w, w2, vm, a + b)
  {
    assert w.vms[vm].unused - a - b == w.vms[vm].unused - (a + b);
  }

  lemma ClearsOne(s: State, id: nat, w: World, op: Op, k: nat) returns (w': World)
    requires Comes(s, id, w, op) && id !in s.ops && op.pc.CheckUnused? && op.vm in w.vms && k in op.pc.keys
    requires Snapshot(w.vms[op.vm], op.pc.keys, op.handle.suffix) && op.pc.keys[k] !in w.content
    ensures Comes(s, id, w', op.(pc := CheckUnused(op.pc.keys - {k}, op.pc.renamesThen)))
    ensures Cleared(w, w', op.vm, {k})
  {
    hide Comes;
    var keys, n := op.pc.keys, op.pc.renamesThen;
    Calls(s, id, w, op, Fine, k);
    Calls(s, id, w, op.(pc := DropUnused(k, keys, n)), Fine, 0);
    w' := DeleteUnused(w, op.vm, k);
    assert w.content - {w.vms[op.vm].unused[k]} == w.content;
  }

  /** What an unpublish leaves of the volume's keys on the VM, and of everything else. */
  ghost predicate OthersKept(w: World, w': World, vm: nat, suffix: string) {
    && vm in w.vms && w'.vms.Keys == w.vms.Keys
    && (forall v :: v in w.vms && v != vm ==> w'.vms[v] == w.vms[v])
    && (forall l :: l in w'.vms[vm].slots <==> l in w.vms[vm].slots && w.vms[vm].slots[l].suffix != suffix)
    && (forall l :: l in w'.vms[vm].slots ==> w'.vms[vm].slots[l] == w.vms[vm].slots[l])
    && (forall k :: k in w.vms[vm].unused && w.vms[vm].unused[k].suffix != suffix ==>
          k in w'.vms[vm].unused && w'.vms[vm].unused[k] == w.vms[vm].unused[k])
  }

  lemma DetachedKeeps(w: World, w': World, vm: nat, suffix: string)
    requires Detached(w, w', vm, suffix)
    ensures OthersKept(w, w', vm, suffix)
  {}

  /** The rename back and the keys after it. */
  lemma ClearsKeys(s: State, id: nat, w: World, op: Op, d: Disk) returns (w': World, op': Op)
    requires Comes(s, id, w, op) && id !in s.ops && op.pc.RenamingBack? && op.vm in w.vms && op.vm != s.home
    requires op.disk == d && d.suffix == op.handle.suffix && CanRename(w, d, s.home) && Unique(w.content)
    requires forall k :: k in w.vms[op.vm].unused ==> w.vms[op.vm].unused[k].vmid == op.vm
    ensures Comes(s, id, w', op') && op'.pc == Done(Unpublished(true, Count(w, d.suffix) + 1))
    ensures w'.content == Rename(w, d, s.home).content
    ensures Cleared(Rename(w, d, s.home), w', op.vm, UnusedOf(w.vms[op.vm], d.suffix).Keys)
  {
    hide Comes;
    hide Cleared;
    var w1, n, x := Rename(w, d, s.home), Count(w, d.suffix) + 1, d.suffix;
    Calls(s, id, w, op, Fine, 0);
    var op1 := op.(disk := Disk(s.home, x), pc := ReadUnused(n));
    Calls(s, id, w1, op1, Fine, 0);
    var keys := UnusedOf(w1.vms[op.vm], x);
    var op2 := op1.(pc := CheckUnused(keys, n));
    forall k | k in keys ensures keys[k] !in w1.content {
      assert keys[k] == Disk(op.vm, x);
      RenamedAway(w, d, s.home, op.vm);
    }
    w' := Clears(s, id, w1, op2);
    op' := op2.(pc := Done(Unpublished(true, n)));
    ClearedContent(w1, w', op.vm, keys.Keys);
  }

  lemma ClearedContent(w: World, w': World, vm: nat, keys: set<nat>)
    requires Cleared(w, w', vm, keys)
    ensures w'.content == w.content
  {}

  lemma RenamedAway(w: World, d: Disk, home: nat, vm: nat)
    requires d in w.content && Unique(w.content) && vm != home
    ensures Disk(vm, d.suffix) !in Rename(w, d, home).content && Disk(home, d.suffix) in Rename(w, d, home).content
  {}

  lemma ClearedKeeps(w: World, w1: World, w2: World, d: Disk, home: nat, vm: nat)
    requires Detached(w, w1, vm, d.suffix) && d in w1.content
    requires Cleared(Rename(w1, d, home), w2, vm, UnusedOf(w1.vms[vm], d.suffix).Keys)
    ensures OthersKept(w, w2, vm, d.suffix) && UnusedOf(w2.vms[vm], d.suffix) == map[]
  {}

  /** An unpublish of a stored volume that is left alone succeeds. The VM has no slot of it, and
      all else it had. The disk bears the controller's vmid if it did, or else exactly when the
      rename is carried out and no other VM has the volume; and the answer says so, and no key of
      the volume is left on the VM, exactly when the rename was answered as well. */
  lemma UnpublishDone(s: State, id: nat, vm: nat, handle: Disk, d: Disk, key: nat, ans: Answer)
    returns (w: World, op: Op)
    requires Inv(s) && id !in s.ops && vm in s.world.vms && vm != s.home && vm !in s.locks
    requires d in s.world.content && d.suffix == handle.suffix && key !in s.world.vms[vm].unused
    ensures Comes(s, id, w, op) && op.pc.Done? && op.pc.outcome.Unpublished?
    ensures OthersKept(s.world, w, vm, handle.suffix)
    ensures var alone := !Elsewhere(s.world, vm, handle.suffix);
      && (op.pc.outcome.renamedBack <==> d.vmid != s.home && ans == Fine && alone)
      && (Disk(s.home, handle.suffix) in w.content <==> d.vmid == s.home || (ans != Refused && alone))
      && (op.pc.outcome.renamedBack ==> UnusedOf(w.vms[vm], handle.suffix) == map[])
  {
    hide Comes;
    hide Detached;
    hide OthersKept;
    hide Elsewhere;
    hide Cleared;
    var x := handle.suffix;
    assert WorldInv(s.world, s.home);
    op := Finds(s, id, false, vm, handle, d);
    w := Detaches(s, id, op, d, key);
    op := op.(pc := AwaitDetach);
    DetachedKeeps(s.world, w, vm, x);
    DetachedFacts(s.world, w, s.home, vm, x);
    hide WorldInv;
    hide Inv;
    Calls(s, id, w, op, Fine, 0);
    if d.vmid == s.home {
      op := op.(pc := Done(Unpublished(false, 0)));
    } else {
      MayRenameBack(s.world, w, s.home, vm, d);
      w, op := RenamesBack(s, id, w, op.(pc := RenamingBack), d, ans);
    }
  }

  lemma RenamesBack(s: State, id: nat, w: World, op: Op, d: Disk, ans: Answer) returns (w': World, op': Op)
    requires Comes(s, id, w, op) && id !in s.ops && op.pc.RenamingBack? && op.vm in w.vms && op.vm != s.home
    requires op.disk == d && d.suffix == op.handle.suffix && d in w.content && d.vmid != s.home && Unique(w.content)
    requires forall k :: k in w.vms[op.vm].unused ==> w.vms[op.vm].unused[k].vmid == op.vm
    requires Detached(s.world, w, op.vm, d.suffix)
    ensures Comes(s, id, w', op') && op'.pc.Done? && op'.pc.outcome.Unpublished?
    ensures OthersKept(s.world, w', op.vm, d.suffix)
    ensures op'.pc.outcome.renamedBack <==> ans == Fine && CanRename(w, d, s.home)
    ensures Disk(s.home, d.suffix) in w'.content <==> ans != Refused && CanRename(w, d, s.home)
    ensures op'.pc.outcome.renamedBack ==> UnusedOf(w'.vms[op.vm], d.suffix) == map[]
  {
    hide Comes;
    hide Detached;
    hide OthersKept;
    hide Cleared;
    RenamedAway(w, d, s.home, op.vm);
    DetachedKeeps(s.world, w, op.vm, d.suffix);
    if CanRename(w, d, s.home) && ans == Fine {
      w', op' := ClearsKeys(s, id, w, op, d);
      ClearedKeeps(s.world, w, w', d, s.home, op.vm);
    } else {
      Calls(s, id, w, op, ans, 0);
      op' := op.(pc := Done(Unpublished(false, 0)));
      w' := if CanRename(w, d, s.home) && ans == Lost then Rename(w, d, s.home) else w;
      assert Disk(s.home, d.suffix) !in w.content;
      KeptRenamed(s.world, w, w', op.vm, d.suffix);
    }
  }

  lemma KeptRenamed(w: World, w1: World, w2: World, vm: nat, suffix: string)
    requires OthersKept(w, w1, vm, suffix) && w2.vms == w1.vms
    ensures OthersKept(w, w2, vm, suffix)
  {}

  lemma DetachedFacts(w: World, w': World, home: nat, vm: nat, suffix: string)
    requires WorldInv(w, home) && Detached(w, w', vm, suffix)
    ensures vm in w'.vms && !HasSlot(w'.vms[vm], suffix) && w'.content == w.content && Unique(w'.content)
    ensures forall k :: k in w'.vms[vm].unused ==> w'.vms[vm].unused[k].vmid == vm
  {}

  // ------------------------------------------------------------------- the publish

  /** The VM as it was, with the disk in the first of the slots 1..29 that was free. */
  ghost predicate FirstSlot(w: World, w': World, vm: nat, lun: nat, d: Disk) {
    && vm in w.vms && 1 <= lun < 30 && lun !in w.vms[vm].slots && (forall l :: 1 <= l < lun ==> l in w.vms[vm].slots)
    && w'.vms == w.vms[vm := w.vms[vm].(slots := w.vms[vm].slots[lun := d])]
  }

  ghost predicate Full(w: World, vm: nat) {
    vm in w.vms && forall l :: 1 <= l < 30 ==> l in w.vms[vm].slots
  }

  /** The rename to the VM is due, and no slot is in its way. */
  ghost predicate Renames(w: World, vm: nat, d: Disk) { d.vmid != vm && !Attached(w, d.suffix) }

  lemma MayRename(w: World, home: nat, vm: nat, d: Disk)
    requires WorldInv(w, home) && d in w.content && d.vmid != vm
    ensures CanRename(w, d, vm) <==> Renames(w, vm, d)
  {
    if Attached(w, d.suffix) {
      var v, l :| v in w.vms && Holds(w.vms[v], l, d.suffix);
      assert w.vms[v].slots[l] in w.content;
      assert w.vms[v].slots[l] == d;
    } else if Referenced(w, d) {
      var v, l :| v in w.vms && l in w.vms[v].slots && w.vms[v].slots[l] == d;
      assert Holds(w.vms[v], l, d.suffix);
    }
    assert Disk(vm, d.suffix) !in w.content;
  }

  /** The name the attach goes on with. */
  ghost function Named(w: World, vm: nat, d: Disk, ans: Answer): Disk {
    if Renames(w, vm, d) && ans == Fine then Disk(vm, d.suffix) else d
  }

  lemma TriesRename(s: State, id: nat, op: Op, d: Disk, ans: Answer) returns (w: World)
    requires Inv(s) && id !in s.ops && Ready(s, id, op, true, op.vm, op.handle, d) && op.vm in s.world.vms
    requires d in s.world.content && d.suffix == op.handle.suffix
    ensures Comes(s, id, w, op.(disk := Named(s.world, op.vm, d, ans), pc := ReadSlots)) && w.vms == s.world.vms
    ensures w.content == if Renames(s.world, op.vm, d) && ans != Refused
      then Rename(s.world, d, op.vm).content else s.world.content
  {
    hide Comes;
    hide Renames;
    w := s.world;
    if d.vmid != op.vm {
      MayRename(w, s.home, op.vm, d);
      hide Inv;
      hide CanRename;
      Calls(s, id, w, op, ans, 0);
      if Renames(w, op.vm, d) && ans != Refused { w := Rename(w, d, op.vm); }
    } else {
      assert !Renames(w, op.vm, d) by { NoRename(w, op.vm, d); }
    }
  }

  lemma NoRename(w: World, vm: nat, d: Disk)
    requires d.vmid == vm
    ensures !Renames(w, vm, d)
  {}

  lemma Attaches(s: State, id: nat, w: World, op: Op) returns (w': World, op': Op)
    requires Comes(s, id, w, op) && id !in s.ops && op.pc.ReadSlots? && op.vm in w.vms
    requires !HasSlot(w.vms[op.vm], op.handle.suffix)
    ensures Comes(s, id, w', op') && op'.pc.Done? && w'.content == w.content
    ensures op'.pc.outcome.Published? <==> !Full(w, op.vm) && op.disk in w.content
    ensures if op'.pc.outcome.Published? then FirstSlot(w, w', op.vm, op'.pc.outcome.lun, op.disk)
      else op'.pc.outcome.Failed? && w' == w
  {
    hide Comes;
    var lun := FirstFree(w.vms[op.vm], 1);
    Calls(s, id, w, op, Fine, 0);
    if lun == 30 {
      w', op' := w, op.(pc := Done(Failed));
    } else {
      var op1 := op.(pc := Attaching(lun));
      Calls(s, id, w, op1, Fine, 0);
      if op.disk in w.content {
        w' := SetConfig(w, op.vm, w.vms[op.vm].(slots := w.vms[op.vm].slots[lun := op.disk]));
        op' := op.(pc := Done(Published(lun)));
      } else {
        w', op' := w, op.(pc := Done(Failed));
      }
    }
  }

  lemma AlreadyThere(s: State, id: nat, w: World, op: Op, lun: nat) returns (op': Op)
    requires Comes(s, id, w, op) && id !in s.ops && op.pc.ReadSlots? && op.vm in w.vms
    requires Holds(w.vms[op.vm], lun, op.handle.suffix)
    ensures Comes(s, id, w, op') && op'.pc == Done(Published(lun))
  {
    hide Comes;
    Calls(s, id, w, op, Fine, lun);
    op' := op.(pc := Done(Published(lun)));
  }

  /** A publish of a stored volume that is left alone. On a VM that has the volume it answers with
      that slot, and nothing changes. Otherwise it takes the first free slot for the disk, which
      bears the VM's vmid if it did, or if it could be renamed and the rename was answered. It
      fails exactly when there is no free slot, or when the rename was carried out and its answer
      lost: the name it goes on with is then no disk's. */
  lemma PublishDone(s: State, id: nat, vm: nat, handle: Disk, d: Disk, ans: Answer) returns (w: World, op: Op)
    requires Inv(s) && id !in s.ops && vm in s.world.vms && vm != s.home && vm !in s.locks
    requires d in s.world.content && d.suffix == handle.suffix
    ensures Comes(s, id, w, op) && op.pc.Done? && (op.pc.outcome.Published? || op.pc.outcome.Failed?)
    ensures var c, r := s.world.vms[vm], op.pc.outcome;
      if HasSlot(c, handle.suffix) then r.Published? && Holds(c, r.lun, handle.suffix) && w.vms == s.world.vms
      else
        && (r.Failed? <==> Full(s.world, vm) || (Renames(s.world, vm, d) && ans == Lost))
        && (r.Failed? ==> w.vms == s.world.vms)
        && (r.Published? ==> FirstSlot(s.world, w, vm, r.lun, Named(s.world, vm, d, ans)))
    ensures w.content == if Renames(s.world, vm, d) && ans != Refused
      then Rename(s.world, d, vm).content else s.world.content
  {
    hide Comes;
    hide Full;
    hide FirstSlot;
    var x := handle.suffix;
    op := Finds(s, id, true, vm, handle, d);
    w := TriesRename(s, id, op, d, ans);
    assert WorldInv(s.world, s.home);
    hide Inv;
    NamedStored(s.world, s.home, vm, d, ans);
    op := op.(disk := Named(s.world, vm, d, ans), pc := ReadSlots);
    hide Renames;
    hide Named;
    if HasSlot(s.world.vms[vm], x) {
      var l :| l in s.world.vms[vm].slots && s.world.vms[vm].slots[l].suffix == x;
      op := AlreadyThere(s, id, w, op, l);
    } else {
      var w1 := w;
      w, op := Attaches(s, id, w1, op);
      SlotOfSame(s.world, w1, w, vm, op);
    }
  }

  lemma NamedStored(w: World, home: nat, vm: nat, d: Disk, ans: Answer)
    requires WorldInv(w, home) && d in w.content
    ensures var content := if Renames(w, vm, d) && ans != Refused then Rename(w, d, vm).content else w.content;
      Named(w, vm, d, ans) in content <==> !(Renames(w, vm, d) && ans == Lost)
  {}

  lemma SlotOfSame(w: World, w1: World, w2: World, vm: nat, op: Op)
    requires w1.vms == w.vms && op.pc.Done?
    ensures Full(w1, vm) <==> Full(w, vm)
    ensures op.pc.outcome.Published? ==>
      forall d :: FirstSlot(w1, w2, vm, op.pc.outcome.lun, d) ==> FirstSlot(w, w2, vm, op.pc.outcome.lun, d)
  {}
}

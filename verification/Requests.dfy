/** Migration requests on a claim: reconcilePVC and the three controllers that stamp requests
    (pkg/controller/migration/controller.go). The claim is an object whose annotations the
    calls patch; what the API server, Proxmox and Migrate answer is input.

    The controllers are goroutines of their own. A stamper's decision, the reading its patch is
    folded against and the patch itself are three API calls, a write of reconcilePVC is two,
    and the other controllers' calls come in between. */
module Requests {
  import opened Strings
  import opened Decimal
  import opened Annotations

  const FAILED := "Failed"
  const COMPLETED := "Completed"
  const SKIPPED := "Skipped"
  const PENDING := "Pending"
  const DRAINING := "Draining"
  const MOVING := "Moving"
  const REWIRING := "Rewiring"

  /** strconv.Atoi with its error ignored: 0 for no number, the nearest bound out of range. */
  function Atoi(s: string): (n: int)
    ensures MIN_INT64 <= n <= MAX_INT64
  {
    var neg := HasPrefix(s, "-");
    var body := if neg || HasPrefix(s, "+") then s[1..] else s;
    if body == [] || !AllDigits(body) then 0
    else
      var magnitude: int := ParseNat(body);
      if neg then (if -magnitude < MIN_INT64 then MIN_INT64 else -magnitude)
      else if magnitude > MAX_INT64 then MAX_INT64 else magnitude
  }

  lemma AtoiPrint(n: int)
    requires MIN_INT64 <= n <= MAX_INT64
    ensures Atoi(Print(n)) == n && Print(n) != ""
  {
    ParsePrint(n);
  }

  /** How Migrate ended: the claim recreated, one of its sentinel errors, another error, or
      the controller gone in the middle of it. */
  datatype Fate = Recreated | AlreadyOnTarget | SharedStorage | InvalidTarget | InUse | Error | Crashed

  /** One API call of a stamping worker, or an edit of annotations that are not the protocol's:
      the worker reads the claim and decides, reads it again to fold its patch, and patches. */
  datatype Call =
    | Look(id: nat, reactive: bool)
    | Fetch(id: nat, zone: string, storage: string, force: bool)
    | Land(id: nat, fails: bool)
    | Edit(patch: Patch)

  /** What a stamping worker has in hand: the decision to stamp, or the patch to send. */
  datatype Stamper = Looked(reactive: bool) | Holding(patch: Patch)

  type Hands = map<nat, Stamper>

  /** The calls that come before a write's reading, and between that and its patch. */
  datatype Gap = Gap(before: seq<Call>, during: seq<Call>) {
    predicate Empty() { before == [] && during == [] }
  }

  /** A phase Migrate reports. */
  datatype Stage = Stage(phase: string, gap: Gap)

  /** What one visit meets: the claim already on its target, pods using it, the pod listing or
      a patch failing, the phases Migrate reports, how it ends, and the others' calls. */
  datatype Visit = Visit(
    onTarget: bool, pods: bool, listFails: bool, patchFails: bool, lastPatchFails: bool,
    stages: seq<Stage>, startedAt: string, message: string, fate: Fate, claimLost: bool, gap: Gap, lastGap: Gap) {

    predicate Alone() { gap.Empty() && lastGap.Empty() && forall i :: 0 <= i < |stages| ==> stages[i].gap.Empty() }

    predicate Legal() { forall i :: 0 <= i < |stages| ==> stages[i].phase in {DRAINING, MOVING, REWIRING} }
  }

  datatype Outcome = Quiet | Finished | GaveUp | Retry

  function Ends(f: Fate): Outcome {
    match f
    case Recreated => Finished
    case AlreadyOnTarget => Finished
    case SharedStorage => Finished
    case InvalidTarget => GaveUp
    case InUse => GaveUp
    case Error => Retry
    case Crashed => Retry
  }

  function Count(a: Notes): string { Get(a, Canonical(MigrateAttempts)) }

  function Attempts(a: Notes): int { Atoi(Count(a)) }

  function Message(a: Notes): string { Get(a, Canonical(MigrateMessage)) }

  function StartedAt(a: Notes): string { Get(a, Canonical(MigrateStartedAt)) }

  function Target(a: Notes): string { Get(a, Canonical(MigrateNode)) }

  function Phase(a: Notes): string { Get(a, Canonical(MigratePhase)) }

  /** A request that has failed for good: still readable, and marked. */
  predicate HasFailed(a: Notes) { Target(a) != "" && Phase(a) == FAILED }

  /** A request reconcilePVC goes on with. */
  predicate IsLive(a: Notes) { Target(a) != "" && Phase(a) != FAILED }

  /** A visit that comes to Migrate. */
  predicate Migrates(a: Notes, v: Visit, max: int) {
    && IsLive(a) && !v.onTarget && !v.listFails && (v.pods ==> Get(a, Canonical(MigrateForce)) == "true")
    && Attempts(a) < max && !v.patchFails
  }

  /** migrationInFlight. */
  predicate InFlight(a: Notes) { Target(a) != "" || Phase(a) in {PENDING, DRAINING, MOVING, REWIRING} }

  /** A request for a zone: its storage and force if given, and otherwise as they were. */
  predicate Stamped(was: Notes, zone: string, storage: string, force: bool, now: Notes) {
    && Target(now) == zone
    && Get(now, Canonical(MigrateStorage)) == (if storage != "" then storage else Get(was, Canonical(MigrateStorage)))
    && Get(now, Canonical(MigrateForce)) == (if force then "true" else Get(was, Canonical(MigrateForce)))
  }

  // ------------------------------------------------------------------ patches

  function FailPatch(message: string): Patch {
    map[Canonical(MigratePhase) := Some(FAILED), Canonical(MigrateMessage) := Some(message)]
  }

  function ConsumePatch(phase: string, message: Option<string>): Patch {
    var p: Patch := map[
      Canonical(MigrateNode) := None, Canonical(MigrateForce) := None, Canonical(MigrateStorage) := None,
      Canonical(MigratePhase) := Some(phase)];
    if message.Some? then p[Canonical(MigrateMessage) := message] else p
  }

  /** One more attempt than the claim had when it was read. */
  function CountPatch(seen: Notes, startedAt: string): Patch {
    var p: Patch := map[
      Canonical(MigratePhase) := Some(PENDING), Canonical(MigrateAttempts) := Some(Print(Attempts(seen) + 1)),
      Canonical(MigrateMessage) := None];
    if Get(seen, Canonical(MigrateStartedAt)) == "" then p[Canonical(MigrateStartedAt) := Some(startedAt)] else p
  }

  function StampPatch(zone: string, storage: string, force: bool): Patch {
    var p: Patch := map[Canonical(MigrateNode) := Some(zone)];
    var p := if storage != "" then p[Canonical(MigrateStorage) := Some(storage)] else p;
    if force then p[Canonical(MigrateForce) := Some("true")] else p
  }

  /** The controllers' patches name keys of the present namespace. */
  predicate Spelled(p: Patch) { forall k :: k in p ==> k.Canonical? }

  /** The patch leaves a key alone, under both spellings. */
  predicate Spares(p: Patch, n: Name) { Canonical(n) !in p && Legacy(n) !in p }

  lemma SparedReads(a: Notes, p: Patch, n: Name)
    requires Spares(p, n)
    ensures Get(Write(a, p), Canonical(n)) == Get(a, Canonical(n))
  {
    UnnamedReadsTheSame(a, p, Canonical(n));
  }

  /** A write folded against these annotations writes this key out. */
  predicate Folds(a: Notes, n: Name) { Legacy(n) in a && Get(a, Canonical(n)) != "" }

  /** A patch folded against one reading of the claim and applied to a later one: each key is
      as patched, else back as it was read if the fold wrote it out, else as it is by then. */
  lemma StaleWrite(read: Notes, now: Notes, p: Patch, n: Name)
    requires Spelled(p)
    ensures var c, l := Canonical(n), Legacy(n);
      Get(Apply(now, Normalized(read, p)), c) ==
        if Patched(p, c) != "" then Patched(p, c)
        else if c !in p && Folds(read, n) then Get(read, c)
        else if l in read then (if c in p then "" else Value(now, c))
        else if c in p then Value(now, l) else Get(now, c)
    ensures Legacy(n) in Apply(now, Normalized(read, p)) <==> Legacy(n) in now && Legacy(n) !in read
  {
    NormalizedSays(read, p, Canonical(n));
    NormalizedSays(read, p, Legacy(n));
  }

  // ---------------------------------------------------------------- stampers

  /** reconcileNode and reconcileFollow look for a request, evaluateReactivePVC for a migration
      under way too; a zone is given for a claim that qualifies in every other way. */
  function Met(notes: Notes, hands: Hands, gone: bool, call: Call): (Notes, Hands) {
    match call
    case Look(id, reactive) =>
      if gone || (if reactive then InFlight(notes) else Target(notes) != "") then (notes, hands - {id})
      else (notes, hands[id := Looked(reactive)])
    case Fetch(id, zone, storage, force) =>
      if id !in hands || !hands[id].Looked? || zone == "" then (notes, hands)
      else if gone then (notes, hands - {id})
      else
        var p := StampPatch(zone, storage, force || hands[id].reactive);
        (notes, hands[id := Holding(Normalized(notes, p))])
    case Land(id, fails) =>
      if id !in hands || !hands[id].Holding? then (notes, hands)
      else (if gone || fails then notes else Apply(notes, hands[id].patch), hands - {id})
    case Edit(p) => if forall k :: k in p ==> k.Other? then (Apply(notes, p), hands) else (notes, hands)
  }

  // --------------------------------------------------------------- invariants

  /** Landing the patch leaves the key reading as it does. */
  predicate Neutral(q: Patch, a: Notes, n: Name) {
    if Canonical(n) in q then q[Canonical(n)] == Some(Get(a, Canonical(n)))
    else Legacy(n) in q ==> Value(a, Legacy(n)) == ""
  }

  /** A stamper's folded patch, however old, for a claim that reads like this. */
  ghost predicate Harmless(q: Patch, a: Notes) {
    && Patched(q, Canonical(MigrateNode)) != ""
    && (forall n :: Legacy(n) in a ==> Legacy(n) in q) && (forall n :: Legacy(n) in q ==> q[Legacy(n)].None?)
    && Neutral(q, a, MigratePhase) && Neutral(q, a, MigrateAttempts)
  }

  ghost predicate AllHarmless(a: Notes, hands: Hands) {
    forall id :: id in hands && hands[id].Holding? ==> Harmless(hands[id].patch, a)
  }

  /** No stamper holds an old value of the key, and none will. */
  ghost predicate Open(a: Notes, hands: Hands, n: Name) {
    && (forall id :: id in hands && hands[id].Holding? ==> Canonical(n) !in hands[id].patch)
    && (Folds(a, n) ==> hands == map[] && Target(a) != "")
  }

  /** What every call keeps. */
  ghost predicate Sound(a: Notes, hands: Hands, max: int) {
    && AllHarmless(a, hands)
    && (Phase(a) == FAILED ||
        (Open(a, hands, MigratePhase) && (Open(a, hands, MigrateAttempts) || Attempts(a) >= max)))
  }

  /** The claim as the others' calls leave it, for one in the middle of a visit. */
  ghost predicate Kept(a: Notes, b: Notes) {
    && Phase(b) == Phase(a) && Count(b) == Count(a) && (Target(a) != "" ==> Target(b) != "")
    && (forall n :: Legacy(n) in b ==> Legacy(n) in a)
  }

  lemma FetchedIsHarmless(a: Notes, zone: string, storage: string, force: bool)
    requires zone != ""
    ensures var q := Normalized(a, StampPatch(zone, storage, force));
      && Harmless(q, a)
      && (Canonical(MigratePhase) in q <==> Folds(a, MigratePhase))
      && (Canonical(MigrateAttempts) in q <==> Folds(a, MigrateAttempts))
  {
    var p := StampPatch(zone, storage, force);
    var q := Normalized(a, p);
    forall n: Name ensures (Legacy(n) in q <==> Legacy(n) in a) && (Legacy(n) in q ==> q[Legacy(n)].None?) {
      NormalizedSays(a, p, Legacy(n));
    }
    NormalizedSays(a, p, Canonical(MigrateNode));
    NormalizedSays(a, p, Canonical(MigratePhase));
    NormalizedSays(a, p, Canonical(MigrateAttempts));
  }

  lemma LandedReads(a: Notes, q: Patch)
    requires Harmless(q, a)
    ensures var b := Apply(a, q);
      && Phase(b) == Phase(a) && Count(b) == Count(a)
      && Target(b) == Patched(q, Canonical(MigrateNode)) && forall n :: Legacy(n) !in b
  {
    var b := Apply(a, q);
    forall n: Name ensures Legacy(n) !in b {}
    forall n: Name ensures Value(b, Legacy(n)) == "" { assert Legacy(n) !in b; }
  }

  /** With the key reading as before and no legacy key left, or the same ones. */
  lemma StaysHarmless(q: Patch, a: Notes, b: Notes)
    requires Harmless(q, a)
    requires forall n :: Legacy(n) in b ==> Legacy(n) in a && b[Legacy(n)] == a[Legacy(n)]
    requires Canonical(MigratePhase) in q ==> Phase(b) == Phase(a)
    requires Canonical(MigrateAttempts) in q ==> Count(b) == Count(a)
    ensures Harmless(q, b)
  {}

  lemma FetchKeeps(a: Notes, hands: Hands, max: int, call: Call)
    requires Sound(a, hands, max) && call.Fetch? && call.id in hands && hands[call.id].Looked? && call.zone != ""
    ensures Sound(a, Met(a, hands, false, call).1, max)
  {
    FetchedIsHarmless(a, call.zone, call.storage, call.force || hands[call.id].reactive);
    hide Harmless;
    hide Normalized;
    hide Atoi;
  }

  lemma LandKeeps(a: Notes, hands: Hands, max: int, id: nat)
    requires Sound(a, hands, max) && id in hands && hands[id].Holding?
    ensures var b := Apply(a, hands[id].patch); Sound(b, hands - {id}, max) && Kept(a, b)
  {
    var b := Apply(a, hands[id].patch);
    LandedReads(a, hands[id].patch);
    forall i | i in hands && hands[i].Holding? ensures Harmless(hands[i].patch, b) {
      StaysHarmless(hands[i].patch, a, b);
    }
    hide Harmless;
    hide Apply;
    hide Atoi;
  }

  lemma EditKeeps(a: Notes, hands: Hands, max: int, p: Patch)
    requires Sound(a, hands, max) && forall k :: k in p ==> k.Other?
    ensures Sound(Apply(a, p), hands, max) && Kept(a, Apply(a, p))
  {
    hide Atoi;
    var b := Apply(a, p);
    assert forall k: Key :: !k.Other? ==> (k in b <==> k in a) && Value(b, k) == Value(a, k);
    assert forall n: Name :: Get(b, Canonical(n)) == Get(a, Canonical(n));
    forall i | i in hands && hands[i].Holding? ensures Harmless(hands[i].patch, b) {
      StaysHarmless(hands[i].patch, a, b);
    }
  }

  /** The others' calls, whatever they were decided on, leave phase and attempts as they are. */
  lemma MetKeeps(a: Notes, hands: Hands, gone: bool, max: int, call: Call)
    requires Sound(a, hands, max)
    ensures var (b, h) := Met(a, hands, gone, call); Sound(b, h, max) && Kept(a, b)
  {
    if call.Fetch? && call.id in hands && hands[call.id].Looked? && call.zone != "" && !gone {
      FetchKeeps(a, hands, max, call);
    } else if call.Land? && call.id in hands && hands[call.id].Holding? {
      LandKeeps(a, hands, max, call.id);
    } else if call.Edit? && forall k :: k in call.patch ==> k.Other? {
      EditKeeps(a, hands, max, call.patch);
    }
    hide Harmless;
    hide Apply;
    hide Normalized;
    hide Atoi;
  }

  // -------------------------------------------------------- writes of a visit

  /** A write reconcilePVC makes: it names a phase, counts below max, and consumes the target. */
  predicate Proper(p: Patch, a: Notes, max: int) {
    && Spelled(p)
    && (Canonical(MigratePhase) in p ==> Patched(p, Canonical(MigratePhase)) != "")
    && (Canonical(MigrateAttempts) in p ==> Patched(p, Canonical(MigrateAttempts)) != "" && Attempts(a) < max)
    && (Canonical(MigrateNode) in p ==> Patched(p, Canonical(MigrateNode)) == "")
  }

  /** What the write leaves of the request. */
  predicate Written(p: Patch, a: Notes, b: Notes) {
    && Phase(b) == (if Canonical(MigratePhase) in p then Patched(p, Canonical(MigratePhase)) else Phase(a))
    && Count(b) == (if Canonical(MigrateAttempts) in p then Patched(p, Canonical(MigrateAttempts)) else Count(a))
    && (if Canonical(MigrateNode) in p then Target(b) == "" else Target(a) != "" ==> Target(b) != "")
  }

  lemma WrittenReads(read: Notes, now: Notes, p: Patch, max: int)
    requires Proper(p, now, max) && Kept(read, now)
    ensures var b := Apply(now, Normalized(read, p)); Written(p, read, b) && forall n :: Legacy(n) !in b
  {
    var b := Apply(now, Normalized(read, p));
    forall n: Name ensures Legacy(n) !in b { StaleWrite(read, now, p, n); }
    StaleWrite(read, now, p, MigratePhase);
    StaleWrite(read, now, p, MigrateAttempts);
    StaleWrite(read, now, p, MigrateNode);
    hide Apply;
    hide Normalized;
    hide Atoi;
  }

  /** A write folded before the others' latest calls still does what it is for. */
  lemma WriteKeeps(read: Notes, now: Notes, hands: Hands, p: Patch, max: int)
    requires Sound(now, hands, max) && Proper(p, now, max) && Kept(read, now) && Phase(now) != FAILED
    ensures var b := Apply(now, Normalized(read, p)); Written(p, read, b) && Sound(b, hands, max)
  {
    var b := Apply(now, Normalized(read, p));
    WrittenReads(read, now, p, max);
    hide Apply;
    hide Normalized;
    hide Atoi;
    forall i | i in hands && hands[i].Holding? ensures Harmless(hands[i].patch, b) {
      StaysHarmless(hands[i].patch, now, b);
    }
    hide Harmless;
  }

  /** The same with nobody in between, from any claim. */
  lemma WriteAlone(a: Notes, p: Patch, max: int)
    requires Proper(p, a, max)
    ensures Written(p, a, Write(a, p)) && (Canonical(MigrateNode) !in p ==> Target(Write(a, p)) == Target(a))
  {
    WrittenReads(a, a, p, max);
    if Canonical(MigrateNode) !in p { SparedReads(a, p, MigrateNode); }
  }

  lemma ProperKept(p: Patch, a: Notes, b: Notes, max: int)
    requires Proper(p, a, max) && Kept(a, b)
    ensures Proper(p, b, max)
  {}

  lemma WrittenKept(p: Patch, a: Notes, b: Notes, c: Notes)
    requires Written(p, b, c) && Kept(a, b)
    ensures Written(p, a, c)
  {}

  /** Nobody comes in between, or nobody can do harm. */
  ghost predicate Calm(gap: Gap, a: Notes, hands: Hands, max: int) {
    gap.Empty() || (Sound(a, hands, max) && Phase(a) != FAILED)
  }

  class Claim {
    var notes: Notes
    var hands: Hands      // what the stamping workers have in hand
    var starts: nat       // Migrate calls so far
    var gone: bool        // deleted, or replaced by another object of its name

    /** One call of another worker. */
    method Meet(call: Call)
      modifies `notes, `hands
      ensures (notes, hands) == Met(old(notes), old(hands), gone, call)
    {
      match call
      case Look(id, reactive) =>
        if gone || (if reactive then InFlight(notes) else Target(notes) != "") {
          hands := hands - {id};
        } else {
          hands := hands[id := Looked(reactive)];
        }
      case Fetch(id, zone, storage, force) =>
        if id in hands && hands[id].Looked? && zone != "" {
          if gone {
            hands := hands - {id};
          } else {
            var q := NormalizeLegacy(notes, StampPatch(zone, storage, force || hands[id].reactive));
            hands := hands[id := Holding(q)];
          }
        }
      case Land(id, fails) =>
        if id in hands && hands[id].Holding? {
          if !gone && !fails { notes := Apply(notes, hands[id].patch); }
          hands := hands - {id};
        }
      case Edit(p) =>
        if forall k :: k in p ==> k.Other? { notes := Apply(notes, p); }
    }

    method Meanwhile(calls: seq<Call>, ghost max: int)
      modifies `notes, `hands
      ensures calls == [] ==> notes == old(notes) && hands == old(hands)
      ensures Sound(old(notes), old(hands), max) ==> Sound(notes, hands, max) && Kept(old(notes), notes)
    {
      for i := 0 to |calls|
        invariant i == 0 ==> notes == old(notes) && hands == old(hands)
        invariant Sound(old(notes), old(hands), max) ==> Sound(notes, hands, max) && Kept(old(notes), notes)
      {
        hide Sound;
        hide Met;
        if Sound(old(notes), old(hands), max) { MetKeeps(notes, hands, gone, max, calls[i]); }
        Meet(calls[i]);
      }
    }

    /** patchPVCAnnotations: folded against a fresh reading, and sent. */
    method Patch(p: Patch, fails: bool, gap: Gap, ghost max: int)
      modifies `notes, `hands
      ensures gap.Empty() ==> hands == old(hands) && notes == if gone || fails then old(notes) else Write(old(notes), p)
      ensures Sound(old(notes), old(hands), max) && Proper(p, old(notes), max) && Phase(old(notes)) != FAILED ==>
        && Sound(notes, hands, max)
        && if gone || fails then Kept(old(notes), notes) else Written(p, old(notes), notes)
    {
      hide Sound;
      hide Proper;
      hide Written;
      Meanwhile(gap.before, max);
      ghost var read := notes;
      var q := NormalizeLegacy(notes, p);
      Meanwhile(gap.during, max);
      if Sound(old(notes), old(hands), max) && Proper(p, old(notes), max) && Phase(old(notes)) != FAILED
         && !gone && !fails {
        assert Proper(p, notes, max) by { ProperKept(p, old(notes), notes, max); }
        WriteKeeps(read, notes, hands, p, max);
        WrittenKept(p, old(notes), read, Apply(notes, q));
      }
      if !gone && !fails { notes := Apply(notes, q); }
    }

    /** failPVC. */
    method Fail(message: string, fails: bool, gap: Gap, ghost max: int)
      modifies `notes, `hands
      ensures Calm(gap, old(notes), old(hands), max) ==>
        && Count(notes) == Count(old(notes)) && (Target(old(notes)) != "" ==> Target(notes) != "")
        && (!gone && !fails ==> Phase(notes) == FAILED)
      ensures gap.Empty() && !gone && !fails ==> Message(notes) == message
      ensures gap.Empty() ==>
        Target(notes) == Target(old(notes)) && hands == old(hands) && (gone || fails ==> notes == old(notes))
      ensures Sound(old(notes), old(hands), max) && Phase(old(notes)) != FAILED ==> Sound(notes, hands, max)
    {
      hide Sound;
      hide Write;
      hide Atoi;
      hide Get;
      var p := FailPatch(message);
      WriteAlone(notes, p, max);
      NamedReadsAsPatched(notes, p, MigrateMessage);
      SparedReads(notes, p, MigrateNode);
      Patch(p, fails, gap, max);
    }

    /** The request consumed, the phase set. */
    method Consume(phase: string, message: Option<string>, fails: bool, gap: Gap, ghost max: int)
      requires phase != ""
      modifies `notes, `hands
      ensures Calm(gap, old(notes), old(hands), max) ==>
        Count(notes) == Count(old(notes)) && (!gone && !fails ==> Target(notes) == "" && Phase(notes) == phase)
      ensures gap.Empty() && !gone && !fails ==>
        && Get(notes, Canonical(MigrateForce)) == "" && Get(notes, Canonical(MigrateStorage)) == ""
        && Message(notes) == if message.Some? then message.value else Message(old(notes))
      ensures gap.Empty() ==> hands == old(hands) && (gone || fails ==> notes == old(notes))
      ensures Sound(old(notes), old(hands), max) && Phase(old(notes)) != FAILED ==> Sound(notes, hands, max)
    {
      hide Sound;
      hide Write;
      hide Atoi;
      hide Get;
      var p := ConsumePatch(phase, message);
      WriteAlone(notes, p, max);
      NamedReadsAsPatched(notes, p, MigrateForce);
      NamedReadsAsPatched(notes, p, MigrateStorage);
      if message.Some? {
        NamedReadsAsPatched(notes, p, MigrateMessage);
      } else {
        SparedReads(notes, p, MigrateMessage);
      }
      Patch(p, fails, gap, max);
    }

    /** The attempt is counted before Migrate is called. */
    method CountAttempt(startedAt: string, fails: bool, gap: Gap, ghost max: int)
      requires Attempts(notes) < max <= MAX_INT64
      modifies `notes, `hands
      ensures Calm(gap, old(notes), old(hands), max) ==>
        && (Target(old(notes)) != "" ==> Target(notes) != "")
        && (!gone && !fails ==> Attempts(notes) == Attempts(old(notes)) + 1 && Phase(notes) == PENDING)
        && (gone || fails ==> Count(notes) == Count(old(notes)) && Phase(notes) == Phase(old(notes)))
      ensures gap.Empty() ==>
        Target(notes) == Target(old(notes)) && hands == old(hands) && (gone || fails ==> notes == old(notes))
      ensures gap.Empty() && !gone && !fails ==>
        && Message(notes) == ""
        && StartedAt(notes) == if StartedAt(old(notes)) != "" then StartedAt(old(notes)) else startedAt
      ensures Sound(old(notes), old(hands), max) && Phase(old(notes)) != FAILED ==> Sound(notes, hands, max)
    {
      hide Sound;
      hide Write;
      hide Atoi;
      hide Get;
      hide Print;
      var p := CountPatch(notes, startedAt);
      NamedReadsAsPatched(notes, p, MigrateMessage);
      if StartedAt(notes) == "" {
        NamedReadsAsPatched(notes, p, MigrateStartedAt);
      } else {
        SparedReads(notes, p, MigrateStartedAt);
      }
      AtoiPrint(Attempts(notes) + 1);
      WriteAlone(notes, p, max);
      Patch(p, fails, gap, max);
    }

    /** A phase Migrate reports while it runs, or the error it ended with: a best-effort patch. */
    method Report(n: Name, text: string, fails: bool, gap: Gap, ghost max: int)
      requires n == MigrateMessage || (n == MigratePhase && text in {DRAINING, MOVING, REWIRING})
      modifies `notes, `hands
      ensures Calm(gap, old(notes), old(hands), max) ==>
        && Count(notes) == Count(old(notes)) && (Target(old(notes)) != "" ==> Target(notes) != "")
        && (n == MigrateMessage || gone || fails ==> Phase(notes) == Phase(old(notes)))
        && (Phase(old(notes)) != FAILED ==> Phase(notes) != FAILED)
      ensures gap.Empty() ==> Target(notes) == Target(old(notes)) && hands == old(hands)
      ensures gap.Empty() && !gone && !fails ==> Get(notes, Canonical(n)) == text
      ensures Sound(old(notes), old(hands), max) && Phase(old(notes)) != FAILED ==> Sound(notes, hands, max)
    {
      hide Sound;
      hide Write;
      hide Atoi;
      hide Get;
      var p := map[Canonical(n) := Some(text)];
      NamedReadsAsPatched(notes, p, n);
      WriteAlone(notes, p, max);
      Patch(p, fails, gap, max);
    }

    method ReportStages(v: Visit, ghost max: int)
      requires v.Legal()
      modifies `notes, `hands
      ensures Phase(old(notes)) != FAILED && (v.Alone() || Sound(old(notes), old(hands), max)) ==>
        && Count(notes) == Count(old(notes)) && Phase(notes) != FAILED
        && (Target(old(notes)) != "" ==> Target(notes) != "")
        && (v.stages == [] ==> Phase(notes) == Phase(old(notes)))
      ensures v.Alone() ==> Target(notes) == Target(old(notes)) && hands == old(hands)
      ensures Sound(old(notes), old(hands), max) && Phase(old(notes)) != FAILED ==> Sound(notes, hands, max)
    {
      hide Sound;
      hide Atoi;
      hide Get;
      for i := 0 to |v.stages|
        invariant Phase(old(notes)) != FAILED && (v.Alone() || Sound(old(notes), old(hands), max)) ==>
          && Count(notes) == Count(old(notes)) && Phase(notes) != FAILED
          && (Target(old(notes)) != "" ==> Target(notes) != "")
          && (i == 0 ==> Phase(notes) == Phase(old(notes)))
        invariant v.Alone() ==> Target(notes) == Target(old(notes)) && hands == old(hands)
        invariant Sound(old(notes), old(hands), max) && Phase(old(notes)) != FAILED ==> Sound(notes, hands, max)
      {
        Report(MigratePhase, v.stages[i].phase, v.lastPatchFails, v.stages[i].gap, max);
      }
    }

    /** What follows the counted attempt: the phases reported, and the error Migrate ends with. */
    method Settle(v: Visit, ghost max: int) returns (r: Outcome)
      requires v.Legal()
      modifies `notes, `hands, `gone
      ensures r == Ends(v.fate) && (old(gone) ==> gone)
      ensures IsLive(old(notes)) && (v.Alone() || Sound(old(notes), old(hands), max)) ==>
        && Count(notes) == Count(old(notes))
        && (r == GaveUp && !v.lastPatchFails && !gone ==> HasFailed(notes))
        && (r == Retry ==> Target(notes) != "" && Phase(notes) != FAILED)
        && (r == Retry && v.stages == [] ==> Phase(notes) == Phase(old(notes)))
        && (r == Finished && !v.lastPatchFails && !gone ==>
              Target(notes) == "" && Phase(notes) == if v.fate.SharedStorage? then SKIPPED else COMPLETED)
      ensures v.Alone() ==> hands == old(hands) && (r != Finished ==> Target(notes) == Target(old(notes)))
      ensures v.Alone() && !v.lastPatchFails && !gone && v.fate in {SharedStorage, InvalidTarget, InUse, Error} ==>
        Message(notes) == v.message
      ensures !v.claimLost && v.fate != Recreated ==> gone == old(gone)
      ensures Sound(old(notes), old(hands), max) && Phase(old(notes)) != FAILED ==> Sound(notes, hands, max)
    {
      hide Sound;
      hide Atoi;
      hide Get;
      ReportStages(v, max);
      if v.claimLost { gone := true; }
      r := Ends(v.fate);
      match v.fate
      case Recreated => gone := true;
      case AlreadyOnTarget => Consume(COMPLETED, None, v.lastPatchFails, v.lastGap, max);
      case SharedStorage => Consume(SKIPPED, Some(v.message), v.lastPatchFails, v.lastGap, max);
      case InvalidTarget => Fail(v.message, v.lastPatchFails, v.lastGap, max);
      case InUse => Fail(v.message, v.lastPatchFails, v.lastGap, max);
      case Error => Report(MigrateMessage, v.message, v.lastPatchFails, v.lastGap, max);
      case Crashed =>
    }

    /** reconcilePVC. Migrate is called at most once, only for a request that has not failed
        and has attempts left, and the attempt is on record first. What else holds of a visit
        nobody comes between holds of any visit of a sound claim, except that a request kept
        for a retry or failed may have been given another target by then. */
    method Reconcile(max: int, v: Visit) returns (r: Outcome)
      requires max <= MAX_INT64 && v.Legal()
      modifies this
      ensures starts == old(starts) + if !old(gone) && Migrates(old(notes), v, max) then 1 else 0
      ensures starts == old(starts) ==> gone == old(gone)
      ensures old(gone) ==> gone
      ensures !old(gone) && Migrates(old(notes), v, max) ==>
        r == Ends(v.fate) && (!v.claimLost && !v.fate.Recreated? ==> !gone)
      ensures old(gone) || !IsLive(old(notes)) ==> notes == old(notes) && hands == old(hands) && r == Quiet
      ensures !old(gone) && IsLive(old(notes)) && Attempts(old(notes)) >= max ==>
        r == (if v.onTarget then Finished else if v.listFails then Retry else GaveUp)
      ensures v.Alone() || Sound(old(notes), old(hands), max) ==>
        && (starts > old(starts) && !gone ==> Attempts(notes) == Attempts(old(notes)) + 1)
        && (starts == old(starts) ==> Attempts(notes) == Attempts(old(notes)))
        && (r == GaveUp && !v.lastPatchFails && !gone ==> HasFailed(notes))
        && (r == Retry ==> Target(notes) != "" && Phase(notes) != FAILED)
        && (r == Finished && !v.patchFails && !v.lastPatchFails && !gone ==> Target(notes) == "")
        && (r == Finished && !v.patchFails && !v.lastPatchFails && !gone ==>
              Phase(notes) == if !v.onTarget && v.fate.SharedStorage? then SKIPPED else COMPLETED)
      ensures v.Alone() ==> hands == old(hands) && (r != Finished ==> Target(notes) == Target(old(notes)))
      ensures v.Alone() && r == GaveUp && !v.lastPatchFails && !gone ==> Message(notes) == v.message
      ensures Sound(old(notes), old(hands), max) ==> Sound(notes, hands, max)
    {
      hide Sound;
      hide Atoi;
      hide Get;
      if gone || Target(notes) == "" || Phase(notes) == FAILED { return Quiet; }
      if v.onTarget {
        Consume(COMPLETED, None, v.patchFails, v.gap, max);
        return Finished;
      }
      if v.listFails { return Retry; }
      if v.pods && Get(notes, Canonical(MigrateForce)) != "true" {
        Fail(v.message, v.lastPatchFails, v.gap, max);
        return GaveUp;
      }
      if Attempts(notes) >= max {
        Fail(v.message, v.lastPatchFails, v.gap, max);
        return GaveUp;
      }
      if v.patchFails { return Retry; }
      CountAttempt(v.startedAt, false, v.gap, max);
      starts := starts + 1;
      r := Settle(v, max);
    }

    /** reconcileNode and reconcileFollow with nobody in between, for one claim that qualifies
        in every other way. */
    method Request(id: nat, zone: string, storage: string, force: bool, fails: bool)
      requires zone != ""
      modifies `notes, `hands
      ensures Target(old(notes)) != "" || gone || fails ==> notes == old(notes)
      ensures Target(old(notes)) == "" && !gone && !fails ==>
        Count(notes) == Count(old(notes)) && Stamped(old(notes), zone, storage, force, notes)
    {
      hide Normalized;
      hide Apply;
      hide Get;
      Meet(Look(id, false));
      Meet(Fetch(id, zone, storage, force));
      Meet(Land(id, fails));
      StampedReads(old(notes), zone, storage, force);
    }

    /** evaluateReactivePVC, likewise. */
    method React(id: nat, zone: string, storage: string, fails: bool)
      requires zone != ""
      modifies `notes, `hands
      ensures InFlight(old(notes)) || gone || fails ==> notes == old(notes)
      ensures !InFlight(old(notes)) && !gone && !fails ==>
        Count(notes) == Count(old(notes)) && Stamped(old(notes), zone, storage, true, notes)
    {
      hide Normalized;
      hide Apply;
      hide Get;
      Meet(Look(id, true));
      Meet(Fetch(id, zone, storage, false));
      Meet(Land(id, fails));
      StampedReads(old(notes), zone, storage, true);
    }
  }

  lemma StampedReads(a: Notes, zone: string, storage: string, force: bool)
    requires zone != ""
    ensures var b := Write(a, StampPatch(zone, storage, force));
      Count(b) == Count(a) && Stamped(a, zone, storage, force, b)
  {
    hide Write;
    hide Get;
    var p := StampPatch(zone, storage, force);
    SparedReads(a, p, MigrateAttempts);
    NamedReadsAsPatched(a, p, MigrateNode);
    if storage != "" { NamedReadsAsPatched(a, p, MigrateStorage); } else { SparedReads(a, p, MigrateStorage); }
    if force { NamedReadsAsPatched(a, p, MigrateForce); } else { SparedReads(a, p, MigrateForce); }
  }

  datatype Event = Visited(visit: Visit) | Called(call: Call)

  method Handle(c: Claim, max: int, e: Event)
    requires max <= MAX_INT64
    modifies c
    ensures c.starts != old(c.starts) ==> c.starts == old(c.starts) + 1 && !old(c.gone) && Attempts(old(c.notes)) < max
    ensures old(c.gone) ==> c.gone
    ensures Sound(old(c.notes), old(c.hands), max) ==>
      && Sound(c.notes, c.hands, max)
      && (c.starts == old(c.starts) ==> Attempts(c.notes) == Attempts(old(c.notes)))
      && (c.starts != old(c.starts) && !c.gone ==> Attempts(c.notes) == Attempts(old(c.notes)) + 1)
      && (HasFailed(old(c.notes)) ==> HasFailed(c.notes) && c.starts == old(c.starts))
  {
    hide Sound;
    hide Met;
    hide Get;
    hide Atoi;
    match e
    case Visited(v) => if v.Legal() { var _ := c.Reconcile(max, v); }
    case Called(call) =>
      if Sound(c.notes, c.hands, max) { MetKeeps(c.notes, c.hands, c.gone, max, call); }
      c.Meet(call);
  }

  /** Whatever the controllers do, call by call, in any order and with any failures, to a claim
      that is sound at the start: Migrate is called no more often than the attempts the claim had
      left, and a failed request stays failed with no further call. */
  method Serve(c: Claim, max: int, events: seq<Event>)
    requires max <= MAX_INT64
    modifies c
    ensures Sound(old(c.notes), old(c.hands), max) ==>
      && Sound(c.notes, c.hands, max)
      && (c.starts == old(c.starts) || c.starts - old(c.starts) <= max - Attempts(old(c.notes)))
      && (HasFailed(old(c.notes)) ==> HasFailed(c.notes) && c.starts == old(c.starts))
  {
    hide Sound;
    hide Atoi;
    hide Get;
    for i := 0 to |events|
      invariant c.starts >= old(c.starts)
      invariant Sound(old(c.notes), old(c.hands), max) ==>
        && Sound(c.notes, c.hands, max)
        && (!c.gone ==> Attempts(c.notes) == Attempts(old(c.notes)) + c.starts - old(c.starts))
        && (c.starts == old(c.starts) || c.starts - old(c.starts) <= max - Attempts(old(c.notes)))
        && (HasFailed(old(c.notes)) ==> HasFailed(c.notes) && c.starts == old(c.starts))
    {
      Handle(c, max, events[i]);
    }
  }

  /** A claim no worker has in hand is sound exactly when its request has failed already, or
      phase and attempts have no legacy spelling that a stamper could still read: there is a
      request to keep it away, or, for the attempts, none are left. */
  lemma SoundStart(a: Notes, max: int)
    ensures Sound(a, map[], max) <==>
      || Phase(a) == FAILED || Target(a) != ""
      || (!Folds(a, MigratePhase) && (!Folds(a, MigrateAttempts) || Attempts(a) >= max))
  {
    hide Atoi;
  }

  // ------------------------------------------------------- what a late patch does

  const NO_GAP := Gap([], [])

  /** A visit nobody comes between, with Migrate ending as given. */
  function Undisturbed(fate: Fate): (v: Visit)
    ensures v.Alone() && v.Legal()
  {
    Visit(false, false, false, false, false, [], "", "", fate, false, NO_GAP, NO_GAP)
  }

  /** One call, with what it does to a claim that is sound. */
  method Step(c: Claim, call: Call, ghost max: int)
    requires !c.gone
    modifies c`notes, c`hands
    ensures (c.notes, c.hands) == Met(old(c.notes), old(c.hands), false, call)
    ensures Sound(old(c.notes), old(c.hands), max) ==> Sound(c.notes, c.hands, max)
  {
    hide Sound;
    hide Met;
    if Sound(c.notes, c.hands, max) { MetKeeps(c.notes, c.hands, false, max, call); }
    c.Meet(call);
  }

  /** Two stampers decide while there is no request, and read the claim to fold their patches. */
  method TwoStampers(c: Claim, x: string, y: string, ghost max: int)
    requires !c.gone && c.hands == map[] && Target(c.notes) == "" && x != "" && y != ""
    modifies c`notes, c`hands
    ensures c.notes == old(c.notes)
    ensures c.hands == map[0 := Holding(Normalized(c.notes, StampPatch(x, "", false))),
                           1 := Holding(Normalized(c.notes, StampPatch(y, "", false)))]
    ensures Sound(old(c.notes), old(c.hands), max) ==> Sound(c.notes, c.hands, max)
  {
    hide Get;
    hide Normalized;
    hide Apply;
    hide Sound;
    hide StampPatch;
    Step(c, Look(0, false), max);
    Step(c, Look(1, false), max);
    assert c.hands == map[0 := Looked(false), 1 := Looked(false)];
    Step(c, Fetch(0, x, "", false), max);
    Step(c, Fetch(1, y, "", false), max);
  }

  /** The first one's patch lands. */
  method TwoStamps(c: Claim, x: string, y: string, ghost max: int)
    requires !c.gone && c.hands == map[] && Target(c.notes) == "" && x != "" && y != ""
    modifies c`notes, c`hands
    ensures c.hands == map[1 := Holding(Normalized(old(c.notes), StampPatch(y, "", false)))]
    ensures Target(c.notes) == x && Phase(c.notes) == Phase(old(c.notes)) && Count(c.notes) == Count(old(c.notes))
    ensures Sound(old(c.notes), old(c.hands), max) ==> Sound(c.notes, c.hands, max)
  {
    hide Get;
    hide Normalized;
    hide Apply;
    hide Sound;
    TwoStampers(c, x, y, max);
    Step(c, Land(0, false), max);
    assert c.hands == map[1 := Holding(Normalized(old(c.notes), StampPatch(y, "", false)))];
    StampedReads(old(c.notes), x, "", false);
    SparedReads(old(c.notes), StampPatch(x, "", false), MigratePhase);
  }

  /** A failed request is not out of reach of a stamper that read the claim before there was
      one: the target it failed for is overwritten, and it stays failed. */
  method LateTarget(c: Claim, max: int, x: string, y: string) returns (failed: Notes)
    requires max <= MAX_INT64 && Sound(c.notes, c.hands, max) && Phase(c.notes) != FAILED
    requires !c.gone && c.hands == map[] && Target(c.notes) == "" && x != "" && y != ""
    modifies c
    ensures HasFailed(failed) && Target(failed) == x
    ensures HasFailed(c.notes) && Target(c.notes) == y
  {
    hide Atoi;
    hide Get;
    hide Sound;
    hide Normalized;
    hide Apply;
    ghost var a, p := c.notes, StampPatch(y, "", false);
    TwoStamps(c, x, y, max);
    var _ := c.Reconcile(max, Undisturbed(InvalidTarget));
    failed := c.notes;
    MetKeeps(c.notes, c.hands, false, max, Land(1, false));
    StaleWrite(a, c.notes, p, MigrateNode);
    c.Meet(Land(1, false));
  }

  /** It does not, if the claim had its phase under the legacy spelling as well: the late patch
      puts the old phase back. */
  method LatePhase(c: Claim, max: int, x: string, y: string) returns (failed: Notes)
    requires max <= MAX_INT64 && Folds(c.notes, MigratePhase) && Phase(c.notes) != FAILED
    requires !c.gone && c.hands == map[] && Target(c.notes) == "" && x != "" && y != ""
    modifies c
    ensures HasFailed(failed) && Target(failed) == x
    ensures Target(c.notes) == y && Phase(c.notes) == Phase(old(c.notes)) != FAILED
  {
    hide Atoi;
    hide Get;
    hide Sound;
    hide Normalized;
    hide Apply;
    ghost var a, p := c.notes, StampPatch(y, "", false);
    TwoStamps(c, x, y, max);
    var _ := c.Reconcile(max, Undisturbed(InvalidTarget));
    failed := c.notes;
    StaleWrite(a, c.notes, p, MigrateNode);
    StaleWrite(a, c.notes, p, MigratePhase);
    c.Meet(Land(1, false));
  }

  /** Nor are the attempts kept, if they had a legacy spelling: Migrate is called once more
      than the claim had attempts left. */
  method LateAttempts(c: Claim, max: int, x: string, y: string)
    requires max <= MAX_INT64 && Folds(c.notes, MigrateAttempts) && Attempts(c.notes) < max && Phase(c.notes) != FAILED
    requires !c.gone && c.hands == map[] && Target(c.notes) == "" && x != "" && y != ""
    modifies c
    ensures c.starts - old(c.starts) == max - Attempts(old(c.notes)) + 1
  {
    hide Atoi;
    hide Sound;
    hide Normalized;
    hide Apply;
    ghost var a, p := c.notes, StampPatch(y, "", false);
    var left := max - Attempts(c.notes);
    TwoStamps(c, x, y, max);
    var _ := c.Reconcile(max, Undisturbed(Error));
    StaleWrite(a, c.notes, p, MigrateNode);
    StaleWrite(a, c.notes, p, MigratePhase);
    StaleWrite(a, c.notes, p, MigrateAttempts);
    c.Meet(Land(1, false));
    for i := 0 to left
      invariant !c.gone && IsLive(c.notes) && Attempts(c.notes) == max - left + i && c.starts == old(c.starts) + 1 + i
    {
      var _ := c.Reconcile(max, Undisturbed(Error));
    }
  }

  /** The claim the migrator itself recreates: the request is readable under neither
      namespace, before and after the phase is noted on it. */
  lemma CompletedHasNoRequest(a: Notes)
    ensures Target(Strip(a)) == "" && Attempts(Strip(a)) == 0
    ensures Target(Write(Strip(a), map[Canonical(MigratePhase) := Some(COMPLETED)])) == ""
  {
    StripLeavesNoRequest(a, Canonical(MigrateNode));
    StripLeavesNoRequest(a, Canonical(MigrateAttempts));
    SparedReads(Strip(a), map[Canonical(MigratePhase) := Some(COMPLETED)], MigrateNode);
  }
}

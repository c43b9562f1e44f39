/** The migration-protocol annotations under their two namespaces: dual read and folding
    writes (pkg/migrator/migrator.go), applied as a JSON Merge Patch (RFC 7396). */
module Annotations {
  import opened Strings

  /** The twelve protocol keys. */
  datatype Name =
    | Migrate | MigrateNode | MigrateForce | MigrateStorage | MigratePhase | MigrateMessage
    | MigrateAttempts | MigrateStartedAt | MigrateState | Evacuate | EvacuateForce | ReactiveEvacuation

  /** An annotation key: a protocol key under the present or the upstream prefix, or another. */
  datatype Key = Canonical(name: Name) | Legacy(name: Name) | Other(text: string)

  type Notes = map<Key, string>

  /** A merge patch: None deletes the key. */
  type Patch = map<Key, Option<string>>

  const NAMES: set<Name> := {
    Migrate, MigrateNode, MigrateForce, MigrateStorage, MigratePhase, MigrateMessage,
    MigrateAttempts, MigrateStartedAt, MigrateState, Evacuate, EvacuateForce, ReactiveEvacuation}

  lemma AllNames(n: Name)
    ensures n in NAMES
  {}

  function Value(a: Notes, k: Key): string { if k in a then a[k] else "" }

  /** GetAnnotation: the canonical key, or its legacy variant where that is absent or empty. */
  function Get(a: Notes, k: Key): string {
    if Value(a, k) != "" then Value(a, k)
    else if k.Canonical? then Value(a, Legacy(k.name))
    else ""
  }

  /** Section 2 of RFC 7396 on a flat object. */
  function Apply(a: Notes, p: Patch): Notes {
    map k | k in a.Keys + p.Keys && (k in p ==> p[k].Some?) :: if k in p then p[k].value else a[k]
  }

  /** What a normalized patch says of each key. */
  function Says(current: Notes, p: Patch, k: Key): Option<Option<string>> {
    if k in p then Some(p[k])
    else if k.Canonical? && Legacy(k.name) in current && Get(current, k) != "" then Some(Some(Get(current, k)))
    else if k.Legacy? && k in current then Some(None)
    else None
  }

  /** Every key a normalized patch can name. */
  function Touched(current: Notes, p: Patch): set<Key> {
    p.Keys + current.Keys + set x | x in current.Keys && x.Legacy? :: Canonical(x.name)
  }

  function Normalized(current: Notes, p: Patch): Patch {
    map k | k in Touched(current, p) && Says(current, p, k).Some? :: Says(current, p, k).value
  }

  lemma NormalizedSays(current: Notes, p: Patch, k: Key)
    ensures Says(current, p, k) == if k in Normalized(current, p) then Some(Normalized(current, p)[k]) else None
  {
    if Says(current, p, k).Some? && k.Canonical? && k !in p { assert Legacy(k.name) in current.Keys; }
  }

  /** The patch after the aliases of these names have been folded. */
  ghost predicate Folded(current: Notes, p: Patch, names: set<Name>, q: Patch) {
    forall k: Key :: (if k in q then Some(q[k]) else None) ==
      if k.Other? || k.name in names then Says(current, p, k) else if k in p then Some(p[k]) else None
  }

  lemma FoldOne(current: Notes, p: Patch, names: set<Name>, q: Patch, n: Name)
    requires Folded(current, p, names, q) && n !in names
    ensures Folded(current, p, names + {n}, Fold(current, q, n))
  {
    var q' := Fold(current, q, n);
    forall k: Key | !k.Other? && k.name != n ensures k in q' <==> k in q {}
  }

  function Fold(current: Notes, q: Patch, n: Name): Patch {
    if Legacy(n) !in current then q
    else
      var v := Get(current, Canonical(n));
      var q1 := if Canonical(n) !in q && v != "" then q[Canonical(n) := Some(v)] else q;
      if Legacy(n) !in q1 then q1[Legacy(n) := None] else q1
  }

  /** NormalizeLegacy visits the aliases in any order and edits the patch as it goes; what it
      returns is settled by the inputs alone. */
  method NormalizeLegacy(current: Notes, p: Patch) returns (q: Patch)
    ensures q == Normalized(current, p)
  {
    q := p;
    var todo := NAMES;
    while todo != {}
      invariant todo <= NAMES
      invariant Folded(current, p, NAMES - todo, q)
    {
      var n :| n in todo;
      FoldOne(current, p, NAMES - todo, q, n);
      assert NAMES - (todo - {n}) == NAMES - todo + {n};
      todo := todo - {n};
      if Legacy(n) in current {
        if Canonical(n) !in q {
          var v := Get(current, Canonical(n));
          if v != "" { q := q[Canonical(n) := Some(v)]; }
        }
        if Legacy(n) !in q { q := q[Legacy(n) := None]; }
      }
    }
    forall k: Key ensures (if k in q then Some(q[k]) else None) == Says(current, p, k) {
      if !k.Other? { AllNames(k.name); }
    }
    forall k: Key { NormalizedSays(current, p, k); }
    assert q.Keys == Normalized(current, p).Keys;
  }

  // ------------------------------------------------------------------ results

  function Patched(p: Patch, k: Key): string { if k in p && p[k].Some? then p[k].value else "" }

  function Write(current: Notes, p: Patch): Notes { Apply(current, Normalized(current, p)) }

  lemma WriteSays(current: Notes, p: Patch, k: Key)
    ensures Value(Write(current, p), k) ==
      match Says(current, p, k)
      case None => Value(current, k)
      case Some(None) => ""
      case Some(Some(v)) => v
    ensures k in Write(current, p) <==>
      match Says(current, p, k)
      case None => k in current
      case Some(o) => o.Some?
  {
    NormalizedSays(current, p, k);
  }

  /** A key the patch names under neither spelling reads as before. */
  lemma UnnamedReadsTheSame(current: Notes, p: Patch, k: Key)
    requires k !in p && (k.Canonical? ==> Legacy(k.name) !in p) && !k.Legacy?
    ensures Get(Write(current, p), k) == Get(current, k)
  {
    WriteSays(current, p, k);
    if k.Canonical? { WriteSays(current, p, Legacy(k.name)); }
  }

  /** A key the patch names reads as patched: a deleted or emptied one reads as whatever the
      patch itself puts under the legacy spelling, and so as nothing if it puts nothing there
      and the object carried it or not. */
  lemma NamedReadsAsPatched(current: Notes, p: Patch, n: Name)
    requires Canonical(n) in p
    ensures Get(Write(current, p), Canonical(n)) ==
      if Patched(p, Canonical(n)) != "" then Patched(p, Canonical(n)) else Patched(p, Legacy(n))
  {
    WriteSays(current, p, Canonical(n));
    WriteSays(current, p, Legacy(n));
  }

  /** A legacy key is left exactly where the patch itself writes one. */
  lemma LegacyIsGone(current: Notes, p: Patch, n: Name)
    ensures Legacy(n) in Write(current, p) <==> Legacy(n) in p && p[Legacy(n)].Some?
  {
    WriteSays(current, p, Legacy(n));
  }

  /** Normalizing a normalized patch changes nothing, and after a write there is nothing
      left to fold unless the patch wrote a legacy key. */
  lemma NormalizingIsIdempotent(current: Notes, p: Patch)
    ensures Normalized(current, Normalized(current, p)) == Normalized(current, p)
    ensures (Normalized(Write(current, p), map[]) == map[]) <==> forall n :: Legacy(n) in p ==> p[Legacy(n)].None?
  {
    var q := Normalized(current, p);
    var r := Normalized(current, q);
    forall k: Key ensures (k in r <==> k in q) && (k in r ==> r[k] == q[k]) {
      NormalizedSays(current, p, k);
      NormalizedSays(current, q, k);
    }
    assert r.Keys == q.Keys;
    var w := Write(current, p);
    var e := Normalized(w, map[]);
    forall n: Name ensures Legacy(n) in e <==> Legacy(n) in p && p[Legacy(n)].Some? {
      LegacyIsGone(current, p, n);
      NormalizedSays(w, map[], Legacy(n));
    }
    if forall n :: Legacy(n) in p ==> p[Legacy(n)].None? {
      forall k: Key ensures k !in e {
        NormalizedSays(w, map[], k);
        if k.Canonical? { LegacyIsGone(current, p, k.name); }
        if k.Legacy? { LegacyIsGone(current, p, k.name); }
      }
      assert e.Keys == {};
    }
  }

  // ------------------------------------------------------- the recreated claim

  const STRIPPED: set<Name> := {
    Migrate, MigrateNode, MigrateForce, MigrateStorage, MigratePhase, MigrateMessage,
    MigrateAttempts, MigrateStartedAt, MigrateState}

  /** migrationAnnotations deleted under both spellings. */
  function Strip(a: Notes): Notes {
    map k | k in a && (k.Other? || k.name !in STRIPPED) :: a[k]
  }

  /** A recreated object carries no request under either namespace, and every other
      annotation as it was. */
  lemma StripLeavesNoRequest(a: Notes, k: Key)
    requires k.Canonical?
    ensures Get(Strip(a), k) == if k.name in STRIPPED then "" else Get(a, k)
  {}
}

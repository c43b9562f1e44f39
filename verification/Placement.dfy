/** Target selection and the rebalance planner (pkg/migrator/placement.go). Headroom and
    thresholds are exact reals. */
module Placement {
  import opened Strings

  datatype ZoneCapacity = ZoneCapacity(zone: string, avail: int, total: int)

  const DEFAULT_HEADROOM := 0.15

  /** int64(float64(size) * (1 + headroom)), which truncates toward zero. */
  function Required(size: int, headroom: real): int {
    var h := if headroom < 0.0 then DEFAULT_HEADROOM else headroom;
    var x := size as real * (1.0 + h);
    if x >= 0.0 then x.Floor else -((-x).Floor)
  }

  lemma RequiredCovers(size: int, headroom: real)
    requires size >= 0
    ensures Required(size, headroom) >= size
  {
    var h := if headroom < 0.0 then DEFAULT_HEADROOM else headroom;
    assert size as real * h >= 0.0;
    assert size as real * (1.0 + h) == size as real + size as real * h;
  }

  /** The size and its headroom, cut to whole bytes; a negative headroom stands for the default. */
  lemma RequiredMeans(size: int, headroom: real)
    requires size >= 0
    ensures var h := if headroom < 0.0 then 0.15 else headroom;
      size as real * (1.0 + h) - 1.0 < Required(size, headroom) as real <= size as real * (1.0 + h)
  {
    var h := if headroom < 0.0 then DEFAULT_HEADROOM else headroom;
    assert size as real * h >= 0.0;
    assert size as real * (1.0 + h) == size as real + size as real * h;
  }

  // ------------------------------------------------------------ one storage

  predicate Fits(z: ZoneCapacity, exclude: seq<string>, required: int) {
    z.zone !in exclude && z.avail >= required && z.avail > 0
  }

  /** The first of the fitting zones with the most space. */
  predicate Winner(zones: seq<ZoneCapacity>, exclude: seq<string>, required: int, i: int) {
    && 0 <= i < |zones| && Fits(zones[i], exclude, required)
    && (forall j :: 0 <= j < |zones| && Fits(zones[j], exclude, required) ==> zones[j].avail <= zones[i].avail)
    && (forall j :: 0 <= j < i && Fits(zones[j], exclude, required) ==> zones[j].avail < zones[i].avail)
  }

  predicate Named(zones: seq<ZoneCapacity>) {
    forall i :: 0 <= i < |zones| ==> zones[i].zone != ""
  }

  method SelectTarget(zones: seq<ZoneCapacity>, exclude: seq<string>, size: int, headroom: real)
    returns (r: Option<string>)
    ensures r.Some? ==> exists i :: Winner(zones, exclude, Required(size, headroom), i) && r.value == zones[i].zone
    ensures r.None? ==>
      (forall i :: 0 <= i < |zones| ==> !Fits(zones[i], exclude, Required(size, headroom)))
      || exists i :: Winner(zones, exclude, Required(size, headroom), i) && zones[i].zone == ""
    ensures Named(zones) ==>
      (r.None? <==> forall i :: 0 <= i < |zones| ==> !Fits(zones[i], exclude, Required(size, headroom)))
  {
    var required := Required(size, headroom);
    var best := ZoneCapacity("", 0, 0);
    ghost var at := -1;
    for k := 0 to |zones|
      invariant -1 <= at < k
      invariant at == -1 ==>
        best == ZoneCapacity("", 0, 0) && forall j :: 0 <= j < k ==> !Fits(zones[j], exclude, required)
      invariant at >= 0 ==> best == zones[at] && Fits(best, exclude, required)
      invariant forall j :: 0 <= j < k && Fits(zones[j], exclude, required) ==>
        zones[j].avail <= best.avail && (j < at ==> zones[j].avail < best.avail)
    {
      var z := zones[k];
      if z.zone !in exclude && z.avail >= required && z.avail > best.avail {
        best := z;
        at := k;
      }
    }
    if at >= 0 { assert Winner(zones, exclude, required, at); }
    r := if best.zone == "" then None else Some(best.zone);
  }

  // ------------------------------------------------------------ all storages

  datatype Candidates = Candidates(capacities: map<string, seq<ZoneCapacity>>, fallback: string)

  /** One (storage, zone) pair. */
  datatype Pick = Pick(storage: string, index: nat)

  /** A volume to move: where it is, and how much room it needs. */
  datatype Need = Need(zone: string, storage: string, required: int)

  predicate Eligible(c: Candidates, n: Need, p: Pick) {
    && p.storage in c.capacities && p.index < |c.capacities[p.storage]|
    && Fits(c.capacities[p.storage][p.index], [n.zone], n.required)
  }

  /** The same storage, the default class's storage, any other. */
  function Tier(c: Candidates, n: Need, storage: string): nat {
    if storage == n.storage then 0 else if storage == c.fallback then 1 else 2
  }

  function Avail(c: Candidates, p: Pick): int
    requires p.storage in c.capacities && p.index < |c.capacities[p.storage]|
  {
    c.capacities[p.storage][p.index].avail
  }

  /** Tier, then free space, then storage name, then list position. */
  predicate Precedes(c: Candidates, n: Need, p: Pick, q: Pick)
    requires Eligible(c, n, p) && Eligible(c, n, q)
  {
    if Tier(c, n, p.storage) != Tier(c, n, q.storage) then Tier(c, n, p.storage) < Tier(c, n, q.storage)
    else if Avail(c, p) != Avail(c, q) then Avail(c, p) > Avail(c, q)
    else if p.storage != q.storage then Less(p.storage, q.storage)
    else p.index < q.index
  }

  predicate Beats(c: Candidates, n: Need, p: Pick, q: Pick) {
    Eligible(c, n, p) && (Eligible(c, n, q) && q != p ==> Precedes(c, n, p, q))
  }

  ghost predicate Best(c: Candidates, n: Need, p: Pick) {
    Eligible(c, n, p) && forall q :: Beats(c, n, p, q)
  }

  lemma BestIsUnique(c: Candidates, n: Need, p: Pick, q: Pick)
    requires Best(c, n, p) && Best(c, n, q)
    ensures p == q
  {
    if p != q {
      assert Beats(c, n, p, q) && Beats(c, n, q, p);
      LessTotal(p.storage, q.storage);
    }
  }

  /** Proxmox nodes and storages have names. */
  predicate WellNamed(c: Candidates) {
    "" !in c.capacities && forall s :: s in c.capacities ==> Named(c.capacities[s])
  }

  lemma WinnerIsBest(c: Candidates, n: Need, storage: string, i: int)
    requires storage in c.capacities && Winner(c.capacities[storage], [n.zone], n.required, i)
    requires Tier(c, n, storage) < 2
    requires forall q :: Eligible(c, n, q) ==> Tier(c, n, storage) <= Tier(c, n, q.storage)
    ensures Best(c, n, Pick(storage, i))
  {
    var p := Pick(storage, i);
    forall q ensures Beats(c, n, p, q) {
      if Eligible(c, n, q) && Tier(c, n, q.storage) == Tier(c, n, storage) {
        assert q.storage == storage;
        assert Fits(c.capacities[storage][q.index], [n.zone], n.required);
      }
    }
  }

  function Zones(c: Candidates, storage: string): seq<ZoneCapacity> {
    if storage in c.capacities then c.capacities[storage] else []
  }

  /** slices.Sorted(maps.Keys(m)). */
  method SortedKeys(keys: set<string>) returns (s: seq<string>)
    ensures forall k :: k in s <==> k in keys
    ensures forall i, j :: 0 <= i < j < |s| ==> Less(s[i], s[j])
  {
    var todo := keys;
    s := [];
    while todo != {}
      invariant forall k :: k in s <==> k in keys && k !in todo
      invariant todo <= keys
      invariant forall i, j :: 0 <= i < j < |s| ==> Less(s[i], s[j])
      invariant forall i, k :: 0 <= i < |s| && k in todo ==> Less(s[i], k)
    {
      var least := Least(todo);
      forall k | k in todo - {least} ensures Less(least, k) { LessTotal(least, k); }
      s := s + [least];
      todo := todo - {least};
    }
  }

  method Least(keys: set<string>) returns (least: string)
    requires keys != {}
    ensures least in keys && forall k :: k in keys ==> !Less(k, least)
  {
    least :| least in keys;
    var todo := keys - {least};
    LessTotal(least, least);
    while todo != {}
      invariant least in keys && todo <= keys
      invariant forall k :: k in keys && k !in todo ==> !Less(k, least)
    {
      var k :| k in todo;
      todo := todo - {k};
      if Less(k, least) {
        forall m | m in keys && m !in todo ensures !Less(m, k) {
          if Less(m, k) {
            LessTotal(m, k);
            LessTransitive(m, k, least);
          }
          LessTotal(k, k);
        }
        least := k;
      }
    }
  }

  /** The pairs of the last stage that the scan has passed when it is at zone j of name i. */
  predicate Passed(c: Candidates, n: Need, names: seq<string>, i: nat, j: nat, q: Pick)
    requires i <= |names|
  {
    && Eligible(c, n, q) && Tier(c, n, q.storage) == 2
    && (q.storage in names[..i] || (i < |names| && q.storage == names[i] && q.index < j))
  }

  /** The running best of the scan. */
  ghost predicate Leads(c: Candidates, n: Need, names: seq<string>, i: nat, j: nat, p: Pick)
    requires i <= |names|
  {
    Passed(c, n, names, i, j, p) && forall q :: Passed(c, n, names, i, j, q) ==> Beats(c, n, p, q)
  }

  lemma LeaderIsBest(c: Candidates, n: Need, names: seq<string>, p: Pick)
    requires Leads(c, n, names, |names|, 0, p) && forall s :: s in c.capacities ==> s in names
    requires forall q :: Eligible(c, n, q) ==> Tier(c, n, q.storage) == 2
    ensures Best(c, n, p)
  {
    forall q ensures Beats(c, n, p, q) {
      if Eligible(c, n, q) {
        assert names[..|names|] == names;
        assert Passed(c, n, names, |names|, 0, q);
      }
    }
  }

  /** A zone with strictly more space takes the lead. */
  lemma TakesLead(c: Candidates, n: Need, names: seq<string>, i: nat, j: nat, p: Pick)
    requires i < |names| && p == Pick(names[i], j) && Eligible(c, n, p) && Tier(c, n, p.storage) == 2
    requires forall q :: Passed(c, n, names, i, j, q) ==> Avail(c, q) < Avail(c, p)
    ensures Leads(c, n, names, i, j + 1, p)
  {
    forall q | Passed(c, n, names, i, j + 1, q) ensures Beats(c, n, p, q) {
      if q != p { assert Passed(c, n, names, i, j, q); }
    }
  }

  /** One with no more does not. */
  lemma KeepsLead(c: Candidates, n: Need, names: seq<string>, i: nat, j: nat, p: Pick, q: Pick)
    requires i < |names| && Leads(c, n, names, i, j, p) && q == Pick(names[i], j)
    requires Eligible(c, n, q) && Tier(c, n, q.storage) == 2 ==> Avail(c, q) <= Avail(c, p)
    requires forall a, b :: 0 <= a < b < |names| ==> Less(names[a], names[b])
    ensures Leads(c, n, names, i, j + 1, p)
  {
    forall x | Passed(c, n, names, i, j + 1, x) ensures Beats(c, n, p, x) {
      if x != q { assert Passed(c, n, names, i, j, x); }
    }
  }

  lemma NextName(c: Candidates, n: Need, names: seq<string>, i: nat, j: nat, q: Pick)
    requires i < |names| && (Tier(c, n, names[i]) != 2 || (names[i] in c.capacities && j == |c.capacities[names[i]]|))
    ensures Passed(c, n, names, i + 1, 0, q) <==> Passed(c, n, names, i, j, q)
  {
    assert names[..i + 1] == names[..i] + [names[i]];
  }

  predicate Describes(c: Candidates, p: Pick, zone: string, storage: string, avail: int) {
    && p.storage == storage && storage in c.capacities && p.index < |c.capacities[storage]|
    && c.capacities[storage][p.index].zone == zone && c.capacities[storage][p.index].avail == avail
  }

  /** The scan's variables: nothing passed fits, or they describe the leader. */
  ghost predicate Scanned(c: Candidates, n: Need, names: seq<string>, i: nat, j: nat,
                          zone: string, storage: string, avail: int, at: Pick)
  {
    i <= |names| &&
    if zone == "" then avail == 0 && forall q :: !Passed(c, n, names, i, j, q)
    else Leads(c, n, names, i, j, at) && Describes(c, at, zone, storage, avail)
  }

  ghost predicate Sorted(names: seq<string>) {
    forall a, b :: 0 <= a < b < |names| ==> Less(names[a], names[b])
  }

  lemma ScanZone(c: Candidates, n: Need, names: seq<string>, i: nat, j: nat,
                 zone: string, storage: string, avail: int, at: Pick)
    requires Scanned(c, n, names, i, j, zone, storage, avail, at) && WellNamed(c) && Sorted(names)
    requires i < |names| && names[i] in c.capacities && j < |c.capacities[names[i]]| && Tier(c, n, names[i]) == 2
    ensures var z := c.capacities[names[i]][j];
      if z.zone != n.zone && z.avail >= n.required && z.avail > avail
      then Scanned(c, n, names, i, j + 1, z.zone, names[i], z.avail, Pick(names[i], j))
      else Scanned(c, n, names, i, j + 1, zone, storage, avail, at)
  {
    var z, q := c.capacities[names[i]][j], Pick(names[i], j);
    if z.zone != n.zone && z.avail >= n.required && z.avail > avail {
      forall x | Passed(c, n, names, i, j, x) ensures Avail(c, x) < z.avail { assert Beats(c, n, at, x); }
      assert avail >= 0;
      TakesLead(c, n, names, i, j, q);
    } else if zone != "" {
      KeepsLead(c, n, names, i, j, at, q);
    } else {
      var k := j + 1;
      forall x ensures !Passed(c, n, names, i, k, x) { assert !Passed(c, n, names, i, j, x); }
    }
  }

  lemma ScanName(c: Candidates, n: Need, names: seq<string>, i: nat, j: nat,
                 zone: string, storage: string, avail: int, at: Pick)
    requires Scanned(c, n, names, i, j, zone, storage, avail, at)
    requires i < |names| && (Tier(c, n, names[i]) != 2 || (names[i] in c.capacities && j == |c.capacities[names[i]]|))
    ensures Scanned(c, n, names, i + 1, 0, zone, storage, avail, at)
  {
    var k := i + 1;
    forall q ensures Passed(c, n, names, k, 0, q) <==> Passed(c, n, names, i, j, q) { NextName(c, n, names, i, j, q); }
    if zone != "" {
      forall q | Passed(c, n, names, k, 0, q) ensures Beats(c, n, at, q) { assert Passed(c, n, names, i, j, q); }
    }
  }

  lemma ScanEnds(c: Candidates, n: Need, names: seq<string>, zone: string, storage: string, avail: int, at: Pick)
    requires Scanned(c, n, names, |names|, 0, zone, storage, avail, at) && forall s :: s in c.capacities ==> s in names
    requires forall q :: Eligible(c, n, q) ==> Tier(c, n, q.storage) == 2
    ensures
      if zone == "" then forall p :: !Eligible(c, n, p)
      else Best(c, n, at) && Describes(c, at, zone, storage, avail)
  {
    if zone == "" {
      forall p ensures !Eligible(c, n, p) {
        assert names[..|names|] == names;
        assert !Passed(c, n, names, |names|, 0, p);
      }
    } else {
      LeaderIsBest(c, n, names, at);
    }
  }

  method SelectCrossStorageTarget(c: Candidates, zone: string, storage: string, size: int, headroom: real)
    returns (r: Option<(string, string)>)
    requires WellNamed(c)
    ensures var n := Need(zone, storage, Required(size, headroom));
      match r
      case None => forall p :: !Eligible(c, n, p)
      case Some((z, s)) => exists p :: Best(c, n, p) && p.storage == s && c.capacities[s][p.index].zone == z
  {
    ghost var n := Need(zone, storage, Required(size, headroom));
    var z := SelectTarget(Zones(c, storage), [zone], size, headroom);
    if z.Some? {
      ghost var i :| Winner(Zones(c, storage), [zone], n.required, i) && z.value == Zones(c, storage)[i].zone;
      WinnerIsBest(c, n, storage, i);
      return Some((z.value, storage));
    }
    assert forall q :: Eligible(c, n, q) ==> Tier(c, n, q.storage) > 0;
    if c.fallback != "" && c.fallback != storage {
      z := SelectTarget(Zones(c, c.fallback), [zone], size, headroom);
      if z.Some? {
        ghost var i :| Winner(Zones(c, c.fallback), [zone], n.required, i) && z.value == Zones(c, c.fallback)[i].zone;
        WinnerIsBest(c, n, c.fallback, i);
        return Some((z.value, c.fallback));
      }
    }
    assert forall q :: Eligible(c, n, q) ==> Tier(c, n, q.storage) == 2;
    r := BestOfTheRest(c, zone, storage, size, headroom);
  }

  /** The last stage, over the storages that are neither the volume's own nor the default. */
  method BestOfTheRest(c: Candidates, zone: string, storage: string, size: int, headroom: real)
    returns (r: Option<(string, string)>)
    requires WellNamed(c)
    requires var n := Need(zone, storage, Required(size, headroom));
      forall q :: Eligible(c, n, q) ==> Tier(c, n, q.storage) == 2
    ensures var n := Need(zone, storage, Required(size, headroom));
      match r
      case None => forall p :: !Eligible(c, n, p)
      case Some((z, s)) => exists p :: Best(c, n, p) && p.storage == s && c.capacities[s][p.index].zone == z
  {
    var required := Required(size, headroom);
    ghost var n := Need(zone, storage, required);
    var bestZone, bestStorage, bestAvail := "", "", 0;
    ghost var at := Pick("", 0);
    var names := SortedKeys(c.capacities.Keys);
    assert Sorted(names) && Scanned(c, n, names, 0, 0, bestZone, bestStorage, bestAvail, at);
    hide Scanned;
    for i := 0 to |names|
      invariant Scanned(c, n, names, i, 0, bestZone, bestStorage, bestAvail, at)
    {
      var name := names[i];
      if name != storage && name != c.fallback {
        var zones := c.capacities[name];
        for j := 0 to |zones|
          invariant Scanned(c, n, names, i, j, bestZone, bestStorage, bestAvail, at)
        {
          var z := zones[j];
          ScanZone(c, n, names, i, j, bestZone, bestStorage, bestAvail, at);
          if z.zone != zone && z.avail >= required && z.avail > bestAvail {
            bestZone, bestStorage, bestAvail := z.zone, name, z.avail;
            at := Pick(name, j);
          }
        }
        ScanName(c, n, names, i, |zones|, bestZone, bestStorage, bestAvail, at);
      } else {
        ScanName(c, n, names, i, 0, bestZone, bestStorage, bestAvail, at);
      }
    }
    ScanEnds(c, n, names, bestZone, bestStorage, bestAvail, at);
    r := if bestZone == "" then None else Some((bestZone, bestStorage));
  }
}

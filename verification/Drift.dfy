/** The drift detector (pkg/operator/controller/drift/detector.go): the ledger of recorded
    volumes against what Proxmox lists. Its indexes are keyed on text; the report is specified
    by the records themselves. */
module Drift {
  import opened Strings
  import opened Names

  /** A ProxmoxVolume, and the handle its status carries. */
  datatype Record = Record(namespace: string, name: string, region: string, storage: string, volumeID: string)

  datatype Tenant = Tenant(region: string, storages: seq<string>)

  datatype Disk = Disk(region: string, storage: string, name: string, vmid: int, size: int)

  datatype Missing = Missing(namespace: string, name: string, volumeID: string)

  datatype Target = Target(region: string, storage: string)

  datatype Listing = Listed(disks: seq<Disk>) | NoStorage | Unreadable

  datatype Report = Report(orphans: seq<Disk>, missing: seq<Missing>, unreadable: seq<Target>)

  const DRIVER_PREFIX := "pvc-"

  // ---------------------------------------------------------------- meanings

  /** What a record's handle names: a storage and a suffix on it; None for a record without a
      usable handle. */
  function Claim(r: Record): Option<(Target, string)> {
    if r.volumeID == "" then None
    else
      match ParseVolumeID(r.volumeID)
      case None => None
      case Some(v) => if DiskSuffix(v.disk) == "" then None else Some((Target(v.region, v.storage), DiskSuffix(v.disk)))
  }

  /** A record with a well-formed handle claims its region and storage, under the disk's suffix. */
  lemma ClaimOfHandle(r: Record, v: Volume)
    requires r.volumeID == VolumeID(v) && v.node == v.zone && Plain(v.region) && Plain(v.zone) && Plain(v.storage)
    ensures Claim(r) ==
      if DiskSuffix(v.disk) == "" then None else Some((Target(v.region, v.storage), DiskSuffix(v.disk)))
  {
    ParsePrintHandle(v);
    assert '/' in r.volumeID by { GlueHolds(v.region, '/', Glue(v.zone, '/', Glue(v.storage, '/', v.disk))); }
    hide DiskSuffix;
    hide VolumeID;
    hide ParseVolumeID;
  }

  lemma GlueHolds(a: string, sep: char, b: string)
    ensures sep in Glue(a, sep, b)
  {
    assert Glue(a, sep, b)[|a|] == sep;
  }

  ghost predicate Claimed(records: seq<Record>, t: Target, suffix: string) {
    exists i :: 0 <= i < |records| && Claim(records[i]) == Some((t, suffix))
  }

  function KeyOf(r: Record): string
    requires Claim(r).Some?
  {
    ClaimKey(Claim(r).value.0, Claim(r).value.1)
  }

  ghost predicate KeyClaimed(records: seq<Record>, key: string) {
    exists i :: 0 <= i < |records| && Claim(records[i]).Some? && KeyOf(records[i]) == key
  }

  ghost predicate IsOrphan(d: Disk, records: seq<Record>) {
    && HasPrefix(DiskSuffix(d.name), DRIVER_PREFIX)
    && !KeyClaimed(records, ClaimKey(Target(d.region, d.storage), DiskSuffix(d.name)))
  }

  ghost function OrphansOf(disks: seq<Disk>, records: seq<Record>): seq<Disk> {
    if disks == [] then []
    else
      var d := disks[|disks| - 1];
      OrphansOf(disks[..|disks| - 1], records) + if IsOrphan(d, records) then [d] else []
  }

  function Entry(r: Record): Missing { Missing(r.namespace, r.name, r.volumeID) }

  ghost predicate Present(disks: seq<Disk>, suffix: string) {
    exists i :: 0 <= i < |disks| && DiskSuffix(disks[i].name) == suffix
  }

  /** The record is expected on the storage, and no listed disk has its suffix. */
  ghost predicate IsMissing(r: Record, t: Target, disks: seq<Disk>) {
    Claim(r).Some? && Claim(r).value.0 == t && !Present(disks, Claim(r).value.1)
  }

  ghost function MissingOf(records: seq<Record>, t: Target, disks: seq<Disk>): seq<Missing> {
    if records == [] then []
    else
      var r := records[|records| - 1];
      MissingOf(records[..|records| - 1], t, disks) + if IsMissing(r, t, disks) then [Entry(r)] else []
  }

  // ----------------------------------------------------------------- the keys

  function ClaimKey(t: Target, suffix: string): string { Glue(t.region, '/', Glue(t.storage, '/', suffix)) }

  predicate PlainTarget(t: Target) { Plain(t.region) && Plain(t.storage) }

  /** The text key of a slash-free storage names it and the suffix alone. */
  lemma ClaimKeyInjective(t: Target, a: string, u: Target, b: string)
    requires PlainTarget(t) && PlainTarget(u)
    ensures ClaimKey(t, a) == ClaimKey(u, b) <==> t == u && a == b
  {
    CutGlue(t.region, '/', Glue(t.storage, '/', a));
    CutGlue(u.region, '/', Glue(u.storage, '/', b));
    CutGlue(t.storage, '/', a);
    CutGlue(u.storage, '/', b);
    hide Glue;
  }

  /** Handles name slash-free regions and storages. */
  lemma ClaimIsPlain(r: Record)
    requires Claim(r).Some?
    ensures PlainTarget(Claim(r).value.0)
  {
    PrintParse(r.volumeID);
  }

  /** A disk on a slash-free storage is an orphan exactly when it is shaped like the driver's
      and no handle on that same storage has its suffix. */
  lemma OrphanMeans(d: Disk, records: seq<Record>)
    requires PlainTarget(Target(d.region, d.storage))
    ensures IsOrphan(d, records) <==>
      HasPrefix(DiskSuffix(d.name), DRIVER_PREFIX) && !Claimed(records, Target(d.region, d.storage), DiskSuffix(d.name))
  {
    hide Claim;
    hide ClaimKey;
    hide DiskSuffix;
    var t := Target(d.region, d.storage);
    forall i | 0 <= i < |records| && Claim(records[i]).Some?
      ensures KeyOf(records[i]) == ClaimKey(t, DiskSuffix(d.name)) <==>
        Claim(records[i]) == Some((t, DiskSuffix(d.name)))
    {
      ClaimIsPlain(records[i]);
      ClaimKeyInjective(Claim(records[i]).value.0, Claim(records[i]).value.1, t, DiskSuffix(d.name));
    }
  }

  // ---------------------------------------------------------------- the loops

  /** The records a storage's ledger entry comes from, in order. */
  function Expected(records: seq<Record>, t: Target): seq<Missing> {
    if records == [] then []
    else
      var r := records[|records| - 1];
      Expected(records[..|records| - 1], t) + if Claim(r).Some? && Claim(r).value.0 == t then [Entry(r)] else []
  }

  function LedgerAt(ledger: map<Target, seq<Missing>>, t: Target): seq<Missing> {
    if t in ledger then ledger[t] else []
  }

  ghost predicate Indexed(records: seq<Record>, claimed: set<string>, ledger: map<Target, seq<Missing>>) {
    && (forall k :: k in claimed <==> KeyClaimed(records, k))
    && (forall t :: LedgerAt(ledger, t) == Expected(records, t))
  }

  lemma IndexMore(records: seq<Record>, n: nat, claimed: set<string>, ledger: map<Target, seq<Missing>>)
    requires n < |records| && Indexed(records[..n], claimed, ledger)
    ensures Claim(records[n]).None? ==> Indexed(records[..n + 1], claimed, ledger)
    ensures Claim(records[n]).Some? ==>
      var (t, suffix) := Claim(records[n]).value;
      Indexed(records[..n + 1], claimed + {ClaimKey(t, suffix)}, ledger[t := LedgerAt(ledger, t) + [Entry(records[n])]])
  {
    hide Claim;
    hide ClaimKey;
    var a, b := records[..n], records[..n + 1];
    assert b == a + [records[n]] && b[..n] == a;
    forall k ensures KeyClaimed(b, k) <==> KeyClaimed(a, k) || (Claim(records[n]).Some? && KeyOf(records[n]) == k) {
      if KeyClaimed(a, k) {
        var i :| 0 <= i < |a| && Claim(a[i]).Some? && KeyOf(a[i]) == k;
        assert b[i] == a[i];
      }
      assert b[n] == records[n];
    }
    forall t ensures Expected(b, t) ==
      Expected(a, t) + if Claim(records[n]).Some? && Claim(records[n]).value.0 == t then [Entry(records[n])] else []
    {}
  }

  method Index(records: seq<Record>) returns (claimed: set<string>, ledger: map<Target, seq<Missing>>)
    ensures Indexed(records, claimed, ledger)
  {
    claimed, ledger := {}, map[];
    assert Indexed(records[..0], claimed, ledger);
    hide Indexed;
    for n := 0 to |records|
      invariant Indexed(records[..n], claimed, ledger)
    {
      IndexMore(records, n, claimed, ledger);
      var claim := Claim(records[n]);
      if claim.Some? {
        var (t, suffix) := claim.value;
        claimed := claimed + {ClaimKey(t, suffix)};
        ledger := ledger[t := LedgerAt(ledger, t) + [Entry(records[n])]];
      }
    }
    assert records[..|records|] == records;
  }

  method OrphansIn(disks: seq<Disk>, claimed: set<string>, ghost records: seq<Record>) returns (orphans: seq<Disk>)
    requires forall k :: k in claimed <==> KeyClaimed(records, k)
    ensures orphans == OrphansOf(disks, records)
  {
    orphans := [];
    for i := 0 to |disks|
      invariant orphans == OrphansOf(disks[..i], records)
    {
      var d := disks[i];
      assert disks[..i + 1][..i] == disks[..i];
      var suffix := DiskSuffix(d.name);
      if HasPrefix(suffix, DRIVER_PREFIX) && ClaimKey(Target(d.region, d.storage), suffix) !in claimed {
        orphans := orphans + [d];
      }
    }
    assert disks[..|disks|] == disks;
  }

  /** The suffixes of a listing. */
  method Suffixes(disks: seq<Disk>) returns (present: set<string>)
    ensures forall x :: x in present <==> x != "" && Present(disks, x)
  {
    present := {};
    assert forall x :: !Present(disks[..0], x);
    hide Present;
    hide DiskSuffix;
    for i := 0 to |disks|
      invariant forall x :: x in present <==> x != "" && Present(disks[..i], x)
    {
      var suffix := DiskSuffix(disks[i].name);
      PresentMore(disks, i);
      if suffix != "" { present := present + {suffix}; }
    }
    assert disks[..|disks|] == disks;
  }

  lemma PresentMore(disks: seq<Disk>, i: nat)
    requires i < |disks|
    ensures forall x :: Present(disks[..i + 1], x) <==> Present(disks[..i], x) || x == DiskSuffix(disks[i].name)
  {
    hide DiskSuffix;
    var a, b := disks[..i], disks[..i + 1];
    forall x ensures Present(b, x) <==> Present(a, x) || x == DiskSuffix(disks[i].name) {
      if Present(a, x) {
        var j :| 0 <= j < |a| && DiskSuffix(a[j].name) == x;
        assert b[j] == a[j];
      }
      assert b[i] == disks[i];
    }
  }

  /** The expected entries whose handle's suffix is in no listed disk's name. */
  function Unaccounted(expected: seq<Missing>, present: set<string>): seq<Missing> {
    if expected == [] then []
    else
      var m := expected[|expected| - 1];
      var v := ParseVolumeID(m.volumeID);
      Unaccounted(expected[..|expected| - 1], present) +
        if v.Some? && DiskSuffix(v.value.disk) !in present then [m] else []
  }

  method MissingIn(disks: seq<Disk>, expected: seq<Missing>, ghost records: seq<Record>, ghost t: Target)
    returns (missing: seq<Missing>)
    requires expected == Expected(records, t)
    ensures missing == MissingOf(records, t, disks)
  {
    hide DiskSuffix;
    hide ParseVolumeID;
    hide Present;
    hide MissingOf;
    hide Expected;
    var present := Suffixes(disks);
    missing := [];
    for i := 0 to |expected|
      invariant missing == Unaccounted(expected[..i], present)
    {
      assert expected[..i + 1][..i] == expected[..i];
      var v := ParseVolumeID(expected[i].volumeID);
      if v.Some? && DiskSuffix(v.value.disk) !in present {
        missing := missing + [expected[i]];
      }
    }
    assert expected[..|expected|] == expected;
    UnaccountedIsMissing(records, t, disks, present);
  }

  lemma {:induction false} UnaccountedIsMissing(records: seq<Record>, t: Target, disks: seq<Disk>, present: set<string>)
    requires forall x :: x in present <==> x != "" && Present(disks, x)
    ensures Unaccounted(Expected(records, t), present) == MissingOf(records, t, disks)
  {
    if records != [] {
      var n := |records| - 1;
      var r := records[n];
      UnaccountedIsMissing(records[..n], t, disks, present);
      if Claim(r).Some? && Claim(r).value.0 == t {
        assert Expected(records, t)[..|Expected(records, t)| - 1] == Expected(records[..n], t);
      } else {
        assert Expected(records, t) == Expected(records[..n], t);
      }
      hide ParseVolumeID;
      hide DiskSuffix;
    }
  }

  // ---------------------------------------------------------------- the sweep

  /** A storage some tenant may use, or some record names. */
  ghost predicate Swept(tenants: seq<Tenant>, records: seq<Record>, t: Target) {
    || (exists i :: 0 <= i < |tenants| && tenants[i].region == t.region && t.storage in tenants[i].storages)
    || (t.region != "" && t.storage != "" &&
        exists i :: 0 <= i < |records| && Target(records[i].region, records[i].storage) == t)
  }

  predicate Once(targets: seq<Target>) {
    forall i, j :: 0 <= i < j < |targets| ==> targets[i] != targets[j]
  }

  method Targets(tenants: seq<Tenant>, records: seq<Record>) returns (targets: seq<Target>)
    ensures forall t :: t in targets <==> Swept(tenants, records, t)
    ensures Once(targets)
  {
    var seen: set<Target> := {};
    for i := 0 to |tenants|
      invariant forall t :: t in seen <==>
        exists k :: 0 <= k < i && tenants[k].region == t.region && t.storage in tenants[k].storages
    {
      var storages := tenants[i].storages;
      seen := seen + set x | x in storages :: Target(tenants[i].region, x);
    }
    ghost var allowed := seen;
    for i := 0 to |records|
      invariant forall t :: t in seen <==>
        || t in allowed
        || (t.region != "" && t.storage != "" &&
            exists k :: 0 <= k < i && Target(records[k].region, records[k].storage) == t)
    {
      var r := records[i];
      if r.region != "" && r.storage != "" { seen := seen + {Target(r.region, r.storage)}; }
    }
    targets := [];
    ghost var all := seen;
    while seen != {}
      invariant forall t :: t in all <==> t in seen || t in targets
      invariant forall t :: t in targets ==> t !in seen
      invariant Once(targets)
    {
      var t :| t in seen;
      seen := seen - {t};
      targets := targets + [t];
    }
  }

  /** What a listing amounts to: the disks seen, unless it could not be read. */
  function DisksOf(l: Listing): Option<seq<Disk>> {
    match l
    case Listed(disks) => Some(disks)
    case NoStorage => Some([])
    case Unreadable => None
  }

  /** What the sweep of these targets reports. */
  ghost function Findings(targets: seq<Target>, records: seq<Record>, list: Target -> Listing): Report {
    if targets == [] then Report([], [], [])
    else
      var t, before := targets[|targets| - 1], Findings(targets[..|targets| - 1], records, list);
      match DisksOf(list(t))
      case None => before.(unreadable := before.unreadable + [t])
      case Some(disks) =>
        before.(orphans := before.orphans + OrphansOf(disks, records),
                missing := before.missing + MissingOf(records, t, disks))
  }

  method Sweep(tenants: seq<Tenant>, records: seq<Record>, list: Target -> Listing)
    returns (report: Report, targets: seq<Target>)
    ensures forall t :: t in targets <==> Swept(tenants, records, t)
    ensures Once(targets)
    ensures report == Findings(targets, records, list)
  {
    var claimed, ledger := Index(records);
    assert forall k :: k in claimed <==> KeyClaimed(records, k);
    assert forall t :: LedgerAt(ledger, t) == Expected(records, t);
    targets := Targets(tenants, records);
    report := Report([], [], []);
    for i := 0 to |targets|
      invariant report == Findings(targets[..i], records, list)
    {
      var t := targets[i];
      assert targets[..i + 1][..i] == targets[..i];
      var disks := DisksOf(list(t));
      if disks.None? {
        report := report.(unreadable := report.unreadable + [t]);
      } else {
        var orphans := OrphansIn(disks.value, claimed, records);
        var missing := MissingIn(disks.value, LedgerAt(ledger, t), records, t);
        report := report.(orphans := report.orphans + orphans, missing := report.missing + missing);
      }
    }
    assert targets[..|targets|] == targets;
  }

  // ------------------------------------------------------------------ results

  lemma {:induction false} OrphansAre(disks: seq<Disk>, records: seq<Record>, d: Disk)
    ensures d in OrphansOf(disks, records) <==> d in disks && IsOrphan(d, records)
  {
    if disks != [] {
      OrphansAre(disks[..|disks| - 1], records, d);
      assert disks == disks[..|disks| - 1] + [disks[|disks| - 1]];
      hide IsOrphan;
    }
  }

  lemma {:induction false} MissingAre(records: seq<Record>, t: Target, disks: seq<Disk>, m: Missing)
    ensures m in MissingOf(records, t, disks) <==>
      exists i :: 0 <= i < |records| && m == Entry(records[i]) && IsMissing(records[i], t, disks)
  {
    hide IsMissing;
    if records != [] {
      var n := |records| - 1;
      MissingAre(records[..n], t, disks, m);
      if exists i :: 0 <= i < n && m == Entry(records[..n][i]) && IsMissing(records[..n][i], t, disks) {
        var i :| 0 <= i < n && m == Entry(records[..n][i]) && IsMissing(records[..n][i], t, disks);
        assert records[i] == records[..n][i];
      }
    }
  }

  ghost predicate FoundOrphan(t: Target, records: seq<Record>, list: Target -> Listing, d: Disk) {
    DisksOf(list(t)).Some? && d in DisksOf(list(t)).value && IsOrphan(d, records)
  }

  ghost predicate FoundMissing(t: Target, records: seq<Record>, list: Target -> Listing, m: Missing) {
    && DisksOf(list(t)).Some?
    && exists k :: 0 <= k < |records| && m == Entry(records[k]) && IsMissing(records[k], t, DisksOf(list(t)).value)
  }

  lemma OneMore(targets: seq<Target>, records: seq<Record>, list: Target -> Listing, d: Disk, m: Missing)
    requires targets != []
    ensures var n := |targets| - 1;
      var f, g := Findings(targets, records, list), Findings(targets[..n], records, list);
      && (d in f.orphans <==> d in g.orphans || FoundOrphan(targets[n], records, list, d))
      && (m in f.missing <==> m in g.missing || FoundMissing(targets[n], records, list, m))
      && f.unreadable == g.unreadable + if DisksOf(list(targets[n])).None? then [targets[n]] else []
  {
    hide IsOrphan;
    hide IsMissing;
    var t := targets[|targets| - 1];
    if DisksOf(list(t)).Some? {
      OrphansAre(DisksOf(list(t)).value, records, d);
      MissingAre(records, t, DisksOf(list(t)).value, m);
    }
    hide OrphansOf;
    hide MissingOf;
  }

  /** What a sweep reports: as orphans, exactly the unclaimed driver disks of the storages that
      were listed or are gone; as missing, exactly the records on them whose suffix no listed
      disk has; and the unreadable storages by name alone. */
  lemma {:induction false} SweepReports(targets: seq<Target>, records: seq<Record>, list: Target -> Listing,
                                        d: Disk, m: Missing, u: Target)
    ensures var f := Findings(targets, records, list);
      && (d in f.orphans <==> exists t :: t in targets && FoundOrphan(t, records, list, d))
      && (m in f.missing <==> exists t :: t in targets && FoundMissing(t, records, list, m))
      && (u in f.unreadable <==> u in targets && list(u) == Unreadable)
  {
    hide FoundOrphan;
    hide FoundMissing;
    if targets != [] {
      var n := |targets| - 1;
      SweepReports(targets[..n], records, list, d, m, u);
      OneMore(targets, records, list, d, m);
      hide Findings;
      assert targets == targets[..n] + [targets[n]];
    }
  }

  // ------------------------------------------------------------------- renames

  lemma {:induction false} OrphansSkip(disks: seq<Disk>, records: seq<Record>, i: nat, d: Disk)
    requires i < |disks| && !IsOrphan(disks[i], records) && !IsOrphan(d, records)
    ensures OrphansOf(disks[i := d], records) == OrphansOf(disks, records)
  {
    hide IsOrphan;
    var n := |disks| - 1;
    if i < n {
      assert disks[i := d][..n] == disks[..n][i := d];
      OrphansSkip(disks[..n], records, i, d);
    } else {
      assert disks[i := d][..n] == disks[..n];
    }
  }

  lemma PresentRenamed(disks: seq<Disk>, i: nat, d: Disk, suffix: string)
    requires i < |disks| && DiskSuffix(d.name) == DiskSuffix(disks[i].name)
    ensures Present(disks[i := d], suffix) <==> Present(disks, suffix)
  {
    hide DiskSuffix;
    var renamed := disks[i := d];
    if Present(disks, suffix) {
      var j :| 0 <= j < |disks| && DiskSuffix(disks[j].name) == suffix;
      assert DiskSuffix(renamed[j].name) == suffix;
    }
    if Present(renamed, suffix) {
      var j :| 0 <= j < |disks| && DiskSuffix(renamed[j].name) == suffix;
      assert DiskSuffix(disks[j].name) == suffix;
    }
  }

  lemma {:induction false} MissingRenamed(records: seq<Record>, t: Target, disks: seq<Disk>, renamed: seq<Disk>)
    requires forall x :: Present(disks, x) <==> Present(renamed, x)
    ensures MissingOf(records, t, renamed) == MissingOf(records, t, disks)
  {
    hide Present;
    hide Claim;
    if records != [] { MissingRenamed(records[..|records| - 1], t, disks, renamed); }
  }

  /** Renaming a listed disk for any VM: the missing volumes are the same, the disk is an orphan
      as before, and so is everything else reported unless it was one. */
  lemma RenameChangesNothing(disks: seq<Disk>, records: seq<Record>, t: Target, i: nat, vmid: int)
    requires i < |disks| && LegalVmid(vmid) && WithVMID(disks[i].name, vmid).Some?
    ensures var d := disks[i].(name := WithVMID(disks[i].name, vmid).value, vmid := vmid);
      && MissingOf(records, t, disks[i := d]) == MissingOf(records, t, disks)
      && (IsOrphan(d, records) <==> IsOrphan(disks[i], records))
      && (!IsOrphan(disks[i], records) ==> OrphansOf(disks[i := d], records) == OrphansOf(disks, records))
  {
    var d := disks[i].(name := WithVMID(disks[i].name, vmid).value, vmid := vmid);
    RenameKeepsIdentity(disks[i].name, vmid);
    hide DiskSuffix;
    hide WithVMID;
    forall x { PresentRenamed(disks, i, d, x); }
    MissingRenamed(records, t, disks, disks[i := d]);
    hide KeyClaimed;
    if !IsOrphan(disks[i], records) { OrphansSkip(disks, records, i, d); }
  }

  /** The listings of a sweep, with t's replaced. */
  function Relisted(list: Target -> Listing, t: Target, disks: seq<Disk>): Target -> Listing {
    u => if u == t then Listed(disks) else list(u)
  }

  lemma {:induction false} SameCount(disks: seq<Disk>, records: seq<Record>, i: nat, d: Disk)
    requires i < |disks| && (IsOrphan(d, records) <==> IsOrphan(disks[i], records))
    ensures |OrphansOf(disks[i := d], records)| == |OrphansOf(disks, records)|
  {
    hide IsOrphan;
    var n := |disks| - 1;
    if i < n {
      assert disks[i := d][..n] == disks[..n][i := d];
      SameCount(disks[..n], records, i, d);
    } else {
      assert disks[i := d][..n] == disks[..n];
    }
  }

  /** Two listings of a storage a sweep cannot tell apart, but for the names of the orphans. */
  ghost predicate Alike(records: seq<Record>, t: Target, a: seq<Disk>, b: seq<Disk>, same: bool) {
    && MissingOf(records, t, a) == MissingOf(records, t, b)
    && |OrphansOf(a, records)| == |OrphansOf(b, records)|
    && (same ==> OrphansOf(a, records) == OrphansOf(b, records))
  }

  lemma {:induction false} AlikeSweeps(targets: seq<Target>, records: seq<Record>, list: Target -> Listing,
                                       t: Target, a: seq<Disk>, b: seq<Disk>, same: bool)
    requires list(t) == Listed(a) && Alike(records, t, a, b, same)
    ensures var f, g := Findings(targets, records, list), Findings(targets, records, Relisted(list, t, b));
      g.missing == f.missing && g.unreadable == f.unreadable && |g.orphans| == |f.orphans| && (same ==> g == f)
  {
    hide OrphansOf;
    hide MissingOf;
    if targets != [] { AlikeSweeps(targets[..|targets| - 1], records, list, t, a, b, same); }
  }

  lemma {:induction false} OrphanReplaced(disks: seq<Disk>, records: seq<Record>, i: nat, d: Disk) returns (k: nat)
    requires i < |disks| && IsOrphan(disks[i], records) && IsOrphan(d, records)
    ensures var a := OrphansOf(disks, records);
      k < |a| && a[k] == disks[i] && OrphansOf(disks[i := d], records) == a[k := d]
  {
    hide IsOrphan;
    var n := |disks| - 1;
    if i < n {
      assert disks[i := d][..n] == disks[..n][i := d];
      k := OrphanReplaced(disks[..n], records, i, d);
    } else {
      assert disks[i := d][..n] == disks[..n];
      k := |OrphansOf(disks[..n], records)|;
    }
  }

  lemma {:induction false} Unswept(targets: seq<Target>, records: seq<Record>, list: Target -> Listing,
                                   t: Target, disks: seq<Disk>)
    requires t !in targets
    ensures Findings(targets, records, Relisted(list, t, disks)) == Findings(targets, records, list)
  {
    hide OrphansOf;
    hide MissingOf;
    if targets != [] { Unswept(targets[..|targets| - 1], records, list, t, disks); }
  }

  /** The two lists of orphans are the same but for one disk, in its place. */
  ghost predicate Replaced(a: seq<Disk>, b: seq<Disk>, was: Disk, d: Disk) {
    exists k :: 0 <= k < |a| && a[k] == was && b == a[k := d]
  }

  lemma {:induction false} ReplacedInSweep(targets: seq<Target>, records: seq<Record>, list: Target -> Listing,
                                           t: Target, i: nat, d: Disk)
    requires Once(targets) && t in targets && list(t).Listed? && i < |list(t).disks|
    requires IsOrphan(list(t).disks[i], records) && IsOrphan(d, records)
    ensures var disks := list(t).disks;
      Replaced(Findings(targets, records, list).orphans,
               Findings(targets, records, Relisted(list, t, disks[i := d])).orphans, disks[i], d)
  {
    hide OrphansOf;
    hide MissingOf;
    hide IsOrphan;
    var n, disks := |targets| - 1, list(t).disks;
    var before, u := targets[..n], targets[n];
    var a := Findings(before, records, list).orphans;
    var f := Findings(targets, records, list).orphans;
    var g := Findings(targets, records, Relisted(list, t, disks[i := d])).orphans;
    if u == t {
      assert t !in before;
      Unswept(before, records, list, t, disks[i := d]);
      var k := OrphanReplaced(disks, records, i, d);
      assert f[|a| + k] == disks[i] && g == f[|a| + k := d];
    } else {
      assert t in before;
      ReplacedInSweep(before, records, list, t, i, d);
      var b := Findings(before, records, Relisted(list, t, disks[i := d])).orphans;
      var k :| 0 <= k < |a| && a[k] == disks[i] && b == a[k := d];
      assert f[k] == disks[i] && g == f[k := d];
    }
  }

  /** Renaming a listed disk for any VM leaves a sweep's report as it is, unless it is an
      orphan; then it still is, and only its name in the list of orphans is another. */
  lemma SweepIgnoresRenames(targets: seq<Target>, records: seq<Record>, list: Target -> Listing,
                            t: Target, i: nat, vmid: int)
    requires list(t).Listed? && i < |list(t).disks| && LegalVmid(vmid) && WithVMID(list(t).disks[i].name, vmid).Some?
    ensures var was := list(t).disks[i];
      var d := was.(name := WithVMID(was.name, vmid).value, vmid := vmid);
      var f := Findings(targets, records, list);
      var g := Findings(targets, records, Relisted(list, t, list(t).disks[i := d]));
      && g.missing == f.missing && g.unreadable == f.unreadable && |g.orphans| == |f.orphans|
      && (IsOrphan(d, records) <==> IsOrphan(was, records)) && (!IsOrphan(was, records) ==> g == f)
      && (IsOrphan(was, records) && Once(targets) && t in targets ==> Replaced(f.orphans, g.orphans, was, d))
  {
    var disks := list(t).disks;
    var d := disks[i].(name := WithVMID(disks[i].name, vmid).value, vmid := vmid);
    hide DiskSuffix;
    hide WithVMID;
    RenameChangesNothing(disks, records, t, i, vmid);
    hide IsOrphan;
    SameCount(disks, records, i, d);
    AlikeSweeps(targets, records, list, t, disks, disks[i := d], !IsOrphan(disks[i], records));
    hide Findings;
    if IsOrphan(disks[i], records) && Once(targets) && t in targets {
      ReplacedInSweep(targets, records, list, t, i, d);
    }
  }

  /** The disk is in a listing of the sweep. */
  ghost predicate Seen(targets: seq<Target>, list: Target -> Listing, d: Disk) {
    exists t :: t in targets && DisksOf(list(t)).Some? && d in DisksOf(list(t)).value
  }

  /** What an orphan in the report is: a disk the sweep has seen, shaped like the driver's, that
      no record's handle names on its own storage. */
  lemma ReportedOrphans(targets: seq<Target>, records: seq<Record>, list: Target -> Listing, d: Disk)
    requires PlainTarget(Target(d.region, d.storage))
    ensures d in Findings(targets, records, list).orphans <==>
      && Seen(targets, list, d) && HasPrefix(DiskSuffix(d.name), DRIVER_PREFIX)
      && !Claimed(records, Target(d.region, d.storage), DiskSuffix(d.name))
  {
    hide DiskSuffix;
    hide Findings;
    hide Claimed;
    OrphanMeans(d, records);
    hide IsOrphan;
    hide FoundMissing;
    SweepReports(targets, records, list, d, Missing("", "", ""), Target("", ""));
    if Seen(targets, list, d) && IsOrphan(d, records) {
      var t :| t in targets && DisksOf(list(t)).Some? && d in DisksOf(list(t)).value;
      assert FoundOrphan(t, records, list, d);
    }
  }
}

/** Volume handles and Proxmox disk names (pkg/utils/volume/volume.go), and the search
    for a renamed disk (pkg/tools/proxmox/volume.go). */
module Names {
  import opened Strings
  import opened Decimal

  datatype Volume = Volume(region: string, zone: string, node: string, storage: string, disk: string)

  // ---------------------------------------------------------------- handles

  /** parseVolumeID: region/zone/storage/disk, where only the disk may hold a slash. */
  function ParseVolumeID(id: string): Option<Volume> {
    var parts := SplitN(id, '/', 4);
    if |parts| != 4 then None
    else Some(Volume(parts[0], parts[1], parts[1], parts[2], parts[3]))
  }

  function VolumeID(v: Volume): string {
    Glue(v.region, '/', Glue(v.zone, '/', Glue(v.storage, '/', v.disk)))
  }

  predicate Plain(s: string) { '/' !in s }

  /** Printing undoes parsing, and what parsing returns is well formed. */
  lemma PrintParse(id: string)
    requires ParseVolumeID(id).Some?
    ensures var v := ParseVolumeID(id).value;
            VolumeID(v) == id && v.node == v.zone && Plain(v.region) && Plain(v.zone) && Plain(v.storage)
  {
    var (region, rest1) := Cut(id, '/').value;
    assert SplitN(id, '/', 4)[1..] == SplitN(rest1, '/', 3);
    var (zone, rest2) := Cut(rest1, '/').value;
    assert SplitN(rest1, '/', 3)[1..] == SplitN(rest2, '/', 2);
    assert Cut(rest2, '/').Some?;
  }

  lemma HandleReadsBack(v: Volume)
    requires v.node == v.zone && Plain(v.region) && Plain(v.zone) && Plain(v.storage)
    ensures ParseVolumeID(VolumeID(v)) == Some(v)
  {
    hide Glue;
    hide Cut;
    var rest2 := Glue(v.storage, '/', v.disk);
    var rest1 := Glue(v.zone, '/', rest2);
    CutGlue(v.region, '/', rest1);
    CutGlue(v.zone, '/', rest2);
    CutGlue(v.storage, '/', v.disk);
    assert SplitN(rest2, '/', 2) == [v.storage, v.disk];
    assert SplitN(rest1, '/', 3) == [v.zone, v.storage, v.disk];
    assert SplitN(VolumeID(v), '/', 4) == [v.region, v.zone, v.storage, v.disk];
  }

  /** A volume reads back from its own handle exactly when its node is its zone and
      the first three parts hold no slash. */
  lemma ParsePrintHandle(v: Volume)
    ensures ParseVolumeID(VolumeID(v)) == Some(v)
       <==> v.node == v.zone && Plain(v.region) && Plain(v.zone) && Plain(v.storage)
  {
    if v.node == v.zone && Plain(v.region) && Plain(v.zone) && Plain(v.storage) {
      HandleReadsBack(v);
    }
    if ParseVolumeID(VolumeID(v)) == Some(v) {
      PrintParse(VolumeID(v));
    }
  }

  // ------------------------------------------------------------- disk names

  /** The text [1-9][0-9]{2,8}. */
  predicate VmidText(s: string) {
    3 <= |s| <= 9 && AllDigits(s) && s[0] != '0'
  }

  /** The vmids a name can carry. */
  predicate LegalVmid(n: int) { 100 <= n <= 999_999_999 }

  lemma LegalVmidText(n: int)
    ensures VmidText(Print(n)) <==> LegalVmid(n)
  {
    if n >= 0 {
      assert Pow10(2) == 100 by { assert Pow10(1) == 10; }
      assert Pow10(9) == 1_000_000_000 by {
        assert Pow10(4) == 10_000 by { assert Pow10(3) == 1000 by { assert Pow10(1) == 10; } }
        assert Pow10(7) == 10_000_000 by { assert Pow10(6) == 1_000_000 by { assert Pow10(5) == 100_000; } }
        assert Pow10(8) == 100_000_000;
      }
      PrintNatLength(n, 2, 100);
      PrintNatLength(n, 9, 1_000_000_000);
    } else {
      assert Print(n)[0] == '-';
    }
  }

  /** The groups of diskre: the directory component, the vmid and the stable suffix. */
  datatype Parts = Parts(dir: Option<string>, vmid: string, suffix: string)

  function File(vmid: string, suffix: string): string {
    "vm-" + Glue(vmid, '-', suffix)
  }

  function Render(p: Parts): string {
    var file := File(p.vmid, p.suffix);
    if p.dir.Some? then Glue(p.dir.value, '/', file) else file
  }

  /** What the regular expression demands of its groups; "." stops at a newline. */
  predicate WellFormed(p: Parts) {
    && VmidText(p.vmid)
    && (p.dir.Some? ==> VmidText(p.dir.value))
    && p.suffix != "" && '\n' !in p.suffix
  }

  /** diskre.FindStringSubmatch. */
  function MatchDisk(disk: string): Option<Parts> {
    match Cut(disk, '/')
    case Some((dir, file)) => if VmidText(dir) then MatchFile(Some(dir), file) else MatchFile(None, disk)
    case None => MatchFile(None, disk)
  }

  function MatchFile(dir: Option<string>, file: string): Option<Parts> {
    match After(file, "vm-")
    case None => None
    case Some(rest) =>
      match Cut(rest, '-')
      case None => None
      case Some((vmid, suffix)) =>
        if VmidText(vmid) && suffix != "" && '\n' !in suffix then Some(Parts(dir, vmid, suffix)) else None
  }

  lemma VmidTextPlain(s: string)
    requires VmidText(s)
    ensures '-' !in s && '/' !in s
  {}

  lemma FileMatch(dir: Option<string>, vmid: string, suffix: string)
    requires VmidText(vmid) && suffix != "" && '\n' !in suffix
    ensures MatchFile(dir, File(vmid, suffix)) == Some(Parts(dir, vmid, suffix))
  {
    AfterPrefix("vm-", Glue(vmid, '-', suffix));
    VmidTextPlain(vmid);
    CutGlue(vmid, '-', suffix);
  }

  /** The computed groups are the only way to read the name: a disk matches with
      groups p exactly when it is p written out. */
  lemma MatchIsParse(disk: string, p: Parts)
    ensures MatchDisk(disk) == Some(p) <==> WellFormed(p) && disk == Render(p)
  {
    if WellFormed(p) && disk == Render(p) {
      RenderMatches(p);
    }
  }

  /** A file name read from the left of its first slash is not all digits. */
  lemma FileHasNoDir(vmid: string, suffix: string)
    ensures var cut := Cut(File(vmid, suffix), '/'); cut.Some? ==> !VmidText(cut.value.0)
  {
    var file := File(vmid, suffix);
    assert file[0] == 'v';
    var cut := Cut(file, '/');
    if cut.Some? && cut.value.0 != "" {
      assert cut.value.0[0] == 'v';
    }
  }

  lemma RenderMatches(p: Parts)
    requires WellFormed(p)
    ensures MatchDisk(Render(p)) == Some(p)
  {
    FileMatch(p.dir, p.vmid, p.suffix);
    if p.dir.Some? {
      VmidTextPlain(p.dir.value);
      CutGlue(p.dir.value, '/', File(p.vmid, p.suffix));
    } else {
      FileHasNoDir(p.vmid, p.suffix);
    }
  }

  /** DiskSuffix: empty for a name that is not vm-<vmid>-<name>. */
  function DiskSuffix(disk: string): string {
    match MatchDisk(disk)
    case Some(p) => p.suffix
    case None => ""
  }

  /** WithVMID on the disk name: none when there is no correct new name. */
  function WithVMID(disk: string, vmid: int): Option<string> {
    match MatchDisk(disk)
    case None => None
    case Some(p) =>
      var file := File(Print(vmid), p.suffix);
      Some(if p.dir.Some? then Glue(Print(vmid), '/', file) else file)
  }

  /** A name whose directory component, if any, agrees with its file name. */
  predicate Consistent(disk: string) {
    match MatchDisk(disk)
    case Some(p) => p.dir.Some? ==> p.dir.value == p.vmid
    case None => false
  }

  lemma WithVMIDRender(disk: string, vmid: int)
    requires MatchDisk(disk).Some? && LegalVmid(vmid)
    ensures var p := MatchDisk(disk).value;
            var q := Parts(if p.dir.Some? then Some(Print(vmid)) else None, Print(vmid), p.suffix);
            WithVMID(disk, vmid) == Some(Render(q)) && MatchDisk(Render(q)) == Some(q)
  {
    var p := MatchDisk(disk).value;
    MatchIsParse(disk, p);
    LegalVmidText(vmid);
    var q := Parts(if p.dir.Some? then Some(Print(vmid)) else None, Print(vmid), p.suffix);
    RenderMatches(q);
  }

  /** A rename is refused exactly when there is no stable suffix. Otherwise it keeps
      the suffix and the name shape, names the new vmid, and leaves a consistent name. */
  lemma RenameKeepsIdentity(disk: string, vmid: int)
    requires LegalVmid(vmid)
    ensures WithVMID(disk, vmid).None? <==> DiskSuffix(disk) == ""
    ensures WithVMID(disk, vmid).Some? ==>
              var d := WithVMID(disk, vmid).value;
              && DiskSuffix(d) == DiskSuffix(disk)
              && VMID(d) == Print(vmid)
              && PV(d) == PV(disk)
              && Consistent(d)
              && (MatchDisk(d).value.dir.Some? <==> MatchDisk(disk).value.dir.Some?)
  {
    if MatchDisk(disk).Some? {
      var p := MatchDisk(disk).value;
      MatchIsParse(disk, p);
      WithVMIDRender(disk, vmid);
      var d := WithVMID(disk, vmid).value;
      VmidOfDisk(d);
      PVOfDisk(d);
      PVOfDisk(disk);
    }
  }

  /** The last of several renames wins. */
  lemma LastRenameWins(disk: string, first: int, second: int)
    requires LegalVmid(first) && LegalVmid(second) && WithVMID(disk, first).Some?
    ensures WithVMID(WithVMID(disk, first).value, second) == WithVMID(disk, second)
  {
    WithVMIDRender(disk, first);
  }

  /** Renaming away and back to the vmid a name carries restores it, exactly when the
      name's two vmids agree. */
  lemma RenameBackRestores(disk: string, home: int, away: int)
    requires LegalVmid(home) && LegalVmid(away)
    requires MatchDisk(disk).Some? && MatchDisk(disk).value.vmid == Print(home)
    ensures WithVMID(WithVMID(disk, away).value, home) == Some(disk) <==> Consistent(disk)
  {
    LastRenameWins(disk, away, home);
    WithVMIDRender(disk, home);
    MatchIsParse(disk, MatchDisk(disk).value);
  }

  // -------------------------------------------------------------------- VMID

  function LeadingDigits(s: string): (d: string)
    ensures d <= s && AllDigits(d)
    ensures |d| < |s| ==> !IsDigit(s[|d|])
  {
    if s == "" || !IsDigit(s[0]) then ""
    else assert s == [s[0]] + s[1..]; [s[0]] + LeadingDigits(s[1..])
  }

  lemma {:induction false} LeadingDigitsAre(d: string, rest: string)
    requires AllDigits(d) && (rest == "" || !IsDigit(rest[0]))
    ensures LeadingDigits(d + rest) == d
    decreases |d|
  {
    if d == "" {
      assert d + rest == rest;
    } else {
      assert (d + rest)[0] == d[0] && (d + rest)[1..] == d[1..] + rest;
      LeadingDigitsAre(d[1..], rest);
    }
  }

  /** vm-<vmid> at the start of s, followed by a dash or the end. */
  function VmidHere(s: string): Option<string> {
    match After(s, "vm-")
    case None => None
    case Some(rest) =>
      var d := LeadingDigits(rest);
      var after := rest[|d|..];
      if VmidText(d) && (after == "" || after[0] == '-') then Some(d) else None
  }

  /** The leftmost match of (^|-|/)vm-([1-9][0-9]{2,8})(-|$) from a position that is
      the start of the text or not. */
  function FindVmid(s: string, atStart: bool): Option<string>
    decreases |s|, atStart
  {
    if atStart && VmidHere(s).Some? then VmidHere(s)
    else if s == "" then None
    else if s[0] in {'-', '/'} && VmidHere(s[1..]).Some? then VmidHere(s[1..])
    else FindVmid(s[1..], false)
  }

  /** The pattern matches at the start of s with this vmid. */
  predicate Matches(s: string, v: string) {
    VmidText(v) && HasPrefix(s, "vm-" + v) && (|s| == 3 + |v| || s[3 + |v|] == '-')
  }

  lemma VmidHereIs(s: string, v: string)
    ensures VmidHere(s) == Some(v) <==> Matches(s, v)
  {
    if Matches(s, v) {
      var rest := s[3 + |v|..];
      assert s == "vm-" + (v + rest);
      AfterPrefix("vm-", v + rest);
      LeadingDigitsAre(v, rest);
    }
  }

  /** A match at a position: the start of the text, or after a dash or a slash. */
  predicate MatchesAt(s: string, i: nat, v: string, atStart: bool) {
    i <= |s| && (if i == 0 then atStart else s[i - 1] in {'-', '/'}) && Matches(s[i..], v)
  }

  lemma Shifted(s: string, i: nat, v: string, atStart: bool)
    requires s != "" && 0 < i
    ensures MatchesAt(s, i, v, atStart) <==> MatchesAt(s[1..], i - 1, v, s[0] in {'-', '/'})
  {
    if i <= |s| { assert s[i..] == s[1..][i - 1..]; }
  }

  /** What the search finds is a vmid the pattern matches somewhere. */
  lemma {:induction false} FoundMatches(s: string, atStart: bool) returns (i: nat)
    requires FindVmid(s, atStart).Some?
    ensures MatchesAt(s, i, FindVmid(s, atStart).value, atStart)
    decreases |s|
  {
    hide Matches;
    var v := FindVmid(s, atStart).value;
    assert s[0..] == s;
    if atStart && VmidHere(s).Some? {
      VmidHereIs(s, v);
      i := 0;
    } else {
      hide VmidHere;
      var rest, next := s[1..], s[0] in {'-', '/'};
      if next && VmidHere(rest).Some? {
        VmidHereIs(rest, v);
        assert rest[0..] == rest;
        i := 1;
      } else {
        i := FoundMatches(rest, false);
        i := i + 1;
        Shifted(s, i, v, atStart);
      }
    }
  }

  /** Where it finds nothing the pattern matches nowhere. */
  lemma {:induction false} NotFoundMatchesNot(s: string, atStart: bool, i: nat, v: string)
    requires FindVmid(s, atStart).None?
    ensures !MatchesAt(s, i, v, atStart)
    decreases |s|
  {
    hide Matches;
    hide VmidHere;
    assert s[0..] == s;
    VmidHereIs(s, v);
    if i > 0 && s != "" {
      var rest := s[1..];
      Shifted(s, i, v, atStart);
      VmidHereIs(rest, v);
      assert rest[0..] == rest;
      NotFoundMatchesNot(rest, false, i - 1, v);
    }
  }

  function VMID(disk: string): string {
    match FindVmid(disk, true)
    case Some(v) => v
    case None => ""
  }

  lemma {:induction false} SkipDigits(d: string, rest: string, atStart: bool)
    requires AllDigits(d) && (d != "" || !atStart)
    ensures FindVmid(d + rest, atStart) == FindVmid(rest, false)
    decreases |d|
  {
    if d == "" {
      assert d + rest == rest;
    } else {
      assert (d + rest)[0] == d[0] && (d + rest)[1..] == d[1..] + rest;
      SkipDigits(d[1..], rest, false);
    }
  }

  lemma VmidHereFile(vmid: string, suffix: string)
    requires VmidText(vmid)
    ensures VmidHere(File(vmid, suffix)) == Some(vmid)
  {
    AfterPrefix("vm-", Glue(vmid, '-', suffix));
    assert Glue(vmid, '-', suffix) == vmid + ("-" + suffix);
    LeadingDigitsAre(vmid, "-" + suffix);
  }

  lemma VmidOfRender(p: Parts)
    requires WellFormed(p)
    ensures VMID(Render(p)) == p.vmid
  {
    var file := File(p.vmid, p.suffix);
    VmidHereFile(p.vmid, p.suffix);
    if p.dir.Some? {
      assert Render(p) == p.dir.value + ("/" + file);
      SkipDigits(p.dir.value, "/" + file, true);
      assert ("/" + file)[1..] == file;
    }
  }

  /** The unanchored vmid search and the anchored disk pattern name the same vmid. */
  lemma VmidOfDisk(disk: string)
    requires MatchDisk(disk).Some?
    ensures VMID(disk) == MatchDisk(disk).value.vmid
  {
    var p := MatchDisk(disk).value;
    MatchIsParse(disk, p);
    VmidOfRender(p);
  }

  // ---------------------------------------------------------------------- PV

  /** PV: the third dash-separated part up to its first dot. */
  function PV(disk: string): string {
    var parts := SplitN(disk, '-', 3);
    if |parts| != 3 then "" else SplitN(parts[2], '.', 2)[0]
  }

  /** The text before the dash that introduces the vmid. */
  function Head(p: Parts): string {
    if p.dir.Some? then Glue(p.dir.value, '/', "vm") else "vm"
  }

  lemma RenderFromHead(p: Parts)
    requires WellFormed(p)
    ensures Render(p) == Glue(Head(p), '-', Glue(p.vmid, '-', p.suffix)) && '-' !in Head(p)
  {
    var rest := Glue(p.vmid, '-', p.suffix);
    assert "vm-" + rest == Glue("vm", '-', rest);
    if p.dir.Some? {
      VmidTextPlain(p.dir.value);
      DirPrefix(p.dir.value, rest);
    }
  }

  lemma PVOfRender(p: Parts)
    requires WellFormed(p)
    ensures PV(Render(p)) == SplitN(p.suffix, '.', 2)[0]
  {
    hide Glue;
    hide Render;
    hide Head;
    hide Cut;
    var rest := Glue(p.vmid, '-', p.suffix);
    VmidTextPlain(p.vmid);
    CutGlue(p.vmid, '-', p.suffix);
    assert SplitN(rest, '-', 2) == [p.vmid, p.suffix];
    RenderFromHead(p);
    CutGlue(Head(p), '-', rest);
  }

  lemma DirPrefix(dir: string, rest: string)
    ensures Glue(dir, '/', Glue("vm", '-', rest)) == Glue(Glue(dir, '/', "vm"), '-', rest)
  {
    assert Glue("vm", '-', rest) == "vm" + ("-" + rest);
    GlueAppend(dir, '/', "vm", "-" + rest);
  }

  /** The PV name is the suffix up to its first dot. */
  lemma PVOfDisk(disk: string)
    requires MatchDisk(disk).Some?
    ensures PV(disk) == SplitN(DiskSuffix(disk), '.', 2)[0]
  {
    var p := MatchDisk(disk).value;
    MatchIsParse(disk, p);
    PVOfRender(p);
  }

  // ------------------------------------------------------------ suffix search

  /** The pattern FindVolumeBySuffix compiles, ^(?:V/)?vm-V-<suffix>$, read from the
      right: the quoted suffix first, then what is left of it. */
  predicate PatternAccepts(disk: string, suffix: string) {
    var tail := "-" + suffix;
    HasSuffix(disk, tail) &&
    match Cut(disk[..|disk| - |tail|], '/')
    case Some((dir, file)) => VmidText(dir) && VmidFile(file)
    case None => VmidFile(disk[..|disk| - |tail|])
  }

  predicate VmidFile(file: string) {
    match After(file, "vm-")
    case Some(vmid) => VmidText(vmid)
    case None => false
  }

  lemma FileTail(vmid: string, suffix: string)
    ensures File(vmid, suffix) == ("vm-" + vmid) + ("-" + suffix)
  {}

  lemma RenderFromTail(p: Parts)
    requires WellFormed(p)
    ensures var file := "vm-" + p.vmid;
            Render(p) == (if p.dir.Some? then Glue(p.dir.value, '/', file) else file) + ("-" + p.suffix)
  {
    FileTail(p.vmid, p.suffix);
    if p.dir.Some? { GlueAppend(p.dir.value, '/', "vm-" + p.vmid, "-" + p.suffix); }
  }

  lemma RenderAccepted(p: Parts)
    requires WellFormed(p)
    ensures PatternAccepts(Render(p), p.suffix)
  {
    hide Glue;
    hide Render;
    RenderFromTail(p);
    var disk, tail, file := Render(p), "-" + p.suffix, "vm-" + p.vmid;
    var head := if p.dir.Some? then Glue(p.dir.value, '/', file) else file;
    assert disk[|disk| - |tail|..] == tail && disk[..|disk| - |tail|] == head;
    AfterPrefix("vm-", p.vmid);
    VmidTextPlain(p.vmid);
    if p.dir.Some? {
      VmidTextPlain(p.dir.value);
      CutGlue(p.dir.value, '/', file);
    }
  }

  lemma PatternRead(disk: string, suffix: string) returns (p: Parts)
    requires suffix != "" && '\n' !in suffix && PatternAccepts(disk, suffix)
    ensures WellFormed(p) && p.suffix == suffix && disk == Render(p)
  {
    var tail := "-" + suffix;
    var head := disk[..|disk| - |tail|];
    var cut := Cut(head, '/');
    var file := if cut.Some? then cut.value.1 else head;
    var vmid := After(file, "vm-").value;
    p := Parts(if cut.Some? then Some(cut.value.0) else None, vmid, suffix);
    assert disk == head + tail;
    FileTail(vmid, suffix);
    if cut.Some? { GlueAppend(cut.value.0, '/', file, tail); }
  }

  /** The anchored pattern accepts a disk exactly when its suffix is the wanted one. */
  lemma PatternIsSuffix(disk: string, suffix: string)
    requires suffix != "" && '\n' !in suffix
    ensures PatternAccepts(disk, suffix) <==> DiskSuffix(disk) == suffix
  {
    hide PatternAccepts;
    hide MatchDisk;
    if DiskSuffix(disk) == suffix {
      MatchIsParse(disk, MatchDisk(disk).value);
      RenderAccepted(MatchDisk(disk).value);
    }
    if PatternAccepts(disk, suffix) {
      var p := PatternRead(disk, suffix);
      RenderMatches(p);
    }
  }

  /** Whether a listed volid is the disk looked for. */
  predicate Carries(volid: string, storage: string, suffix: string) {
    match Cut(volid, ':')
    case Some((st, disk)) => st == storage && DiskSuffix(disk) == suffix
    case None => false
  }

  lemma SuffixHasNoNewline(disk: string)
    ensures '\n' !in DiskSuffix(disk)
  {}

  /** One round of the search: the disk a listed volid names, if it is the one wanted. */
  function Wanted(volid: string, storage: string, suffix: string): (disk: Option<string>)
    requires suffix != "" && '\n' !in suffix
    ensures disk.Some? <==> Carries(volid, storage, suffix)
    ensures disk.Some? ==> volid == Glue(storage, ':', disk.value) && DiskSuffix(disk.value) == suffix
  {
    match Cut(volid, ':')
    case None => None
    case Some((st, disk)) =>
      PatternIsSuffix(disk, suffix);
      if st == storage && PatternAccepts(disk, suffix) then Some(disk) else None
  }

  /** FindVolumeBySuffix: the first listed disk of the storage with the same suffix,
      whatever vmid it is named for. Refused when the volume has no stable suffix. */
  method FindVolumeBySuffix(content: seq<string>, vol: Volume) returns (ok: bool, found: Option<Volume>)
    ensures ok <==> DiskSuffix(vol.disk) != ""
    ensures found.Some? ==>
              && ok && found.value == vol.(disk := found.value.disk)
              && DiskSuffix(found.value.disk) == DiskSuffix(vol.disk)
              && exists i :: (
                && 0 <= i < |content| && content[i] == Glue(vol.storage, ':', found.value.disk)
                && forall j :: 0 <= j < i ==> !Carries(content[j], vol.storage, DiskSuffix(vol.disk)))
    ensures found.None? && ok ==>
              forall i :: 0 <= i < |content| ==> !Carries(content[i], vol.storage, DiskSuffix(vol.disk))
  {
    hide *;
    var suffix := DiskSuffix(vol.disk);
    ok, found := suffix != "", None;
    if !ok { return; }
    SuffixHasNoNewline(vol.disk);
    for i := 0 to |content|
      invariant found.None? && forall j :: 0 <= j < i ==> !Carries(content[j], vol.storage, suffix)
    {
      var disk := Wanted(content[i], vol.storage, suffix);
      if disk.Some? {
        return true, Some(vol.(disk := disk.value));
      }
    }
  }
}

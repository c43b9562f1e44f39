/** Drive slots of a VM (pkg/tools/proxmox/csi_helpers.go): AttachVolume, UpdateVolume and
    DetachVolume on the text of its SCSI config lines. */
module Slots {
  import opened Strings
  import opened Decimal
  import opened Names

  type Options = map<string, string>

  function Lookup(o: Options, k: string): string { if k in o then o[k] else "" }

  // --------------------------------------------------------------- drive text

  /** A parameter of a drive line: a pair if it holds exactly one equals sign. */
  function Pair(param: string): Option<(string, string)> {
    var kv := Split(param, '=');
    if |kv| == 2 then Some((kv[0], kv[1])) else None
  }

  /** What a written pair reads as: itself exactly when neither part holds an equals sign. */
  lemma PairReads(k: string, v: string)
    ensures Pair(Glue(k, '=', v)) == Some((k, v)) <==> '=' !in k && '=' !in v
  {
    assert Join([k, v], '=') == Glue(k, '=', v) by { assert [k, v][1..] == [v]; }
    SplitJoin([k, v], '=');
    assert k in [k, v] && v in [k, v];
    hide Split;
    hide Glue;
  }

  function Volid(text: string): string { Split(text, ',')[0] }

  /** The first value a list of parameters gives a key, empty ones aside. */
  function First(params: seq<string>, k: string): string {
    if params == [] then ""
    else
      var p := Pair(params[0]);
      if p.Some? && p.value.0 == k && p.value.1 != "" then p.value.1 else First(params[1..], k)
  }

  function Setting(text: string, k: string): string { First(Split(text, ',')[1..], k) }

  lemma {:induction false} FirstMore(params: seq<string>, p: string, k: string)
    ensures First(params + [p], k) ==
      if First(params, k) != "" then First(params, k)
      else if Pair(p).Some? && Pair(p).value.0 == k then Pair(p).value.1 else ""
  {
    hide Pair;
    if params != [] {
      assert (params + [p])[1..] == params[1..] + [p];
      FirstMore(params[1..], p, k);
    }
  }

  predicate Clean(s: string) { ',' !in s && '=' !in s }

  predicate CleanOptions(o: Options) { forall k :: k in o ==> Clean(k) && Clean(o[k]) }

  /** The drive line says this. */
  ghost predicate Says(text: string, volid: string, o: Options) {
    Volid(text) == volid && forall k :: Setting(text, k) == Lookup(o, k)
  }

  lemma SaysWwn(text: string, volid: string, o: Options)
    requires Says(text, volid, o) && "wwn" in o
    ensures Setting(text, "wwn") == o["wwn"]
  {
    assert Setting(text, "wwn") == Lookup(o, "wwn");
  }

  lemma LineReads(volid: string, params: seq<string>)
    requires ',' !in volid && params != [] && forall p :: p in params ==> ',' !in p
    ensures Split(Glue(volid, ',', Join(params, ',')), ',') == [volid] + params
  {
    CutGlue(volid, ',', Join(params, ','));
    SplitOfJoin(params, ',');
    hide Glue;
    hide Cut;
  }

  lemma BareLineReads(volid: string)
    requires ',' !in volid
    ensures Split(Glue(volid, ',', ""), ',') == [volid, ""] && Pair("").None?
  {
    CutGlue(volid, ',', "");
  }

  /** All that follows the volume in the line reads as pairs. */
  ghost predicate AllPairs(text: string) {
    forall p :: p in Split(text, ',')[1..] ==> p == "" || Pair(p).Some?
  }

  /** Parameters that give exactly the options of these keys. */
  ghost predicate Gives(params: seq<string>, o: Options, left: set<string>) {
    && (forall p :: p in params ==> ',' !in p && Pair(p).Some?)
    && forall k :: First(params, k) == if k in left then "" else Lookup(o, k)
  }

  lemma GivesMore(params: seq<string>, o: Options, left: set<string>, k: string)
    requires Gives(params, o, left) && k in left && left <= o.Keys && CleanOptions(o)
    ensures Gives(params + [Glue(k, '=', o[k])], o, left - {k})
  {
    hide First;
    PairReads(k, o[k]);
    hide Pair;
    assert ',' !in Glue(k, '=', o[k]);
    forall x { FirstMore(params, Glue(k, '=', o[k]), x); }
  }

  lemma LineSays(volid: string, params: seq<string>, o: Options)
    requires ',' !in volid && Gives(params, o, {})
    ensures var text := Glue(volid, ',', Join(params, ',')); Says(text, volid, o) && AllPairs(text)
  {
    var text := Glue(volid, ',', Join(params, ','));
    if params == [] {
      BareLineReads(volid);
      assert Split(text, ',')[1..] == [""];
      forall k ensures First([""], k) == "" == Lookup(o, k) {
        assert First(params, k) == Lookup(o, k);
        assert [""][1..] == [];
      }
    } else {
      LineReads(volid, params);
      assert Split(text, ',')[1..] == params;
    }
    hide Split;
    hide Pair;
  }

  /** The options as k=v parameters, in any order, after the volume. */
  method WriteLine(volid: string, o: Options) returns (text: string)
    ensures ',' !in volid && CleanOptions(o) ==> Says(text, volid, o) && AllPairs(text)
  {
    var params: seq<string> := [];
    var todo := o.Keys;
    assert Gives(params, o, todo);
    hide Gives;
    while todo != {}
      invariant todo <= o.Keys && (CleanOptions(o) ==> Gives(params, o, todo))
    {
      var k :| k in todo;
      if CleanOptions(o) { GivesMore(params, o, todo, k); }
      todo := todo - {k};
      params := params + [Glue(k, '=', o[k])];
    }
    text := Glue(volid, ',', Join(params, ','));
    if ',' !in volid && CleanOptions(o) { LineSays(volid, params, o); }
  }

  // --------------------------------------------------------------------- wwn

  function HexDigit(d: nat): (c: char)
    requires d < 16
    ensures ',' != c && '=' != c
  {
    if d < 10 then '0' + d as char else 'a' + (d - 10) as char
  }

  predicate Ascii(s: string) { forall i :: 0 <= i < |s| ==> s[i] as int < 128 }

  /** hex.EncodeToString of ASCII text. */
  function Hex(s: string): string
    requires Ascii(s)
  {
    if s == "" then "" else [HexDigit(s[0] as int / 16), HexDigit(s[0] as int % 16)] + Hex(s[1..])
  }

  lemma {:induction false} HexInjective(s: string, t: string)
    requires Ascii(s) && Ascii(t)
    requires Hex(s) == Hex(t)
    ensures s == t
  {
    if s != "" && t != "" {
      var x, y := Hex(s), Hex(t);
      assert x[0] == HexDigit(s[0] as int / 16) && x[1] == HexDigit(s[0] as int % 16) && x[2..] == Hex(s[1..]);
      assert y[0] == HexDigit(t[0] as int / 16) && y[1] == HexDigit(t[0] as int % 16) && y[2..] == Hex(t[1..]);
      HexInjective(s[1..], t[1..]);
      assert s == [s[0]] + s[1..] && t == [t[0]] + t[1..];
    }
  }

  lemma {:induction false} HexClean(s: string)
    requires Ascii(s)
    ensures Clean(Hex(s))
  {
    if s != "" { HexClean(s[1..]); }
  }

  /** fmt.Sprintf("PVC-ID%02d", lun). */
  function LunText(lun: nat): string {
    "PVC-ID" + (if lun < 10 then "0" else "") + PrintNat(lun)
  }

  lemma LunTextAscii(lun: nat)
    ensures Ascii(LunText(lun))
  {
    var n := PrintNat(lun);
    forall i | 0 <= i < |n| ensures n[i] as int < 128 { assert IsDigit(n[i]); }
  }

  function WwnHex(lun: nat): string { LunTextAscii(lun); Hex(LunText(lun)) }

  function Wwn(lun: nat): string { "0x" + WwnHex(lun) }

  function DevicePath(lun: nat): string { "/dev/disk/by-id/wwn-" + Wwn(lun) }

  lemma WwnSpellsTheLun()
    ensures Hex("P") == "50" && Hex("-") == "2d" && Hex("J") == "4a"
    ensures LunText(7) == "PVC-ID07" && LunText(12) == "PVC-ID12"
  {
    assert Hex("P")[..2] == Hex("P") && Hex("-")[..2] == Hex("-") && Hex("J")[..2] == Hex("J");
    assert PrintNat(7) == "7" && PrintNat(1) == "1" && PrintNat(12) == "1" + "2";
  }

  /** Slots of different luns have different wwns and device paths. */
  lemma DevicePathInjective(l: nat, m: nat)
    requires l < 100 && m < 100 && (DevicePath(l) == DevicePath(m) || Wwn(l) == Wwn(m))
    ensures l == m
  {
    LunTextAscii(l);
    LunTextAscii(m);
    var a, b := WwnHex(l), WwnHex(m);
    var n := |"/dev/disk/by-id/wwn-"|;
    assert DevicePath(l)[n..] == Wwn(l) && DevicePath(m)[n..] == Wwn(m);
    assert Wwn(l)[2..] == a && Wwn(m)[2..] == b;
    HexInjective(LunText(l), LunText(m));
    LunTextInjective(l, m);
  }

  lemma LunTextInjective(l: nat, m: nat)
    requires LunText(l) == LunText(m)
    ensures l == m
  {
    var a, b := (if l < 10 then "0" else "") + PrintNat(l), (if m < 10 then "0" else "") + PrintNat(m);
    assert LunText(l)[6..] == a && LunText(m)[6..] == b;
    if l < 10 && m < 10 {
      assert a[1..] == PrintNat(l) && b[1..] == PrintNat(m);
    }
    ParsePrintNat(l);
    ParsePrintNat(m);
  }

  lemma WwnClean(lun: nat)
    ensures Clean(Wwn(lun)) && Wwn(lun) != ""
  {
    LunTextAscii(lun);
    HexClean(LunText(lun));
  }

  lemma OptionsClean(o: Options, lun: nat)
    requires CleanOptions(o)
    ensures CleanOptions(o["wwn" := Wwn(lun)])
  {
    WwnClean(lun);
    hide Wwn;
  }

  // ------------------------------------------------------------- the merge

  /** The loop of UpdateVolume over a line's parameters. */
  function Absorb(o: Options, params: seq<string>): Options
    decreases |params|
  {
    if params == [] then o
    else
      var p := Pair(params[0]);
      Absorb(if p.Some? && Lookup(o, p.value.0) == "" then o[p.value.0 := p.value.1] else o, params[1..])
  }

  /** What an option is after the merge: the caller's, else the line's. */
  lemma {:induction false} AbsorbLookup(o: Options, params: seq<string>, k: string)
    ensures Lookup(Absorb(o, params), k) == if Lookup(o, k) != "" then Lookup(o, k) else First(params, k)
    decreases |params|
  {
    hide Pair;
    if params != [] {
      var p := Pair(params[0]);
      AbsorbLookup(if p.Some? && Lookup(o, p.value.0) == "" then o[p.value.0 := p.value.1] else o, params[1..], k);
    }
  }

  lemma PairClean(param: string)
    requires ',' !in param && Pair(param).Some?
    ensures Clean(Pair(param).value.0) && Clean(Pair(param).value.1)
  {
    JoinSplit(param, '=');
    var kv := Split(param, '=');
    assert kv[1..] == [kv[1]];
    assert kv[0] in kv && kv[1] in kv;
    assert param == Glue(kv[0], '=', kv[1]);
  }

  lemma {:induction false} AbsorbClean(o: Options, params: seq<string>)
    requires CleanOptions(o) && forall p :: p in params ==> ',' !in p
    ensures CleanOptions(Absorb(o, params))
    decreases |params|
  {
    if params != [] {
      var p := Pair(params[0]);
      if p.Some? { PairClean(params[0]); }
      hide Pair;
      AbsorbClean(if p.Some? && Lookup(o, p.value.0) == "" then o[p.value.0 := p.value.1] else o, params[1..]);
    }
  }

  // ------------------------------------------------------------------ volumes

  datatype Vol = Vol(storage: string, disk: string)

  function VolidOf(v: Vol): string { Glue(v.storage, ':', v.disk) }

  /** VolumeMatch: the part a rename leaves alone, or the whole name. */
  function Match(v: Vol): string { if DiskSuffix(v.disk) != "" then DiskSuffix(v.disk) else v.disk }

  /** A volume is matched alike under every vmid it is renamed to. */
  lemma RenameKeepsMatch(v: Vol, vmid: int)
    requires LegalVmid(vmid) && WithVMID(v.disk, vmid).Some?
    ensures Match(v.(disk := WithVMID(v.disk, vmid).value)) == Match(v)
  {
    RenameKeepsIdentity(v.disk, vmid);
    hide WithVMID;
    hide DiskSuffix;
  }

  lemma ContainsEnd(a: string, b: string)
    ensures Contains(a + b, b)
  {
    assert PresentAt(a + b, |a|, b);
  }

  lemma ContainsMore(s: string, t: string, m: string)
    requires Contains(s, m)
    ensures Contains(s + t, m) && Contains(t + s, m)
  {
    var i :| 0 <= i <= |s| && PresentAt(s, i, m);
    assert (s + t)[i..i + |m|] == s[i..i + |m|];
    assert (t + s)[|t| + i..|t| + i + |m|] == s[i..i + |m|];
    assert PresentAt(s + t, i, m) && PresentAt(t + s, |t| + i, m);
  }

  /** A volume's own line matches it. */
  lemma OwnMatch(v: Vol)
    ensures Contains(VolidOf(v), Match(v))
  {
    var suffix := DiskSuffix(v.disk);
    if suffix != "" {
      var p := MatchDisk(v.disk).value;
      MatchIsParse(v.disk, p);
      var file := File(p.vmid, p.suffix);
      FileTail(p.vmid, p.suffix);
      assert file == "vm-" + p.vmid + "-" + p.suffix;
      ContainsEnd("vm-" + p.vmid + "-", p.suffix);
      if p.dir.Some? { ContainsMore(file, p.dir.value + "/", p.suffix); }
      assert p.dir.Some? ==> v.disk == p.dir.value + "/" + file;
    } else {
      assert v.disk == "" + v.disk;
      ContainsEnd("", v.disk);
    }
    assert VolidOf(v) == (v.storage + ":") + v.disk;
    ContainsMore(v.disk, v.storage + ":", Match(v));
  }

  lemma LineMatches(text: string, m: string)
    requires Contains(Volid(text), m)
    ensures Contains(text, m)
  {
    JoinSplit(text, ',');
    var parts := Split(text, ',');
    if |parts| > 1 {
      assert text == parts[0] + ("," + Join(parts[1..], ','));
      ContainsMore(parts[0], "," + Join(parts[1..], ','), m);
    }
  }

  ghost predicate SlotOk(l: nat, line: string, v: Vol) {
    1 <= l < 30 && Match(v) != "" && Volid(line) == VolidOf(v) && Setting(line, "wwn") == Wwn(l)
  }

  /** Each CSI slot is one of 1..29 and has the very disk it was attached for and the wwn of its
      own lun; no volume has two, whatever vmids it is named for. */
  ghost predicate SlotsOk(drives: map<nat, string>, owner: map<nat, Vol>) {
    && (forall l :: l in owner ==> l in drives && SlotOk(l, drives[l], owner[l]))
    && (forall l, m :: l in owner && m in owner && Match(owner[l]) == Match(owner[m]) ==> l == m)
  }

  class VM {
    var drives: map<nat, string>
    /** The volume each CSI slot was attached for, under the name it had then. */
    ghost var owner: map<nat, Vol>

    ghost predicate Inv()
      reads this
    {
      SlotsOk(drives, owner)
    }

    /** Only a volume's own line matches it, under whichever name it was attached. */
    ghost predicate Apart(v: Vol)
      reads this
    {
      forall l :: l in drives && Contains(drives[l], Match(v)) ==> l in owner && Match(owner[l]) == Match(v)
    }

    /** IsVolumeAttached. */
    method FindSlot(m: string) returns (r: Option<nat>)
      ensures r.Some? ==> m != "" && r.value in drives && Contains(drives[r.value], m)
      ensures r.None? ==> m == "" || forall l :: l in drives ==> !Contains(drives[l], m)
    {
      if m == "" { return None; }
      var todo := drives.Keys;
      while todo != {}
        invariant todo <= drives.Keys
        invariant forall l :: l in drives && l !in todo ==> !Contains(drives[l], m)
      {
        var l :| l in todo;
        todo := todo - {l};
        if Contains(drives[l], m) { return Some(l); }
      }
      r := None;
    }

    predicate Free(l: nat)
      reads this
    {
      l !in drives || drives[l] == ""
    }

    ghost predicate Full()
      reads this
    {
      forall l :: 1 <= l < 30 ==> !Free(l)
    }

    ghost predicate FirstFree(lun: nat)
      reads this
    {
      1 <= lun < 30 && Free(lun) && forall l :: 1 <= l < lun ==> !Free(l)
    }

    ghost predicate Attached(m: string)
      reads this
    {
      m != "" && exists l :: l in drives && Contains(drives[l], m)
    }

    method FindFree() returns (lun: nat)
      ensures if lun < 30 then FirstFree(lun) && !Full() else Full()
    {
      lun := 1;
      while lun < 30
        invariant 1 <= lun <= 30 && forall l :: 1 <= l < lun ==> !Free(l)
      {
        if Free(lun) { return; }
        lun := lun + 1;
      }
    }

    /** AttachVolume: the slot the volume is in, or the first free one of 1..29. */
    method Attach(v: Vol, o: Options) returns (r: Option<(string, nat)>)
      modifies this
      ensures r.Some? ==> r.value.0 == DevicePath(r.value.1)
      ensures old(Attached(Match(v))) ==>
        && drives == old(drives) && owner == old(owner)
        && r.Some? && r.value.1 in drives && Contains(drives[r.value.1], Match(v))
      ensures !old(Attached(Match(v))) ==> (r.None? <==> old(Full()))
      ensures r.None? ==> drives == old(drives) && owner == old(owner)
      ensures !old(Attached(Match(v))) && r.Some? ==>
        && old(FirstFree(r.value.1)) && r.value.1 in drives
        && drives == old(drives)[r.value.1 := drives[r.value.1]] && owner == old(owner)[r.value.1 := v]
        && (',' !in VolidOf(v) && CleanOptions(o) ==>
              && Says(drives[r.value.1], VolidOf(v), o["wwn" := Wwn(r.value.1)])
              && r.value.0 == "/dev/disk/by-id/wwn-" + Setting(drives[r.value.1], "wwn"))
    {
      hide Contains;
      hide Says;
      hide Wwn;
      hide VolidOf;
      hide AllPairs;
      hide Match;
      hide CleanOptions;
      hide FirstFree;
      hide Full;
      var at := FindSlot(Match(v));
      if at.Some? { return Some((DevicePath(at.value), at.value)); }
      var lun := FindFree();
      if lun >= 30 { return None; }
      if CleanOptions(o) { OptionsClean(o, lun); }
      var text := WriteLine(VolidOf(v), o["wwn" := Wwn(lun)]);
      if ',' !in VolidOf(v) && CleanOptions(o) { SaysWwn(text, VolidOf(v), o["wwn" := Wwn(lun)]); }
      drives := drives[lun := text];
      owner := owner[lun := v];
      r := Some((DevicePath(lun), lun));
    }

    /** UpdateVolume: the line keeps its volume, every option the caller does not give keeps
        its value, and what does not read as a pair is lost. */
    method Update(v: Vol, o: Options) returns (ok: bool)
      modifies `drives
      ensures ok <==> old(Attached(Match(v)))
      ensures !ok ==> drives == old(drives)
      ensures ok ==> exists l ::
        && l in old(drives) && Contains(old(drives)[l], Match(v)) && l in drives
        && drives == old(drives)[l := drives[l]]
        && (CleanOptions(o) ==> Updated(old(drives)[l], o, drives[l]))
    {
      hide Contains;
      hide Updated;
      var at := FindSlot(Match(v));
      if at.None? { return false; }
      var text := UpdateLine(drives[at.value], o);
      drives := drives[at.value := text];
      ok := true;
    }

    /** DetachVolume: the matching line goes; a VM that has none is left alone. */
    method Detach(v: Vol)
      modifies this
      ensures !old(Attached(Match(v))) ==> drives == old(drives) && owner == old(owner)
      ensures old(Attached(Match(v))) ==> exists l ::
        && l in old(drives) && Contains(old(drives)[l], Match(v))
        && drives == old(drives) - {l} && owner == old(owner) - {l}
    {
      hide Contains;
      var at := FindSlot(Match(v));
      if at.Some? {
        drives := drives - {at.value};
        owner := owner - {at.value};
      }
    }
  }

  ghost predicate Updated(was: string, o: Options, now: string) {
    && Volid(now) == Volid(was) && AllPairs(now)
    && forall k :: Setting(now, k) == if Lookup(o, k) != "" then Lookup(o, k) else Setting(was, k)
  }

  lemma LineParts(text: string)
    ensures ',' !in Volid(text) && forall p :: p in Split(text, ',')[1..] ==> ',' !in p
  {
    JoinSplit(text, ',');
    assert Split(text, ',')[0] in Split(text, ',');
  }

  method UpdateLine(line: string, options: Options) returns (text: string)
    ensures CleanOptions(options) ==> Updated(line, options, text)
  {
    var params := Split(line, ',');
    var o := options;
    for i := 1 to |params|
      invariant Absorb(o, params[i..]) == Absorb(options, params[1..])
    {
      var kv := Split(params[i], '=');
      assert params[i..][0] == params[i] && params[i..][1..] == params[i + 1..];
      if |kv| == 2 && Lookup(o, kv[0]) == "" {
        o := o[kv[0] := kv[1]];
      }
    }
    assert params[|params|..] == [];
    text := WriteLine(params[0], o);
    LineParts(line);
    if CleanOptions(options) {
      AbsorbClean(options, params[1..]);
      forall k { AbsorbLookup(options, params[1..], k); }
    }
  }

  // ------------------------------------------------------------------ results

  lemma OwnLineMatches(drives: map<nat, string>, owner: map<nat, Vol>, l: nat)
    requires SlotsOk(drives, owner) && l in owner
    ensures l in drives && Contains(drives[l], Match(owner[l]))
  {
    OwnMatch(owner[l]);
    hide Match;
    hide Contains;
    LineMatches(drives[l], Match(owner[l]));
  }

  lemma AttachKeeps(drives: map<nat, string>, owner: map<nat, Vol>, l: nat, line: string, v: Vol, o: Options)
    requires SlotsOk(drives, owner) && 1 <= l < 30 && Match(v) != ""
    requires Says(line, VolidOf(v), o) && Lookup(o, "wwn") == Wwn(l)
    requires forall m :: m in drives ==> !Contains(drives[m], Match(v))
    ensures SlotsOk(drives[l := line], owner[l := v])
  {
    hide Contains;
    hide Setting;
    hide Wwn;
    hide VolidOf;
    hide Match;
    OwnMatch(v);
    assert SlotOk(l, line, v) by { assert Setting(line, "wwn") == Lookup(o, "wwn"); }
    hide SlotOk;
    hide Says;
    forall m | m in owner ensures Match(owner[m]) != Match(v) {
      OwnLineMatches(drives, owner, m);
    }
  }

  lemma UpdateKeeps(drives: map<nat, string>, owner: map<nat, Vol>, l: nat, line: string, o: Options)
    requires SlotsOk(drives, owner) && l in drives && Updated(drives[l], o, line) && Lookup(o, "wwn") == ""
    ensures SlotsOk(drives[l := line], owner)
  {
    assert Setting(line, "wwn") == Setting(drives[l], "wwn");
    hide Setting;
    hide Contains;
    hide Wwn;
  }

  datatype Call =
    | AttachCall(v: Vol, o: Options)
    | UpdateCall(v: Vol, o: Options)
    | DetachCall(v: Vol)

  /** Names and options hold no comma and options no equals sign, and an update does not set
      the wwn. */
  predicate Legal(c: Call) {
    && Match(c.v) != "" && ',' !in VolidOf(c.v)
    && (!c.DetachCall? ==> CleanOptions(c.o)) && (c.UpdateCall? ==> Lookup(c.o, "wwn") == "")
  }

  method ServeOne(vm: VM, c: Call)
    requires vm.Inv() && Legal(c)
    modifies vm
    ensures vm.Inv()
  {
    hide SlotOk;
    hide Contains;
    hide Updated;
    hide Says;
    hide Match;
    match c
    case AttachCall(v, o) =>
      ghost var was, owned, attached := vm.drives, vm.owner, vm.Attached(Match(v));
      var r := vm.Attach(v, o);
      if !attached && r.Some? {
        AttachKeeps(was, owned, r.value.1, vm.drives[r.value.1], v, o["wwn" := Wwn(r.value.1)]);
      }
    case UpdateCall(v, o) =>
      ghost var was := vm.drives;
      var ok := vm.Update(v, o);
      if ok {
        ghost var l :| l in was && l in vm.drives && vm.drives == was[l := vm.drives[l]] &&
          Updated(was[l], o, vm.drives[l]);
        UpdateKeeps(was, vm.owner, l, vm.drives[l], o);
      }
    case DetachCall(v) => vm.Detach(v);
  }

  /** Over every sequence of attaches, updates and detaches, each under any name of its volume,
      each volume has at most one slot, in 1..29, with the wwn of its own lun. */
  method Serve(vm: VM, calls: seq<Call>)
    requires vm.Inv()
    modifies vm
    ensures vm.Inv()
  {
    for i := 0 to |calls|
      invariant vm.Inv()
    {
      if Legal(calls[i]) { ServeOne(vm, calls[i]); }
    }
  }

  /** The path an attach answers with is that of the wwn on the slot's line. */
  lemma SlotHasItsPath(drives: map<nat, string>, owner: map<nat, Vol>, l: nat)
    requires SlotsOk(drives, owner) && l in owner
    ensures DevicePath(l) == "/dev/disk/by-id/wwn-" + Setting(drives[l], "wwn")
  {
    hide Wwn;
  }

  /** Two CSI slots of a VM have different volumes and different device paths. */
  lemma SlotsAreDistinct(drives: map<nat, string>, owner: map<nat, Vol>, l: nat, m: nat)
    requires SlotsOk(drives, owner) && l in owner && m in owner && l != m
    ensures Match(owner[l]) != Match(owner[m])
    ensures DevicePath(l) != DevicePath(m) && Setting(drives[l], "wwn") != Setting(drives[m], "wwn")
  {
    if DevicePath(l) == DevicePath(m) || Wwn(l) == Wwn(m) { DevicePathInjective(l, m); }
    hide Contains;
    hide Wwn;
    hide DevicePath;
  }

  /** Attaching an attached volume, under the name in its slot or another it was renamed from or
      to, answers with the lun it has. */
  method AttachAgain(vm: VM, v: Vol, o: Options) returns (r: Option<(string, nat)>)
    requires vm.Inv() && Match(v) != "" && vm.Apart(v)
    modifies vm
    ensures forall l :: l in old(vm.owner) && Match(old(vm.owner)[l]) == Match(v) ==>
      r == Some((DevicePath(l), l)) && vm.drives == old(vm.drives) && vm.owner == old(vm.owner)
  {
    ghost var was, owned := vm.drives, vm.owner;
    forall l | l in owned ensures l in was && Contains(was[l], Match(owned[l])) { OwnLineMatches(was, owned, l); }
    hide SlotOk;
    hide Contains;
    r := vm.Attach(v, o);
  }
}

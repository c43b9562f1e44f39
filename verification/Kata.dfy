/** Kata direct-assigned volumes: the node service's stage, publish, unpublish and unstage
    calls (pkg/csi/node.go) with the hand-over to a Kata VM and back (pkg/csi/kata.go).

    A filesystem is mounted either on the node or inside a VM. The node is an object whose
    mount table and description directory the calls update; every foreign call a method makes
    can fail, and the process can die before each of its effects. */
module Kata {
  import opened Strings

  const EXT4 := "ext4"
  const XFS := "xfs"

  datatype Mount = Mount(device: string, fsType: string, options: seq<string>)

  /** mountInfo.json of a direct-assigned volume, with the driver's own metadata. */
  datatype Info = Info(device: string, fsType: string, staging: string, stageOptions: string)

  /** What the requests on one volume and pod carry. */
  datatype Request = Request(
    staging: string, target: string, fsType: string, flags: seq<string>, ssd: bool,
    optOut: bool, kataPod: Option<bool>)

  datatype Site =
    ReadInfo | Scan | Lookup | Probe | ListMounts | Unmount | WriteInfo | MakeTarget | Remount | RemoveInfo

  datatype Outcome = Ok | Refused | Failed(at: Site) | Died

  /** Which foreign calls fail in one RPC, which descriptions a scan cannot read, and before
      which effect the process dies (0 for never). */
  datatype Faults = Faults(failing: set<Site>, unreadable: set<string>, dies: nat)

  const CALM := Faults({}, {}, 0)

  /** collectMountOptions. */
  function MountOptions(req: Request): seq<string> {
    req.flags + (if req.ssd then ["noatime"] else []) + (if FsType(req) == XFS then ["nouuid"] else [])
  }

  function FsType(req: Request): string {
    if req.fsType != "" then req.fsType else EXT4
  }

  /** splitOptions. */
  function SplitOptions(s: string): seq<string> {
    if s == "" then [] else Split(s, ',')
  }

  /** A description keeps the options joined; reading them back gives the same list exactly
      when no option holds a comma and the list is not one empty option. */
  lemma OptionsReadBack(opts: seq<string>)
    ensures SplitOptions(Join(opts, ',')) == opts <==> opts != [""] && forall o :: o in opts ==> ',' !in o
  {
    SplitJoin(opts, ',');
    if |opts| > 1 { assert Join(opts, ',') != ""; }
  }

  /** What a path is for: a volume's staging path, with the device of that volume, or the
      target path of a pod, which is in a Kata VM or is not. */
  datatype Role = Staging(device: string) | KataTarget | PlainTarget

  type Mounts = map<string, Mount>
  type Infos = map<string, Info>

  /** The description publishKata writes. */
  function InfoOf(req: Request, device: string): Info {
    Info(device, FsType(req), req.staging, Join(MountOptions(req), ','))
  }

  function StageMount(req: Request, device: string): Mount {
    Mount(device, FsType(req), MountOptions(req))
  }

  /** The mount a request asks for: the device, under the type asked for or ext4; the flags asked
      for in their order, then noatime for an ssd and nouuid for xfs, and nothing else. */
  predicate Asked(req: Request, device: string, m: Mount) {
    && m.device == device && m.fsType == (if req.fsType == "" then "ext4" else req.fsType)
    && |req.flags| <= |m.options| && m.options[..|req.flags|] == req.flags
    && var added := m.options[|req.flags|..];
       && (forall o :: o in added ==> o in {"noatime", "nouuid"})
       && ("noatime" in added <==> req.ssd) && ("nouuid" in added <==> m.fsType == "xfs")
       && (forall i, j :: 0 <= i < j < |added| ==> added[i] != added[j])
  }

  lemma Added(ssd: bool, xfs: bool)
    ensures var added := (if ssd then ["noatime"] else []) + (if xfs then ["nouuid"] else []);
      && (forall o :: o in added ==> o in {"noatime", "nouuid"})
      && ("noatime" in added <==> ssd) && ("nouuid" in added <==> xfs)
      && (forall i, j :: 0 <= i < j < |added| ==> added[i] != added[j])
  {
    assert "noatime"[1] != "nouuid"[1] || "noatime"[2] != "nouuid"[2];
    assert ["noatime"] + ["nouuid"] == ["noatime", "nouuid"];
  }

  lemma StageMountIsAsked(req: Request, device: string)
    ensures Asked(req, device, StageMount(req, device))
  {
    var opts, xfs := MountOptions(req), FsType(req) == XFS;
    var added := (if req.ssd then ["noatime"] else []) + (if xfs then ["nouuid"] else []);
    assert opts == req.flags + added;
    assert opts[..|req.flags|] == req.flags && opts[|req.flags|..] == added;
    Added(req.ssd, xfs);
  }

  /** The description of the volume for the request: it is of the mount the request asks for. */
  ghost predicate Tells(req: Request, device: string, info: Info) {
    && info.device == device && info.staging == req.staging
    && exists opts :: info.stageOptions == Join(opts, ',') && Asked(req, device, Mount(device, info.fsType, opts))
  }

  lemma InfoTells(req: Request, device: string)
    ensures Tells(req, device, InfoOf(req, device))
  {
    StageMountIsAsked(req, device);
    hide Asked;
    hide Join;
    var opts := MountOptions(req);
    assert Asked(req, device, Mount(device, InfoOf(req, device).fsType, opts));
  }

  predicate Holder(infos: Infos, t: string, staging: string) {
    t in infos && infos[t].staging == staging
  }

  /** A node at one moment: the driver's mounts and descriptions, the running VMs by target path
      with the device they have mounted, the targets whose pod is being torn down, and what
      every path is for. */
  datatype View = View(
    mounts: Mounts, infos: Infos, vms: map<string, string>, retired: set<string>, role: string -> Role)

  ghost predicate RolesOk(role: string -> Role) {
    forall a, b :: role(a).Staging? && role(b).Staging? && role(a).device == role(b).device ==> a == b
  }

  ghost predicate InfosOk(n: View) {
    && (forall t :: t in n.infos ==>
          && n.role(t) == KataTarget && n.role(n.infos[t].staging).Staging?
          && n.infos[t].device == n.role(n.infos[t].staging).device)
    && (forall t, u :: t in n.infos && u in n.infos && n.infos[t].staging == n.infos[u].staging ==> t == u)
  }

  ghost predicate MountsOk(n: View) {
    forall p :: p in n.mounts ==>
      !n.role(p).KataTarget? && (n.role(p).Staging? ==> n.mounts[p].device == n.role(p).device)
  }

  /** A volume handed over, and not on its way back, is mounted nowhere on the node. */
  ghost predicate HandedOver(n: View) {
    forall t, p :: t in n.infos && t !in n.retired && p in n.mounts ==> n.mounts[p].device != n.infos[t].device
  }

  ghost predicate VmsOk(n: View) {
    forall t :: t in n.vms ==> t in n.infos && t !in n.retired && n.vms[t] == n.infos[t].device
  }

  ghost predicate NodeOk(n: View) {
    RolesOk(n.role) && InfosOk(n) && MountsOk(n) && HandedOver(n) && VmsOk(n)
  }

  lemma RemoveMount(n: View, p: string)
    requires NodeOk(n)
    ensures NodeOk(n.(mounts := n.mounts - {p}))
  {}

  /** Mounting a device is harmless exactly when no volume in a VM's hands has it. */
  lemma AddMount(n: View, p: string, m: Mount)
    requires NodeOk(n) && !n.role(p).KataTarget? && (n.role(p).Staging? ==> m.device == n.role(p).device)
    ensures NodeOk(n.(mounts := n.mounts[p := m])) <==>
      forall t :: t in n.infos && t !in n.retired ==> n.infos[t].device != m.device
  {
    var n' := n.(mounts := n.mounts[p := m]);
    if NodeOk(n') {
      forall t | t in n.infos && t !in n.retired ensures n.infos[t].device != m.device {
        assert n'.mounts[p] == m;
      }
    }
  }

  /** A Kata pod's volume, mounted at its staging path and nowhere else. */
  ghost predicate Alone(n: View, req: Request, device: string) {
    && n.role(req.target) == KataTarget && n.role(req.staging) == Staging(device) && req.target !in n.infos
    && req.staging in n.mounts && n.mounts[req.staging].device == device
    && (forall p :: p in n.mounts && n.mounts[p].device == device ==> p == req.staging)
  }

  /** The volume's description takes the place of its staging mount. */
  function Described(n: View, req: Request, device: string): View {
    n.(mounts := n.mounts - {req.staging}, infos := n.infos[req.target := InfoOf(req, device)])
  }

  lemma FirstInfo(n: View, req: Request, device: string)
    requires NodeOk(n) && Alone(n, req, device) && forall t :: t in n.infos ==> n.infos[t].staging != req.staging
    ensures NodeOk(Described(n, req, device))
  {}

  lemma SecondInfo(n: View, req: Request, device: string, t: string)
    requires t in n.infos && n.infos[t].staging == req.staging && req.target !in n.infos
    ensures !NodeOk(Described(n, req, device))
  {
    var n' := Described(n, req, device);
    assert n'.infos[t].staging == n'.infos[req.target].staging;
    assert !InfosOk(n');
  }

  /** A description in place of the staging mount is sound exactly when it is the volume's only
      one. */
  lemma AddInfo(n: View, req: Request, device: string)
    requires NodeOk(n) && Alone(n, req, device)
    ensures NodeOk(Described(n, req, device)) <==> forall t :: !Holder(n.infos, t, req.staging)
  {
    hide NodeOk;
    if t :| Holder(n.infos, t, req.staging) {
      SecondInfo(n, req, device, t);
    } else {
      forall t | t in n.infos ensures n.infos[t].staging != req.staging { assert !Holder(n.infos, t, req.staging); }
      FirstInfo(n, req, device);
    }
  }

  lemma PutBack(n: View, req: Request, device: string)
    requires NodeOk(n) && Alone(n, req, device)
    ensures NodeOk(n.(mounts := n.mounts[req.staging := StageMount(req, device)]))
  {
    AddMount(n, req.staging, StageMount(req, device));
  }

  /** The staging mount put back beside a description that stayed: the next publish would
      start the VM on a mounted filesystem. */
  lemma Stranded(n: View, req: Request, device: string)
    requires req.target !in n.retired
    ensures !NodeOk(n.(mounts := n.mounts[req.staging := StageMount(req, device)],
                       infos := n.infos[req.target := InfoOf(req, device)]))
  {
    var n' := n.(mounts := n.mounts[req.staging := StageMount(req, device)],
                 infos := n.infos[req.target := InfoOf(req, device)]);
    assert n'.mounts[req.staging].device == n'.infos[req.target].device;
    assert !HandedOver(n');
  }

  lemma ForgetInfo(n: View, t: string)
    requires NodeOk(n) && t !in n.vms
    ensures NodeOk(n.(infos := n.infos - {t}))
  {}

  lemma Retire(n: View, t: string)
    requires NodeOk(n) && t !in n.vms
    ensures NodeOk(n.(retired := n.retired + {t}))
  {}

  /** Mounting a returning volume's staging path again. */
  lemma MountAgain(n: View, t: string, m: Mount)
    requires NodeOk(n) && t in n.infos && t in n.retired && m.device == n.infos[t].device
    ensures NodeOk(n.(mounts := n.mounts[n.infos[t].staging := m]))
  {
    AddMount(n, n.infos[t].staging, m);
  }

  /** The mount table with a returning volume's staging path mounted from its description. */
  function Returned(mounts: Mounts, i: Info): Mounts {
    if i.staging in mounts then mounts else mounts[i.staging := Mount(i.device, i.fsType, SplitOptions(i.stageOptions))]
  }

  // What becomes of a hand-over under given faults.

  /** The description is written and not taken back. */
  predicate Leaves(f: Faults) {
    f.dies !in {1, 2} && WriteInfo !in f.failing && (f.dies == 3 || MakeTarget !in f.failing || RemoveInfo in f.failing)
  }

  /** The rollback puts the staging mount back. */
  predicate Restages(f: Faults) {
    && f.dies !in {1, 2} && Remount !in f.failing
    && (WriteInfo in f.failing || (f.dies !in {3, 4} && MakeTarget in f.failing))
  }

  function HandOverOutcome(f: Faults): Outcome {
    if f.dies in {1, 2} then Died
    else if WriteInfo in f.failing then Failed(WriteInfo)
    else if f.dies == 3 then Died
    else if MakeTarget !in f.failing then Ok
    else if f.dies == 4 then Died
    else Failed(MakeTarget)
  }

  function HandedMounts(mounts: Mounts, req: Request, device: string, f: Faults): Mounts {
    if f.dies == 1 then mounts
    else if Restages(f) then mounts[req.staging := StageMount(req, device)]
    else mounts - {req.staging}
  }

  function HandedInfos(infos: Infos, req: Request, device: string, f: Faults): Infos {
    if Leaves(f) then infos[req.target := InfoOf(req, device)] else infos
  }

  /** What it leaves is what the request asks for. */
  lemma HandedIsAsked(mounts: Mounts, infos: Infos, req: Request, device: string, f: Faults)
    ensures Leaves(f) ==> Tells(req, device, HandedInfos(infos, req, device, f)[req.target])
    ensures Restages(f) ==> Asked(req, device, HandedMounts(mounts, req, device, f)[req.staging])
  {
    InfoTells(req, device);
    StageMountIsAsked(req, device);
    hide Tells;
    hide Asked;
  }

  /** A hand-over leaves the node sound exactly when it leaves no second description of the
      volume and no description beside its mount. */
  lemma HandOverSound(n: View, req: Request, device: string, f: Faults)
    requires NodeOk(n) && Alone(n, req, device) && req.target !in n.retired
    ensures NodeOk(n.(mounts := HandedMounts(n.mounts, req, device, f),
                      infos := HandedInfos(n.infos, req, device, f))) <==>
      !(Leaves(f) && (Restages(f) || exists t :: Holder(n.infos, t, req.staging)))
  {
    RemoveMount(n, req.staging);
    AddInfo(n, req, device);
    PutBack(n, req, device);
    Stranded(n, req, device);
    hide NodeOk;
    hide Alone;
    hide Holder;
  }

  class Node {
    var mounts: Mounts
    var infos: Infos

    // Around the driver.
    var vms: map<string, string>
    var retired: set<string>
    const role: string -> Role

    constructor (role: string -> Role)
      ensures this.role == role && mounts == map[] && infos == map[] && vms == map[] && retired == {}
    {
      this.role := role;
      mounts, infos, vms, retired := map[], map[], map[], {};
    }

    /** No device in a VM is mounted on the node as well. */
    ghost predicate Exclusive()
      reads this
    {
      forall t, p :: t in vms && p in mounts ==> mounts[p].device != vms[t]
    }

    ghost function Now(): View
      reads this
    {
      View(mounts, infos, vms, retired, role)
    }

    ghost predicate Inv()
      reads this
    {
      NodeOk(Now())
    }

    lemma InvExclusive()
      requires Inv()
      ensures Exclusive()
    {}

    /** The request and its paths belong together: a pod is in a Kata VM or not, for good. */
    predicate Consistent(req: Request) {
      && role(req.staging).Staging? && !role(req.target).Staging?
      && (!req.optOut && req.kataPod == Some(true) ==> role(req.target) == KataTarget)
      && (req.optOut || req.kataPod == Some(false) ==> role(req.target) == PlainTarget)
    }

    /** No description of the volume can be read: none there is, or none the scan sees. */
    predicate Unseen(staging: string, f: Faults)
      reads this
    {
      forall t :: t in infos && Holder(infos, t, staging) ==> t in f.unreadable
    }

    /** findKataHolder: descriptions that cannot be read are passed over. */
    method FindHolder(staging: string, unreadable: set<string>) returns (h: Option<string>)
      ensures h.Some? ==> Holder(infos, h.value, staging) && h.value !in unreadable
      ensures h.None? ==> forall t :: Holder(infos, t, staging) ==> t in unreadable
    {
      var todo := infos.Keys;
      h := None;
      while todo != {}
        invariant todo <= infos.Keys
        invariant forall t :: Holder(infos, t, staging) ==> t in unreadable || t in todo
      {
        var t :| t in todo;
        todo := todo - {t};
        if t !in unreadable && infos[t].staging == staging {
          return Some(t);
        }
      }
    }

    /** otherMountsOf: where the device is mounted besides the two given paths. */
    method OtherMounts(device: string, staging: string, target: string) returns (out: set<string>)
      ensures out == set p | p in mounts && mounts[p].device == device && p != staging && p != target
    {
      var todo := mounts.Keys;
      out := {};
      while todo != {}
        invariant todo <= mounts.Keys
        invariant out == set p | p in mounts && p !in todo && mounts[p].device == device && p != staging && p != target
      {
        var p :| p in todo;
        todo := todo - {p};
        if mounts[p].device == device && p != staging && p != target {
          out := out + {p};
        }
      }
    }

    /** Stage gets as far as its mount. */
    predicate Mounting(req: Request, f: Faults)
      reads this
    {
      && Scan !in f.failing && Unseen(req.staging, f) && Probe !in f.failing
      && req.staging !in mounts && f.dies != 1 && Remount !in f.failing
    }

    /** A description that could not be read is of a volume in a VM's hands. */
    predicate Overlooks(req: Request, f: Faults)
      reads this
    {
      Mounting(req, f) && exists t :: t in infos && Holder(infos, t, req.staging) && t !in retired
    }

    /** NodeStageVolume of a filesystem volume. It mounts what a VM has exactly when no
        description of it could be read. */
    method Stage(req: Request, device: string, f: Faults) returns (r: Outcome)
      modifies `mounts
      ensures mounts ==
        if old(Mounting(req, f)) then old(mounts)[req.staging := StageMount(req, device)] else old(mounts)
      ensures old(Mounting(req, f)) ==> Asked(req, device, mounts[req.staging])
      ensures r == Ok ==> req.staging in mounts || exists t :: Holder(infos, t, req.staging)
      ensures r == Ok <==>
        && Scan !in f.failing
        && (!old(Unseen(req.staging, f)) ||
            (Probe !in f.failing && (req.staging in old(mounts) || (f.dies != 1 && Remount !in f.failing))))
      ensures old(Inv()) && role(req.staging) == Staging(device) ==> (Inv() <==> !old(Overlooks(req, f)))
    {
      StageMountIsAsked(req, device);
      hide Asked;
      if Scan in f.failing { return Failed(Scan); }
      var holder := FindHolder(req.staging, f.unreadable);
      if holder.Some? { return Ok; }
      if Probe in f.failing { return Failed(Probe); }
      if req.staging !in mounts {
        if f.dies == 1 { return Died; }
        if Remount in f.failing { return Failed(Remount); }
        if Inv() && role(req.staging) == Staging(device) { StageSound(req, device, f); }
        mounts := mounts[req.staging := StageMount(req, device)];
      }
      r := Ok;
    }

    lemma StageSound(req: Request, device: string, f: Faults)
      requires Inv() && role(req.staging) == Staging(device) && Mounting(req, f)
      ensures NodeOk(Now().(mounts := mounts[req.staging := StageMount(req, device)])) <==> !Overlooks(req, f)
    {
      AddMount(Now(), req.staging, StageMount(req, device));
      assert forall t :: t in infos ==> (Holder(infos, t, req.staging) <==> infos[t].device == device);
    }

    /** publishKata gets as far as its hand-over: a Kata pod's volume that is staged, mounted
        nowhere else, and described nowhere that can be read. */
    predicate Reaches(req: Request, f: Faults)
      reads this
    {
      && ReadInfo !in f.failing && req.target !in infos && Scan !in f.failing && Unseen(req.staging, f)
      && !req.optOut && req.kataPod == Some(true)
      && Probe !in f.failing && req.staging in mounts && ListMounts !in f.failing && Unmount !in f.failing
      && forall p :: p in mounts && mounts[p].device == mounts[req.staging].device ==>
         p == req.staging || p == req.target
    }

    /** A publish that leaves a second description of its volume, or a description beside its
        staging mount. */
    predicate Strands(req: Request, f: Faults)
      reads this
    {
      Reaches(req, f) && Leaves(f) && (Restages(f) || exists t :: t in infos && Holder(infos, t, req.staging))
    }

    /** The volume is left to a bind mount. */
    predicate Plain(req: Request, f: Faults)
      reads this
    {
      && ReadInfo !in f.failing && req.target !in infos && Scan !in f.failing && Unseen(req.staging, f)
      && (req.optOut || req.kataPod == Some(false))
    }

    /** publishKata: the volume leaves the node's mount table for a description of it. */
    method PublishKata(req: Request, f: Faults) returns (handled: bool, r: Outcome)
      modifies `mounts, `infos
      ensures handled <==> (req.target in old(infos) && ReadInfo !in f.failing) || (old(Reaches(req, f)) && r == Ok)
      ensures handled ==> r == Ok
      ensures !handled && r == Ok <==> old(Plain(req, f))
      ensures old(Reaches(req, f)) ==>
        && r == HandOverOutcome(f)
        && mounts == HandedMounts(old(mounts), req, old(mounts)[req.staging].device, f)
        && infos == HandedInfos(old(infos), req, old(mounts)[req.staging].device, f)
      ensures !old(Reaches(req, f)) ==> mounts == old(mounts) && infos == old(infos)
      ensures old(Inv()) && Consistent(req) && req.target !in retired ==> (Inv() <==> !old(Strands(req, f)))
    {
      hide NodeOk;
      hide Leaves;
      hide Restages;
      hide HandOverOutcome;
      hide HandedMounts;
      hide HandedInfos;
      if ReadInfo in f.failing { return false, Failed(ReadInfo); }
      if req.target in infos { return true, Ok; }
      if Scan in f.failing { return false, Failed(Scan); }
      var holder := FindHolder(req.staging, f.unreadable);
      if holder.Some? { return false, Refused; }
      if req.optOut { return false, Ok; }
      if req.kataPod.None? { return false, Failed(Lookup); }
      if !req.kataPod.value { return false, Ok; }
      if Probe in f.failing || req.staging !in mounts { return false, Refused; }
      if ListMounts in f.failing { return false, Failed(ListMounts); }
      var device := mounts[req.staging].device;
      var others := OtherMounts(device, req.staging, req.target);
      if others != {} {
        ghost var p :| p in others;
        return false, Refused;
      }
      assert forall p :: p in mounts && mounts[p].device == device ==> p == req.staging || p == req.target by {
        assert forall p :: p in mounts && mounts[p].device == device && p != req.staging && p != req.target ==>
          p in others;
      }
      if Unmount in f.failing { return false, Failed(Unmount); }
      if Inv() && Consistent(req) && req.target !in retired { PublishSound(req, f); }
      r := HandOver(req, device, f);
      handled := r == Ok;
    }

    lemma PublishSound(req: Request, f: Faults)
      requires Inv() && Consistent(req) && req.target !in retired && Reaches(req, f)
      ensures var device := mounts[req.staging].device;
        NodeOk(Now().(mounts := HandedMounts(mounts, req, device, f),
                      infos := HandedInfos(infos, req, device, f))) <==>
        !Strands(req, f)
    {
      assert Alone(Now(), req, mounts[req.staging].device);
      HandOverSound(Now(), req, mounts[req.staging].device, f);
      assert (exists t :: Holder(infos, t, req.staging)) <==> exists t :: t in infos && Holder(infos, t, req.staging);
      hide NodeOk;
      hide Leaves;
      hide Restages;
    }

    /** The part of publishKata that acts, once nobody else has the device. */
    method HandOver(req: Request, device: string, f: Faults) returns (r: Outcome)
      requires req.target !in infos && req.staging in mounts
      modifies `mounts, `infos
      ensures r == HandOverOutcome(f)
      ensures mounts == HandedMounts(old(mounts), req, device, f)
      ensures infos == HandedInfos(old(infos), req, device, f)
      ensures Leaves(f) ==> Tells(req, device, infos[req.target])
      ensures Restages(f) ==> Asked(req, device, mounts[req.staging])
    {
      HandedIsAsked(mounts, infos, req, device, f);
      hide Tells;
      hide Asked;
      if f.dies == 1 { return Died; }
      mounts := mounts - {req.staging};
      if f.dies == 2 { return Died; }
      if WriteInfo in f.failing {
        Restage(req, device, f);
        return Failed(WriteInfo);
      }
      infos := infos[req.target := InfoOf(req, device)];
      if f.dies == 3 { return Died; }
      if MakeTarget in f.failing {
        if RemoveInfo !in f.failing { infos := infos - {req.target}; }
        if f.dies == 4 { return Died; }
        Restage(req, device, f);
        return Failed(MakeTarget);
      }
      return Ok;
    }

    /** The rollback: put the staging mount back; a failure is only logged. */
    method Restage(req: Request, device: string, f: Faults)
      modifies `mounts
      ensures mounts ==
        if Remount in f.failing then old(mounts) else old(mounts)[req.staging := StageMount(req, device)]
    {
      if Remount !in f.failing {
        mounts := mounts[req.staging := StageMount(req, device)];
      }
    }

    /** NodePublishVolume of a filesystem volume: into the VM, or as a bind mount. The invariant
        is lost exactly when the publish strands a description. */
    method Publish(req: Request, f: Faults) returns (r: Outcome)
      modifies `mounts, `infos
      ensures req.target in old(infos) && ReadInfo !in f.failing ==>
        r == Ok && mounts == old(mounts) && infos == old(infos)
      ensures old(Reaches(req, f)) ==>
        && r == HandOverOutcome(f)
        && mounts == HandedMounts(old(mounts), req, old(mounts)[req.staging].device, f)
        && infos == HandedInfos(old(infos), req, old(mounts)[req.staging].device, f)
      ensures !old(Reaches(req, f)) ==> infos == old(infos)
      ensures !old(Reaches(req, f)) && !old(Plain(req, f)) ==> mounts == old(mounts)
      ensures old(Plain(req, f)) ==>
        && (r == Refused <==> req.staging !in old(mounts))
        && (r == Ok <==>
              && req.staging in old(mounts) && Probe !in f.failing
              && (req.target in old(mounts) || (f.dies != 5 && Remount !in f.failing)))
      ensures old(Plain(req, f)) ==>
        if r == Ok then
          && req.staging in old(mounts) && req.target in mounts
          && mounts == (if req.target in old(mounts) then old(mounts) else
                          var fsType := if req.fsType == "" then "ext4" else req.fsType;
                          old(mounts)[req.target := Mount(old(mounts)[req.staging].device, fsType, ["bind"])])
        else mounts == old(mounts)
      ensures old(Inv()) && Consistent(req) && req.target !in retired ==> (Inv() <==> !old(Strands(req, f)))
    {
      var handled;
      handled, r := PublishKata(req, f);
      hide HandedMounts;
      hide HandedInfos;
      hide HandOverOutcome;
      if handled || r != Ok { return r; }
      if req.staging !in mounts { return Refused; }
      if Probe in f.failing { return Failed(Probe); }
      if req.target !in mounts {
        if f.dies == 5 { return Died; }
        if Remount in f.failing { return Failed(Remount); }
        var m := Mount(mounts[req.staging].device, FsType(req), ["bind"]);
        if Inv() && Consistent(req) { AddMount(Now(), req.target, m); }
        mounts := mounts[req.target := m];
      }
    }

    /** NodeUnpublishVolume, of a pod that is gone; and unpublishKata, which mounts the staging
        path again before it forgets the description. */
    method Unpublish(target: string, f: Faults) returns (r: Outcome)
      modifies `mounts, `infos, `retired
      ensures retired == old(retired) + {target}
      ensures r == Ok <==>
        && ReadInfo !in f.failing
        && if target in old(infos) then
             && Probe !in f.failing && RemoveInfo !in f.failing && f.dies != 2
             && (old(infos)[target].staging in old(mounts) || (Remount !in f.failing && f.dies != 1))
           else Unmount !in f.failing && f.dies != 1
      ensures r == Ok && target !in old(infos) ==> infos == old(infos) && mounts == old(mounts) - {target}
      ensures r == Ok && target in old(infos) ==>
        infos == old(infos) - {target} && mounts == Returned(old(mounts), old(infos)[target])
      ensures r == Failed(RemoveInfo) ==>
        && target in old(infos) && infos == old(infos)
        && mounts == Returned(old(mounts), old(infos)[target])
      ensures r.Failed? && r != Failed(RemoveInfo) ==> mounts == old(mounts) && infos == old(infos)
      ensures r == Died ==>
        && infos == old(infos)
        && (mounts == old(mounts) || (target in infos && mounts == Returned(old(mounts), infos[target])))
      ensures f == Faults({RemoveInfo}, {}, 0) && target in old(infos) ==> r == Failed(RemoveInfo)
      ensures old(Inv()) && target !in vms ==> Inv()
    {
      ghost var ok := Inv() && target !in vms;
      if ok { Retire(Now(), target); }
      hide NodeOk;
      retired := retired + {target};
      if ReadInfo in f.failing { return Failed(ReadInfo); }
      if target in infos {
        var info := infos[target];
        if Probe in f.failing { return Failed(Probe); }
        if info.staging !in mounts {
          if Remount in f.failing { return Failed(Remount); }
          if f.dies == 1 { return Died; }
          var m := Mount(info.device, info.fsType, SplitOptions(info.stageOptions));
          if ok { MountAgain(Now(), target, m); }
          mounts := mounts[info.staging := m];
        }
        if RemoveInfo in f.failing { return Failed(RemoveInfo); }
        if f.dies == 2 { return Died; }
        if ok { ForgetInfo(Now(), target); }
        infos := infos - {target};
      } else {
        if Unmount in f.failing { return Failed(Unmount); }
        if f.dies == 1 { return Died; }
        if ok { RemoveMount(Now(), target); }
        mounts := mounts - {target};
      }
      r := Ok;
    }

    /** NodeUnstageVolume: refused while a VM has the volume. */
    method Unstage(staging: string, f: Faults) returns (r: Outcome)
      modifies `mounts
      ensures r == Ok ==> mounts == old(mounts) - {staging}
      ensures r == Ok <==> Scan !in f.failing && Unseen(staging, f) && Unmount !in f.failing && f.dies != 1
      ensures r == Refused <==> Scan !in f.failing && !Unseen(staging, f)
      ensures r != Ok ==> mounts == old(mounts)
      ensures old(Inv()) ==> Inv()
    {
      if Scan in f.failing { return Failed(Scan); }
      var holder := FindHolder(staging, f.unreadable);
      if holder.Some? { return Refused; }
      if Unmount in f.failing { return Failed(Unmount); }
      if f.dies == 1 { return Died; }
      if Inv() { RemoveMount(Now(), staging); }
      mounts := mounts - {staging};
      r := Ok;
    }

    /** The Kata runtime starts a pod's VM from the description at its target path. */
    method StartVm(target: string)
      requires target !in retired
      modifies `vms
      ensures vms == if target in infos then old(vms)[target := infos[target].device] else old(vms)
      ensures old(Inv()) ==> Inv()
    {
      if target in infos { vms := vms[target := infos[target].device]; }
    }

    method StopVm(target: string)
      modifies `vms
      ensures vms == old(vms) - {target}
      ensures old(Inv()) ==> Inv()
    {
      vms := vms - {target};
    }
  }

  /** What the kubelet and the runtime do to one node. */
  datatype Call =
    | StageCall(req: Request, device: string, f: Faults)
    | PublishCall(req: Request, f: Faults)
    | UnpublishCall(target: string, f: Faults)
    | UnstageCall(staging: string, f: Faults)
    | VmStarts(target: string)
    | VmStops(target: string)

  /** The orchestrator's part: requests fit their paths, a pod's VM is stopped before its
      volume is unpublished, and a target is not used again once that began. And the call is not
      one of those whose faults lose the invariant. */
  predicate Legal(n: Node, c: Call)
    reads n
  {
    match c
    case StageCall(req, device, f) => n.role(req.staging) == Staging(device) && !n.Overlooks(req, f)
    case PublishCall(req, f) => n.Consistent(req) && req.target !in n.retired && !n.Strands(req, f)
    case UnpublishCall(t, _) => t !in n.vms
    case UnstageCall(_, _) => true
    case VmStarts(t) => t !in n.retired
    case VmStops(_) => true
  }

  method ServeOne(n: Node, c: Call)
    requires n.Inv() && Legal(n, c)
    modifies n
    ensures n.Inv()
  {
    match c
    case StageCall(req, device, f) => var _ := n.Stage(req, device, f);
    case PublishCall(req, f) => var _ := n.Publish(req, f);
    case UnpublishCall(t, f) => var _ := n.Unpublish(t, f);
    case UnstageCall(p, f) => var _ := n.Unstage(p, f);
    case VmStarts(t) => n.StartVm(t);
    case VmStops(t) => n.StopVm(t);
  }

  /** Over every sequence of calls, failed and interrupted ones included, no device is mounted
      in a VM and on the node at once. */
  method Serve(n: Node, calls: seq<Call>)
    requires n.Inv()
    modifies n
    ensures n.Inv() && n.Exclusive()
  {
    var i := 0;
    while i < |calls|
      invariant i <= |calls| && n.Inv()
    {
      var c := calls[i];
      if Legal(n, c) { ServeOne(n, c); }
      i := i + 1;
    }
    n.InvExclusive();
  }

  /** Publish into a VM and unpublish again: the descriptions are as before, and so is the
      mount table exactly when the staging mount's options read back. */
  method HandOverAndBack(n: Node, req: Request) returns (published: Outcome, unpublished: Outcome)
    requires n.Reaches(req, CALM) && n.mounts[req.staging] == StageMount(req, n.mounts[req.staging].device)
    modifies n
    ensures published == unpublished == Ok && n.infos == old(n.infos)
    ensures n.mounts.Keys == old(n.mounts).Keys
    ensures forall p :: p in n.mounts && p != req.staging ==> n.mounts[p] == old(n.mounts)[p]
    ensures n.mounts[req.staging].device == old(n.mounts)[req.staging].device
    ensures n.mounts[req.staging].fsType == old(n.mounts)[req.staging].fsType
    ensures n.mounts == old(n.mounts) <==> MountOptions(req) != [""] && forall o :: o in MountOptions(req) ==> ',' !in o
  {
    OptionsReadBack(MountOptions(req));
    published := n.Publish(req, CALM);
    assert n.infos[req.target] == InfoOf(req, old(n.mounts)[req.staging].device);
    unpublished := n.Unpublish(req.target, CALM);
    assert n.infos == old(n.infos);
    assert n.mounts == old(n.mounts)[req.staging := n.mounts[req.staging]];
  }

  // ------------------------------------------------- where safety is lost

  /** A rollback that cannot remove its description: the retried publish is answered with
      success, and the VM starts on a filesystem the node has mounted. */
  method StrandedRetry(n: Node, req: Request)
    requires n.Reaches(req, CALM) && req.target !in n.retired
    modifies n
    ensures !n.Exclusive()
  {
    var r := n.Publish(req, Faults({MakeTarget, RemoveInfo}, {}, 0));
    r := n.Publish(req, CALM);
    n.StartVm(req.target);
    assert n.vms[req.target] == n.mounts[req.staging].device;
  }

  /** A staged Kata volume on an otherwise empty node. */
  method Staged(staging: string, target: string, device: string) returns (n: Node, req: Request)
    requires staging != target
    ensures fresh(n) && n.Inv() && req == Request(staging, target, "", [], false, false, Some(true))
    ensures n.mounts == map[staging := StageMount(req, device)] && n.infos == map[] && n.vms == map[] && n.retired == {}
    ensures n.role == (p => if p == staging then Staging(device) else KataTarget)
  {
    n := new Node(p => if p == staging then Staging(device) else KataTarget);
    req := Request(staging, target, "", [], false, false, Some(true));
    var r := n.Stage(req, device, CALM);
  }

  method RollbackCanStrand(staging: string, target: string, device: string) returns (n: Node)
    requires staging != target
    ensures fresh(n) && !n.Exclusive()
  {
    var req;
    n, req := Staged(staging, target, device);
    StrandedRetry(n, req);
  }

  /** A stage that cannot read the description of a volume in a running VM mounts it. */
  method UnreadableStage(staging: string, target: string, device: string) returns (n: Node)
    requires staging != target
    ensures fresh(n) && !n.Exclusive()
  {
    var req;
    n, req := Staged(staging, target, device);
    var r := n.Publish(req, CALM);
    n.StartVm(target);
    assert n.infos == map[target := InfoOf(req, device)] && n.mounts == map[];
    r := n.Stage(req, device, Faults({}, {target}, 0));
    assert n.mounts[staging].device == n.vms[target];
  }

  /** An unpublish that mounted the volume again and could not remove its description. */
  method HalfReturned(staging: string, target: string, device: string) returns (n: Node, req: Request)
    requires staging != target
    ensures fresh(n) && req == Request(staging, target, "", [], false, false, Some(true))
    ensures n.mounts.Keys == {staging} && n.mounts[staging].device == device
    ensures n.infos == map[target := InfoOf(req, device)] && n.vms == map[] && n.retired == {target}
  {
    hide NodeOk;
    n, req := Staged(staging, target, device);
    var r := n.Publish(req, CALM);
    r := n.Unpublish(target, Faults({RemoveInfo}, {}, 0));
  }

  /** After it, a publish to another VM that cannot read that description; and the unpublish once
      more, which mounts the volume under that VM. */
  method UnreadablePublish(staging: string, first: string, second: string, device: string) returns (n: Node)
    requires staging != first && staging != second && first != second
    ensures fresh(n) && !n.Exclusive()
  {
    hide NodeOk;
    var req;
    n, req := HalfReturned(staging, first, device);
    var next := req.(target := second);
    var r := n.Publish(next, Faults({}, {first}, 0));
    assert n.infos == map[first := InfoOf(req, device), second := InfoOf(next, device)] && staging !in n.mounts;
    n.StartVm(second);
    r := n.Unpublish(first, CALM);
    assert n.mounts[staging].device == n.vms[second];
  }
}

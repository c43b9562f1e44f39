/** The rebalance planner Plan (pkg/migrator/placement.go): its loop is shown to follow a
    round-by-round reading of the greedy rule, and the promises about a plan are proved of
    every such reading. */
module Rebalance {
  import opened Strings
  import opened Placement

  datatype VolumeInfo = VolumeInfo(namespace: string, pvc: string, pv: string, zone: string, size: int, inUse: bool)

  datatype Move = Move(namespace: string, pvc: string, pv: string, source: string, target: string, size: int)

  /** What the planner is told once. */
  datatype Rule = Rule(zones: seq<ZoneCapacity>, total: map<string, int>, high: real, low: real, headroom: real)

  /** What it keeps count of: space by zone, and the volumes still to consider by zone. */
  datatype Ledger = Ledger(avail: map<string, int>, queues: map<string, seq<VolumeInfo>>)

  /** One turn of the loop: the volume taken off its queue and where it goes, if anywhere. */
  datatype Round = Round(vol: VolumeInfo, source: string, target: Option<string>)

  function Get(m: map<string, int>, zone: string): int { if zone in m then m[zone] else 0 }

  function Queue(l: Ledger, zone: string): seq<VolumeInfo> { if zone in l.queues then l.queues[zone] else [] }

  /** The used fraction of a zone. */
  function Used(r: Rule, l: Ledger, zone: string): real {
    if Get(r.total, zone) == 0 then 0.0
    else (Get(r.total, zone) - Get(l.avail, zone)) as real / Get(r.total, zone) as real
  }

  /** At least this share of the zone's space is occupied. */
  predicate Filled(r: Rule, l: Ledger, zone: string, share: real) {
    Occupied(r, l, zone) as real >= share * Get(r.total, zone) as real
  }

  function Occupied(r: Rule, l: Ledger, zone: string): int { Get(r.total, zone) - Get(l.avail, zone) }

  lemma Divides(a: real, b: real, share: real)
    requires b > 0.0
    ensures a / b >= share <==> a >= share * b
  {
    assert a == (a / b) * b;
  }

  /** The used fraction compares as the occupied space does. */
  lemma UsedMeans(r: Rule, l: Ledger, zone: string, share: real)
    requires Get(r.total, zone) > 0
    ensures Used(r, l, zone) >= share <==> Filled(r, l, zone, share)
  {
    Divides(Occupied(r, l, zone) as real, Get(r.total, zone) as real, share);
  }

  /** One zone is filled at least as far as another, by cross-multiplication. */
  predicate AsFull(r: Rule, l: Ledger, z: string, y: string) {
    Occupied(r, l, y) as real * Get(r.total, z) as real <= Occupied(r, l, z) as real * Get(r.total, y) as real
  }

  lemma Cross(a: real, b: real, c: real, d: real)
    requires b > 0.0 && d > 0.0 && a / b <= c / d
    ensures a * d <= c * b
  {
    var x, y := a / b, c / d;
    assert a == x * b && c == y * d;
    assert (y - x) * (b * d) >= 0.0;
    assert a * d == x * (b * d) && c * b == y * (b * d);
  }

  lemma UsedCompares(r: Rule, l: Ledger, y: string, z: string)
    requires Get(r.total, y) > 0 && Get(r.total, z) > 0 && Used(r, l, y) <= Used(r, l, z)
    ensures AsFull(r, l, z, y)
  {
    Cross(Occupied(r, l, y) as real, Get(r.total, y) as real, Occupied(r, l, z) as real, Get(r.total, z) as real);
  }

  predicate Overfull(r: Rule, l: Ledger, zone: string) {
    Used(r, l, zone) >= r.high && Queue(l, zone) != []
  }

  /** The first of the fullest zones that are over the high threshold and have volumes left. */
  predicate Fullest(r: Rule, l: Ledger, i: int) {
    && 0 <= i < |r.zones| && Overfull(r, l, r.zones[i].zone)
    && (forall j :: 0 <= j < |r.zones| && Overfull(r, l, r.zones[j].zone) ==>
          Used(r, l, r.zones[j].zone) <= Used(r, l, r.zones[i].zone))
    && (forall j :: 0 <= j < i && Overfull(r, l, r.zones[j].zone) ==>
          Used(r, l, r.zones[j].zone) < Used(r, l, r.zones[i].zone))
  }

  /** The zones below the low threshold, with the space they have now. */
  function Emptier(r: Rule, l: Ledger, source: string, n: nat): seq<ZoneCapacity>
    requires n <= |r.zones|
  {
    if n == 0 then []
    else
      var before, z := Emptier(r, l, source, n - 1), Now(r, l, r.zones[n - 1].zone);
      if z.zone == source || Used(r, l, z.zone) >= r.low then before else before + [z]
  }

  lemma {:induction false} EmptierAre(r: Rule, l: Ledger, source: string, n: nat, z: ZoneCapacity)
    requires n <= |r.zones|
    ensures z in Emptier(r, l, source, n) <==>
      exists i :: 0 <= i < n && z == Now(r, l, r.zones[i].zone) && z.zone != source && Used(r, l, z.zone) < r.low
  {
    hide Used;
    if n > 0 { EmptierAre(r, l, source, n - 1, z); }
  }

  function Now(r: Rule, l: Ledger, zone: string): ZoneCapacity {
    ZoneCapacity(zone, Get(l.avail, zone), Get(r.total, zone))
  }

  /** The target is SelectTarget's choice, and there is none only when nothing fits. */
  ghost predicate Chosen(r: Rule, l: Ledger, source: string, size: int, target: Option<string>) {
    var zones := Emptier(r, l, source, |r.zones|);
    match target
    case None => forall i :: 0 <= i < |zones| ==> !Fits(zones[i], [source], Required(size, r.headroom))
    case Some(t) => exists i :: Winner(zones, [source], Required(size, r.headroom), i) && t == zones[i].zone
  }

  ghost predicate IsRound(r: Rule, l: Ledger, x: Round) {
    && (exists i :: Fullest(r, l, i) && x.source == r.zones[i].zone)
    && Queue(l, x.source) != [] && x.vol == Queue(l, x.source)[0]
    && Chosen(r, l, x.source, x.vol.size, x.target)
  }

  function Transfer(avail: map<string, int>, source: string, target: string, size: int): map<string, int> {
    var a := avail[source := Get(avail, source) + size];
    a[target := Get(a, target) - size]
  }

  function Rest<T>(s: seq<T>): seq<T> { if s == [] then [] else s[1..] }

  function Next(l: Ledger, x: Round): Ledger {
    Ledger(if x.target.None? then l.avail else Transfer(l.avail, x.source, x.target.value, x.vol.size),
           l.queues[x.source := Rest(Queue(l, x.source))])
  }

  /** The rounds, in order, are what the rule does from this ledger. */
  ghost predicate Follows(r: Rule, l: Ledger, rounds: seq<Round>)
    decreases |rounds|
  {
    rounds != [] ==> IsRound(r, l, rounds[0]) && Follows(r, Next(l, rounds[0]), rounds[1..])
  }

  ghost function After(r: Rule, l: Ledger, rounds: seq<Round>): Ledger
    requires Follows(r, l, rounds)
    decreases |rounds|
  {
    if rounds == [] then l else After(r, Next(l, rounds[0]), rounds[1..])
  }

  function MoveOf(x: Round): Move
    requires x.target.Some?
  {
    Move(x.vol.namespace, x.vol.pvc, x.vol.pv, x.source, x.target.value, x.vol.size)
  }

  function Moves(rounds: seq<Round>): seq<Move> {
    if rounds == [] then [] else (if rounds[0].target.Some? then [MoveOf(rounds[0])] else []) + Moves(rounds[1..])
  }

  lemma {:induction false} FollowsMore(r: Rule, l: Ledger, rounds: seq<Round>, x: Round)
    requires Follows(r, l, rounds) && IsRound(r, After(r, l, rounds), x)
    ensures Follows(r, l, rounds + [x]) && After(r, l, rounds + [x]) == Next(After(r, l, rounds), x)
    ensures Moves(rounds + [x]) == Moves(rounds) + if x.target.Some? then [MoveOf(x)] else []
    decreases |rounds|
  {
    hide IsRound;
    hide Next;
    if rounds != [] {
      assert (rounds + [x])[1..] == rounds[1..] + [x];
      FollowsMore(r, Next(l, rounds[0]), rounds[1..], x);
    }
  }

  // ------------------------------------------------------------ the planner

  /** A zone's queue: its idle volumes, smallest first. */
  ghost predicate QueueOf(vols: seq<VolumeInfo>, zone: string, queue: seq<VolumeInfo>) {
    && multiset(queue) == multiset(Idle(vols, zone))
    && BySize(queue)
  }

  function Idle(vols: seq<VolumeInfo>, zone: string): (idle: seq<VolumeInfo>)
    ensures forall v :: v in idle <==> v in vols && !v.inUse && v.zone == zone
  {
    if vols == [] then []
    else
      var v, rest := vols[|vols| - 1], Idle(vols[..|vols| - 1], zone);
      if !v.inUse && v.zone == zone then rest + [v] else rest
  }

  /** slices.SortFunc by size. */
  method SortBySize(s: seq<VolumeInfo>) returns (t: seq<VolumeInfo>)
    ensures multiset(t) == multiset(s) && BySize(t)
  {
    t := [];
    for k := 0 to |s|
      invariant multiset(t) == multiset(s[..k]) && BySize(t)
    {
      assert s[..k + 1] == s[..k] + [s[k]];
      InsertSorted(t, s[k]);
      t := Insert(t, s[k]);
    }
    assert s[..|s|] == s;
  }

  predicate BySize(t: seq<VolumeInfo>) {
    forall i, j :: 0 <= i < j < |t| ==> t[i].size <= t[j].size
  }

  function Insert(t: seq<VolumeInfo>, v: VolumeInfo): (u: seq<VolumeInfo>)
    ensures multiset(u) == multiset(t) + multiset{v}
  {
    if t == [] || t[|t| - 1].size <= v.size then t + [v]
    else
      assert t == t[..|t| - 1] + [t[|t| - 1]];
      Insert(t[..|t| - 1], v) + [t[|t| - 1]]
  }

  lemma {:induction false} InsertSorted(t: seq<VolumeInfo>, v: VolumeInfo)
    requires BySize(t)
    ensures BySize(Insert(t, v)) && forall x :: x in Insert(t, v) ==> x in t || x == v
  {
    if t != [] && t[|t| - 1].size > v.size {
      var last, u := t[|t| - 1], Insert(t[..|t| - 1], v);
      InsertSorted(t[..|t| - 1], v);
      forall i | 0 <= i < |u| ensures u[i].size <= last.size {
        assert u[i] in u;
      }
    }
  }

  function QueueIn(queues: map<string, seq<VolumeInfo>>, zone: string): seq<VolumeInfo> {
    if zone in queues then queues[zone] else []
  }

  lemma IdleMore(vols: seq<VolumeInfo>, k: nat, zone: string)
    requires k < |vols|
    ensures Idle(vols[..k + 1], zone) == Idle(vols[..k], zone) +
      if !vols[k].inUse && vols[k].zone == zone then [vols[k]] else []
  {
    assert vols[..k + 1][..k] == vols[..k];
  }

  lemma {:induction false} IdleWithin(vols: seq<VolumeInfo>, zone: string)
    ensures multiset(Idle(vols, zone)) <= multiset(vols)
  {
    if vols != [] {
      IdleWithin(vols[..|vols| - 1], zone);
      assert vols == vols[..|vols| - 1] + [vols[|vols| - 1]];
    }
  }

  ghost predicate Grouped(queues: map<string, seq<VolumeInfo>>, vols: seq<VolumeInfo>) {
    forall z :: QueueIn(queues, z) == Idle(vols, z)
  }

  lemma GroupMore(queues: map<string, seq<VolumeInfo>>, vols: seq<VolumeInfo>, k: nat)
    requires k < |vols| && Grouped(queues, vols[..k])
    ensures var v := vols[k];
      Grouped(if v.inUse then queues else queues[v.zone := QueueIn(queues, v.zone) + [v]], vols[..k + 1])
  {
    var v := vols[k];
    var next := if v.inUse then queues else queues[v.zone := QueueIn(queues, v.zone) + [v]];
    forall z ensures QueueIn(next, z) == Idle(vols[..k + 1], z) {
      IdleMore(vols, k, z);
      assert QueueIn(queues, z) == Idle(vols[..k], z);
    }
  }

  /** Candidate volumes by zone, smallest first. */
  method Queues(vols: seq<VolumeInfo>) returns (queues: map<string, seq<VolumeInfo>>)
    ensures forall z :: QueueOf(vols, z, QueueIn(queues, z))
  {
    queues := map[];
    assert Grouped(queues, vols[..0]);
    hide Grouped;
    for k := 0 to |vols|
      invariant Grouped(queues, vols[..k])
    {
      GroupMore(queues, vols, k);
      var v := vols[k];
      if !v.inUse {
        queues := queues[v.zone := QueueIn(queues, v.zone) + [v]];
      }
    }
    assert vols[..|vols|] == vols;
    queues := SortAll(queues, vols);
  }

  method SortAll(groups: map<string, seq<VolumeInfo>>, ghost vols: seq<VolumeInfo>)
    returns (queues: map<string, seq<VolumeInfo>>)
    requires Grouped(groups, vols)
    ensures forall z :: QueueOf(vols, z, QueueIn(queues, z))
  {
    queues := groups;
    var todo := queues.Keys;
    while todo != {}
      invariant todo <= queues.Keys
      invariant forall z :: multiset(QueueIn(queues, z)) == multiset(Idle(vols, z))
      invariant forall z :: z !in todo ==> BySize(QueueIn(queues, z))
    {
      var z :| z in todo;
      todo := todo - {z};
      var sorted := SortBySize(queues[z]);
      queues := queues[z := sorted];
    }
  }

  /** The loop that looks for the fullest overfull zone. */
  method FindSource(r: Rule, l: Ledger) returns (i: int)
    ensures i >= 0 ==> Fullest(r, l, i)
    ensures i < 0 ==> forall j :: 0 <= j < |r.zones| ==> !Overfull(r, l, r.zones[j].zone)
  {
    i := -1;
    for k := 0 to |r.zones|
      invariant -1 <= i < k
      invariant i < 0 ==> forall j :: 0 <= j < k ==> !Overfull(r, l, r.zones[j].zone)
      invariant i >= 0 ==> Overfull(r, l, r.zones[i].zone)
      invariant i >= 0 ==> forall j :: 0 <= j < k && Overfull(r, l, r.zones[j].zone) ==>
        && Used(r, l, r.zones[j].zone) <= Used(r, l, r.zones[i].zone)
        && (j < i ==> Used(r, l, r.zones[j].zone) < Used(r, l, r.zones[i].zone))
    {
      var z := r.zones[k].zone;
      if Used(r, l, z) >= r.high && Queue(l, z) != [] {
        if i < 0 || Used(r, l, z) > Used(r, l, r.zones[i].zone) {
          i := k;
        }
      }
    }
  }

  /** The loop that picks the target for a volume leaving the source. */
  method FindTarget(r: Rule, l: Ledger, source: string, size: int) returns (target: Option<string>)
    requires Named(r.zones)
    ensures Chosen(r, l, source, size, target)
  {
    hide Used;
    hide Required;
    hide Fits;
    hide Winner;
    hide Named;
    var zones := CollectEmptier(r, l, source);
    EmptierNamed(r, l, source, |r.zones|);
    target := SelectTarget(zones, [source], size, r.headroom);
  }

  method CollectEmptier(r: Rule, l: Ledger, source: string) returns (zones: seq<ZoneCapacity>)
    ensures zones == Emptier(r, l, source, |r.zones|)
  {
    hide Used;
    zones := [];
    for k := 0 to |r.zones|
      invariant zones == Emptier(r, l, source, k)
    {
      var z := r.zones[k].zone;
      if z != source && Used(r, l, z) < r.low {
        zones := zones + [Now(r, l, z)];
      }
    }
  }

  lemma {:induction false} EmptierNamed(r: Rule, l: Ledger, source: string, n: nat)
    requires Named(r.zones) && n <= |r.zones|
    ensures Named(Emptier(r, l, source, n))
  {
    hide Used;
    if n > 0 { EmptierNamed(r, l, source, n - 1); }
  }

  function AvailOf(zones: seq<ZoneCapacity>, n: nat): map<string, int>
    requires n <= |zones|
  {
    if n == 0 then map[] else AvailOf(zones, n - 1)[zones[n - 1].zone := zones[n - 1].avail]
  }

  function TotalOf(zones: seq<ZoneCapacity>, n: nat): map<string, int>
    requires n <= |zones|
  {
    if n == 0 then map[] else TotalOf(zones, n - 1)[zones[n - 1].zone := zones[n - 1].total]
  }

  /** Where the planner starts. */
  ghost predicate Starts(zones: seq<ZoneCapacity>, vols: seq<VolumeInfo>, l: Ledger) {
    l.avail == AvailOf(zones, |zones|) && forall z :: QueueOf(vols, z, Queue(l, z))
  }

  /** What is left to consider fits in a pool, so taking a volume shrinks it. */
  ghost predicate Pooled(l: Ledger, pool: multiset<VolumeInfo>) {
    forall z :: multiset(Queue(l, z)) <= pool && forall v :: v in Queue(l, z) ==> v.zone == z
  }

  lemma TakeOne(l: Ledger, x: Round, pool: multiset<VolumeInfo>)
    requires Pooled(l, pool) && Queue(l, x.source) != [] && x.vol == Queue(l, x.source)[0]
    ensures x.vol in pool && Pooled(Next(l, x), pool - multiset{x.vol})
  {
    var q, l' := Queue(l, x.source), Next(l, x);
    assert q == [q[0]] + q[1..];
    assert x.vol in q;
    forall z ensures multiset(Queue(l', z)) <= pool - multiset{x.vol} && forall v :: v in Queue(l', z) ==> v.zone == z {
      if z != x.source {
        assert Queue(l', z) == Queue(l, z) && x.vol !in Queue(l, z);
      }
    }
  }

  /** The plan follows the rule from the given figures until it has its moves or no zone is
      overfull with volumes left, and it ends within as many rounds as there are volumes. */
  method Plan(zones: seq<ZoneCapacity>, vols: seq<VolumeInfo>, high: real, low: real, headroom: real, maxMoves: int)
    returns (moves: seq<Move>, ghost start: Ledger, ghost rounds: seq<Round>)
    requires Named(zones)
    ensures maxMoves <= 0 || |zones| < 2 ==> moves == []
    ensures maxMoves > 0 && |zones| >= 2 ==>
      var r := Rule(zones, TotalOf(zones, |zones|), high, low, headroom);
      && Starts(zones, vols, start) && Follows(r, start, rounds)
      && moves == Moves(rounds) && |moves| <= maxMoves && |rounds| <= |vols|
      && (|moves| == maxMoves || forall j :: 0 <= j < |zones| ==> !Overfull(r, After(r, start, rounds), zones[j].zone))
      && (|moves| == maxMoves || Relieved(r, After(r, start, rounds)))
    ensures Carries(vols, moves) && Affordable(zones, vols, moves)
  {
    moves, rounds, start := [], [], Ledger(map[], map[]);
    if maxMoves <= 0 || |zones| < 2 {
      NoMoves(zones, vols);
      return;
    }
    var avail, total := map[], map[];
    for k := 0 to |zones|
      invariant avail == AvailOf(zones, k) && total == TotalOf(zones, k)
    {
      avail := avail[zones[k].zone := zones[k].avail];
      total := total[zones[k].zone := zones[k].total];
    }
    var queues := Queues(vols);
    var r, l := Rule(zones, total, high, low, headroom), Ledger(avail, queues);
    start := l;
    ghost var pool := multiset(vols);
    forall z ensures Queue(l, z) == QueueIn(queues, z) {}
    StartIsPooled(vols, l);
    assert Follows(r, start, rounds) && l == After(r, start, rounds) && Moves(rounds) == [];
    hide Pooled;
    hide IsRound;
    hide Follows;
    hide Moves;
    hide Carries;
    hide Affordable;
    while |moves| < maxMoves
      invariant Pooled(l, pool) && |rounds| + |pool| == |vols|
      invariant Follows(r, start, rounds) && l == After(r, start, rounds)
      invariant moves == Moves(rounds) && |moves| <= maxMoves
      decreases |pool|
    {
      var i := FindSource(r, l);
      if i < 0 { break; }
      var source := zones[i].zone;
      var vol := Queue(l, source)[0];
      var target := FindTarget(r, l, source, vol.size);
      var x := Round(vol, source, target);
      RoundIs(r, l, x, i);
      TakeOne(l, x, pool);
      FollowsMore(r, start, rounds, x);
      pool := pool - multiset{vol};
      rounds := rounds + [x];
      l := Next(l, x);
      if target.Some? {
        moves := moves + [Move(vol.namespace, vol.pvc, vol.pv, source, target.value, vol.size)];
      }
    }
    MovesCarry(r, vols, start, rounds);
    MovesAfford(r, vols, start, rounds);
    if |moves| < maxMoves { NoneIsOverfull(r, l); }
  }

  lemma RoundIs(r: Rule, l: Ledger, x: Round, i: int)
    requires Fullest(r, l, i) && x.source == r.zones[i].zone && x.vol == Queue(l, x.source)[0]
    requires Chosen(r, l, x.source, x.vol.size, x.target)
    ensures IsRound(r, l, x)
  {}

  // ------------------------------------------------------------- its promises

  function Outflow(moves: seq<Move>, zone: string): int {
    if moves == [] then 0 else (if moves[0].source == zone then moves[0].size else 0) + Outflow(moves[1..], zone)
  }

  function Inflow(moves: seq<Move>, zone: string): int {
    if moves == [] then 0 else (if moves[0].target == zone then moves[0].size else 0) + Inflow(moves[1..], zone)
  }

  /** No zone with volumes left is filled to the high threshold. */
  ghost predicate Relieved(r: Rule, l: Ledger) {
    forall j :: 0 <= j < |r.zones| && Get(r.total, r.zones[j].zone) > 0 && Queue(l, r.zones[j].zone) != [] ==>
      !Filled(r, l, r.zones[j].zone, r.high)
  }

  lemma NoneIsOverfull(r: Rule, l: Ledger)
    requires forall j :: 0 <= j < |r.zones| ==> !Overfull(r, l, r.zones[j].zone)
    ensures Relieved(r, l)
  {
    forall j | 0 <= j < |r.zones| && Get(r.total, r.zones[j].zone) > 0 && Queue(l, r.zones[j].zone) != []
      ensures !Filled(r, l, r.zones[j].zone, r.high)
    {
      UsedMeans(r, l, r.zones[j].zone, r.high);
    }
  }

  /** The same of a round's zones, in space: the source is filled to the high threshold and no
      zone with volumes left is fuller, the target is not filled to the low one. */
  ghost predicate FairInSpace(r: Rule, l: Ledger, x: Round) {
    && (Get(r.total, x.source) > 0 ==> Filled(r, l, x.source, r.high))
    && (Get(r.total, x.source) > 0 ==>
          forall j :: 0 <= j < |r.zones| && Get(r.total, r.zones[j].zone) > 0 && Queue(l, r.zones[j].zone) != [] ==>
            AsFull(r, l, x.source, r.zones[j].zone))
    && (x.target.Some? && Get(r.total, x.target.value) > 0 ==> !Filled(r, l, x.target.value, r.low))
  }

  lemma RoundIsFairInSpace(r: Rule, l: Ledger, x: Round)
    requires IsRound(r, l, x)
    ensures FairInSpace(r, l, x)
  {
    RoundIsFair(r, l, x);
    var i :| Fullest(r, l, i) && x.source == r.zones[i].zone;
    hide IsRound;
    hide Used;
    hide Filled;
    hide Occupied;
    if Get(r.total, x.source) > 0 {
      UsedMeans(r, l, x.source, r.high);
      forall j | 0 <= j < |r.zones| && Get(r.total, r.zones[j].zone) > 0 && Queue(l, r.zones[j].zone) != []
        ensures AsFull(r, l, x.source, r.zones[j].zone)
      {
        UsedCompares(r, l, r.zones[j].zone, x.source);
      }
    }
    if x.target.Some? && Get(r.total, x.target.value) > 0 { UsedMeans(r, l, x.target.value, r.low); }
  }

  /** What a round's choice means for the zones involved. */
  ghost predicate FairMove(r: Rule, l: Ledger, x: Round) {
    && Used(r, l, x.source) >= r.high
    && (exists i :: 0 <= i < |r.zones| && x.source == r.zones[i].zone)
    && (x.target.Some? ==>
          var t := x.target.value;
          && t != x.source && (exists i :: 0 <= i < |r.zones| && t == r.zones[i].zone)
          && Used(r, l, t) < r.low && Get(l.avail, t) >= Required(x.vol.size, r.headroom))
  }

  lemma RoundIsFair(r: Rule, l: Ledger, x: Round)
    requires IsRound(r, l, x)
    ensures FairMove(r, l, x)
  {
    if x.target.Some? {
      var zones := Emptier(r, l, x.source, |r.zones|);
      var i :| Winner(zones, [x.source], Required(x.vol.size, r.headroom), i) && x.target.value == zones[i].zone;
      EmptierAre(r, l, x.source, |r.zones|, zones[i]);
    }
  }

  /** A round that moves nothing had nowhere to go. */
  lemma SkippedOnlyIfNothingFits(r: Rule, l: Ledger, x: Round, k: nat)
    requires IsRound(r, l, x) && x.target.None? && k < |r.zones| && r.zones[k].zone != x.source
    ensures var z := r.zones[k].zone;
      Used(r, l, z) >= r.low || Get(l.avail, z) < Required(x.vol.size, r.headroom) || Get(l.avail, z) <= 0
  {
    var z := Now(r, l, r.zones[k].zone);
    var zones := Emptier(r, l, x.source, |r.zones|);
    if Used(r, l, z.zone) < r.low {
      EmptierAre(r, l, x.source, |r.zones|, z);
      var i :| 0 <= i < |zones| && zones[i] == z;
      assert !Fits(zones[i], [x.source], Required(x.vol.size, r.headroom));
    }
  }

  /** Every round obeys the rule in the ledger of its own moment. */
  lemma {:induction false} EveryRoundIsFair(r: Rule, l: Ledger, rounds: seq<Round>, k: nat)
    requires Follows(r, l, rounds) && k < |rounds|
    ensures Follows(r, l, rounds[..k]) && FairMove(r, After(r, l, rounds[..k]), rounds[k])
    ensures FairInSpace(r, After(r, l, rounds[..k]), rounds[k])
    decreases k
  {
    if k == 0 {
      RoundIsFair(r, l, rounds[0]);
      RoundIsFairInSpace(r, l, rounds[0]);
    } else {
      assert rounds[..k][1..] == rounds[1..][..k - 1];
      hide IsRound;
      hide FairMove;
      hide FairInSpace;
      hide Next;
      EveryRoundIsFair(r, Next(l, rounds[0]), rounds[1..], k - 1);
    }
  }

  function Out(x: Round, zone: string): int { if x.target.Some? && x.source == zone then x.vol.size else 0 }

  function In(x: Round, zone: string): int { if x.target == Some(zone) then x.vol.size else 0 }

  lemma AccountOne(r: Rule, l: Ledger, x: Round, zone: string)
    requires IsRound(r, l, x)
    ensures Get(Next(l, x).avail, zone) == Get(l.avail, zone) + Out(x, zone) - In(x, zone)
  {
    RoundIsFair(r, l, x);
    hide IsRound;
  }

  lemma FlowHead(rounds: seq<Round>, zone: string)
    requires rounds != []
    ensures Outflow(Moves(rounds), zone) == Out(rounds[0], zone) + Outflow(Moves(rounds[1..]), zone)
    ensures Inflow(Moves(rounds), zone) == In(rounds[0], zone) + Inflow(Moves(rounds[1..]), zone)
  {
    var m := Moves(rounds);
    if rounds[0].target.Some? {
      assert m[0] == MoveOf(rounds[0]) && m[1..] == Moves(rounds[1..]);
    } else {
      assert m == Moves(rounds[1..]);
    }
  }

  /** Each zone's space: what it had, plus what moved out, less what moved in. */
  lemma {:induction false} Accounting(r: Rule, l: Ledger, rounds: seq<Round>, zone: string)
    requires Follows(r, l, rounds)
    ensures var moves := Moves(rounds);
      Get(After(r, l, rounds).avail, zone) == Get(l.avail, zone) + Outflow(moves, zone) - Inflow(moves, zone)
    decreases |rounds|
  {
    if rounds != [] {
      AccountOne(r, l, rounds[0], zone);
      FlowHead(rounds, zone);
      hide IsRound;
      hide Next;
      hide Moves;
      hide Outflow;
      hide Inflow;
      Accounting(r, Next(l, rounds[0]), rounds[1..], zone);
    }
  }

  function Sum(names: seq<string>, avail: map<string, int>): int {
    if names == [] then 0 else Get(avail, names[0]) + Sum(names[1..], avail)
  }

  predicate Distinct(names: seq<string>) {
    forall i, j :: 0 <= i < j < |names| ==> names[i] != names[j]
  }

  lemma {:induction false} TransferSum(names: seq<string>, avail: map<string, int>,
                                       source: string, target: string, size: int)
    requires Distinct(names) && source != target
    ensures Sum(names, Transfer(avail, source, target, size)) ==
            Sum(names, avail) + (if source in names then size else 0) - (if target in names then size else 0)
  {
    if names != [] {
      TransferSum(names[1..], avail, source, target, size);
      assert names == [names[0]] + names[1..];
    }
  }

  /** The space of all zones together never changes. */
  lemma {:induction false} SpaceIsConserved(r: Rule, l: Ledger, rounds: seq<Round>, names: seq<string>)
    requires Follows(r, l, rounds) && Distinct(names) && forall i :: 0 <= i < |r.zones| ==> r.zones[i].zone in names
    ensures Sum(names, After(r, l, rounds).avail) == Sum(names, l.avail)
    decreases |rounds|
  {
    if rounds != [] {
      var x := rounds[0];
      RoundIsFair(r, l, x);
      if x.target.Some? { TransferSum(names, l.avail, x.source, x.target.value, x.vol.size); }
      hide IsRound;
      hide FairMove;
      SpaceIsConserved(r, Next(l, x), rounds[1..], names);
    }
  }

  ghost predicate Sound(l: Ledger) {
    && (forall z :: Get(l.avail, z) >= 0)
    && (forall z, i :: 0 <= i < |Queue(l, z)| ==> Queue(l, z)[i].size >= 0)
  }

  lemma NextSound(r: Rule, l: Ledger, x: Round)
    requires IsRound(r, l, x) && Sound(l)
    ensures Sound(Next(l, x))
  {
    RoundIsFair(r, l, x);
    assert x.vol.size >= 0;
    RequiredCovers(x.vol.size, r.headroom);
    hide IsRound;
    hide Required;
    var l' := Next(l, x);
    forall z ensures Get(l'.avail, z) >= 0 {
      if x.target.Some? {
        assert Get(l'.avail, z) == Get(l.avail, z) + Out(x, z) - In(x, z);
      }
    }
    forall z, i | 0 <= i < |Queue(l', z)| ensures Queue(l', z)[i].size >= 0 {
      if z == x.source { assert Queue(l', z)[i] == Queue(l, z)[i + 1]; } else { assert Queue(l', z) == Queue(l, z); }
    }
  }

  /** No zone is ever planned below zero. */
  lemma {:induction false} NeverNegative(r: Rule, l: Ledger, rounds: seq<Round>)
    requires Follows(r, l, rounds) && Sound(l)
    ensures Sound(After(r, l, rounds))
    decreases |rounds|
  {
    if rounds != [] {
      NextSound(r, l, rounds[0]);
      hide IsRound;
      hide Sound;
      hide Next;
      NeverNegative(r, Next(l, rounds[0]), rounds[1..]);
    }
  }

  /** The volumes taken from a zone, in order. */
  function Taken(rounds: seq<Round>, zone: string): seq<VolumeInfo> {
    if rounds == [] then [] else (if rounds[0].source == zone then [rounds[0].vol] else []) + Taken(rounds[1..], zone)
  }

  lemma QueueHead(r: Rule, l: Ledger, x: Round, zone: string)
    requires IsRound(r, l, x)
    ensures Queue(l, zone) == (if x.source == zone then [x.vol] else []) + Queue(Next(l, x), zone)
  {
    if x.source == zone { assert Queue(l, zone) == [x.vol] + Queue(l, zone)[1..]; }
  }

  /** Each zone's queue is taken from the front, a volume at a time. */
  lemma {:induction false} TakenIsPrefix(r: Rule, l: Ledger, rounds: seq<Round>, zone: string)
    requires Follows(r, l, rounds)
    ensures Taken(rounds, zone) + Queue(After(r, l, rounds), zone) == Queue(l, zone)
    decreases |rounds|
  {
    hide IsRound;
    hide Next;
    hide Queue;
    if rounds != [] {
      QueueHead(r, l, rounds[0], zone);
      TakenIsPrefix(r, Next(l, rounds[0]), rounds[1..], zone);
    }
  }

  lemma PrefixOfQueue(vols: seq<VolumeInfo>, zone: string, taken: seq<VolumeInfo>, rest: seq<VolumeInfo>)
    requires QueueOf(vols, zone, taken + rest)
    ensures BySize(taken) && multiset(taken) <= multiset(vols)
    ensures forall v :: v in taken ==> !v.inUse && v.zone == zone
  {
    var q := taken + rest;
    IdleWithin(vols, zone);
    forall i | 0 <= i < |taken| ensures taken[i] == q[i] {}
    forall v | v in taken ensures !v.inUse && v.zone == zone {
      assert v in multiset(q);
      assert v in multiset(Idle(vols, zone));
    }
  }

  /** From each zone only its own idle volumes are taken, no more often than listed, smallest
      first. */
  lemma OnlyIdleSmallestFirst(r: Rule, vols: seq<VolumeInfo>, l: Ledger, rounds: seq<Round>, zone: string)
    requires Starts(r.zones, vols, l) && Follows(r, l, rounds)
    ensures BySize(Taken(rounds, zone)) && multiset(Taken(rounds, zone)) <= multiset(vols)
    ensures forall v :: v in Taken(rounds, zone) ==> !v.inUse && v.zone == zone
  {
    TakenIsPrefix(r, l, rounds, zone);
    assert QueueOf(vols, zone, Queue(l, zone));
    hide *;
    PrefixOfQueue(vols, zone, Taken(rounds, zone), Queue(After(r, l, rounds), zone));
  }

  // ------------------------------------------------------ the moves it returns

  /** The move takes this volume: idle, and from its own zone. */
  predicate Takes(v: VolumeInfo, m: Move) {
    && !v.inUse && v.zone == m.source
    && v.namespace == m.namespace && v.pvc == m.pvc && v.pv == m.pv && v.size == m.size
  }

  ghost predicate TakesEach(taken: seq<VolumeInfo>, moves: seq<Move>) {
    |taken| == |moves| && forall i :: 0 <= i < |moves| ==> Takes(taken[i], moves[i])
  }

  /** Each move takes a listed idle volume, and none is taken more often than it is listed. */
  ghost predicate Carries(vols: seq<VolumeInfo>, moves: seq<Move>) {
    exists taken :: multiset(taken) <= multiset(vols) && TakesEach(taken, moves)
  }

  /** With no figure below zero to begin with, the moves leave no zone short. */
  ghost predicate Affordable(zones: seq<ZoneCapacity>, vols: seq<VolumeInfo>, moves: seq<Move>) {
    (forall i :: 0 <= i < |zones| ==> zones[i].avail >= 0) && (forall i :: 0 <= i < |vols| ==> vols[i].size >= 0) ==>
      forall z :: Get(AvailOf(zones, |zones|), z) + Outflow(moves, z) - Inflow(moves, z) >= 0
  }

  lemma {:induction false} NonNegative(zones: seq<ZoneCapacity>, n: nat, zone: string)
    requires n <= |zones| && forall i :: 0 <= i < |zones| ==> zones[i].avail >= 0
    ensures Get(AvailOf(zones, n), zone) >= 0
  {
    if n > 0 { NonNegative(zones, n - 1, zone); }
  }

  /** Figures that are not below zero are a sound start. */
  lemma SoundStart(zones: seq<ZoneCapacity>, vols: seq<VolumeInfo>, l: Ledger)
    requires Starts(zones, vols, l)
    requires (forall i :: 0 <= i < |zones| ==> zones[i].avail >= 0) && forall i :: 0 <= i < |vols| ==> vols[i].size >= 0
    ensures Sound(l)
  {
    forall z ensures Get(l.avail, z) >= 0 { NonNegative(zones, |zones|, z); }
    forall z, i | 0 <= i < |Queue(l, z)| ensures Queue(l, z)[i].size >= 0 {
      var v := Queue(l, z)[i];
      assert QueueOf(vols, z, Queue(l, z)) && v in multiset(Queue(l, z));
      assert v in multiset(Idle(vols, z)) && v in Idle(vols, z) && v in vols;
    }
  }

  lemma MovesAfford(r: Rule, vols: seq<VolumeInfo>, l: Ledger, rounds: seq<Round>)
    requires Starts(r.zones, vols, l) && Follows(r, l, rounds)
    ensures Affordable(r.zones, vols, Moves(rounds))
  {
    hide Follows;
    hide After;
    hide Moves;
    hide Outflow;
    hide Inflow;
    if (forall i :: 0 <= i < |r.zones| ==> r.zones[i].avail >= 0)
       && (forall i :: 0 <= i < |vols| ==> vols[i].size >= 0) {
      SoundStart(r.zones, vols, l);
      NeverNegative(r, l, rounds);
      forall z { Accounting(r, l, rounds, z); }
    }
  }

  /** The volumes of the rounds that moved one. */
  function Movers(rounds: seq<Round>): seq<VolumeInfo> {
    if rounds == [] then [] else (if rounds[0].target.Some? then [rounds[0].vol] else []) + Movers(rounds[1..])
  }

  ghost predicate AllIdle(l: Ledger) {
    forall z, v :: v in Queue(l, z) ==> !v.inUse
  }

  lemma {:induction false} MoversWithin(r: Rule, l: Ledger, rounds: seq<Round>, pool: multiset<VolumeInfo>)
    requires Follows(r, l, rounds) && Pooled(l, pool) && AllIdle(l)
    ensures multiset(Movers(rounds)) <= pool && TakesEach(Movers(rounds), Moves(rounds))
    decreases |rounds|
  {
    if rounds != [] {
      var x, l' := rounds[0], Next(l, rounds[0]);
      TakeOne(l, x, pool);
      assert x.vol in Queue(l, x.source) && x.vol.zone == x.source && !x.vol.inUse;
      assert AllIdle(l') by {
        forall z, v | v in Queue(l', z) ensures !v.inUse { assert v in Queue(l, z); }
      }
      hide IsRound;
      hide Next;
      hide Pooled;
      hide AllIdle;
      MoversWithin(r, l', rounds[1..], pool - multiset{x.vol});
      MoverHead(rounds);
    }
  }

  lemma MoverHead(rounds: seq<Round>)
    requires rounds != [] && TakesEach(Movers(rounds[1..]), Moves(rounds[1..]))
    requires rounds[0].target.Some? ==> Takes(rounds[0].vol, MoveOf(rounds[0]))
    ensures TakesEach(Movers(rounds), Moves(rounds))
  {}

  lemma StartIsPooled(vols: seq<VolumeInfo>, l: Ledger)
    requires forall z :: QueueOf(vols, z, Queue(l, z))
    ensures Pooled(l, multiset(vols)) && AllIdle(l)
  {
    forall z
      ensures multiset(Queue(l, z)) <= multiset(vols) && forall v :: v in Queue(l, z) ==> v.zone == z && !v.inUse
    {
      IdleWithin(vols, z);
      assert QueueOf(vols, z, Queue(l, z));
      forall v | v in Queue(l, z) ensures v.zone == z && !v.inUse { assert v in multiset(Idle(vols, z)); }
    }
  }

  lemma MovesCarry(r: Rule, vols: seq<VolumeInfo>, l: Ledger, rounds: seq<Round>)
    requires Starts(r.zones, vols, l) && Follows(r, l, rounds)
    ensures Carries(vols, Moves(rounds))
  {
    StartIsPooled(vols, l);
    MoversWithin(r, l, rounds, multiset(vols));
  }

  lemma NoMoves(zones: seq<ZoneCapacity>, vols: seq<VolumeInfo>)
    ensures Carries(vols, []) && Affordable(zones, vols, [])
  {
    assert multiset([]) <= multiset(vols) && TakesEach([], []);
    if forall i :: 0 <= i < |zones| ==> zones[i].avail >= 0 {
      forall z { NonNegative(zones, |zones|, z); }
    }
  }
}

/** StorageClass and VolumeAttributesClass parameters (pkg/csi/parameters.go): struct fields
    driven through two tag namespaces, from the class to the volume context to the drive
    options of an attach, in the CSI controller and in the operator. */
module Parameters {
  import opened Strings
  import opened Decimal

  /** The fields of StorageParameters, in order; ModifyVolumeParameters has some of them. */
  datatype Field =
    | StorageID | StorageFormat | AIO | Backup | Cache | Discard | IOThread | IopsRead | IopsWrite
    | ReadSpeedMbps | WriteSpeedMbps | SSD | ReadOnly | Iops | SpeedMbps | BlockSize | InodeSize
    | RootDirPermissions | EncryptionAllowDiscards | KataDirectVolume | Replicate | ReplicateSchedule
    | ReplicateZones | ResizeRequired | ResizeSizeBytes

  function Fields(): seq<Field> {
    [
    StorageID, StorageFormat, AIO, Backup, Cache, Discard, IOThread, IopsRead, IopsWrite,
    ReadSpeedMbps, WriteSpeedMbps, SSD, ReadOnly, Iops, SpeedMbps, BlockSize, InodeSize,
    RootDirPermissions, EncryptionAllowDiscards, KataDirectVolume, Replicate, ReplicateSchedule,
    ReplicateZones, ResizeRequired, ResizeSizeBytes]
  }

  function ModifyFields(): seq<Field> {
    [Backup, Discard, IopsRead, IopsWrite, ReadSpeedMbps, WriteSpeedMbps, Iops, SpeedMbps, ReplicateSchedule]
  }

  /** Map keys: the key a field is known by, or any other text. A field with both tags has
      the same text in both. */
  datatype Tag = Of(field: Field) | Extra(text: string)

  datatype Namespace = Json | Cfg

  type Texts = map<Tag, string>

  /** The struct tags. */
  predicate Tagged(ns: Namespace, f: Field) {
    match f
    case AIO | Backup | Cache | Discard | IOThread | SSD | Replicate => true
    case IopsRead | IopsWrite | ReadSpeedMbps | WriteSpeedMbps | ReadOnly => ns == Cfg
    case _ => ns == Json
  }

  datatype Kind = TextKind | NumKind | FlagKind

  function KindOf(f: Field): Kind {
    match f
    case StorageID | StorageFormat | AIO | Cache | Discard | RootDirPermissions | ReplicateSchedule | ReplicateZones =>
      TextKind
    case IopsRead | IopsWrite | ReadSpeedMbps | WriteSpeedMbps | Iops | SpeedMbps | BlockSize | InodeSize
       | ResizeSizeBytes => NumKind
    case _ => FlagKind
  }

  /** A field's value; Absent is a nil pointer. */
  datatype Value = Absent | Text(text: string) | Num(num: int) | Flag(flag: bool)

  type Params = map<Field, Value>

  function Get(p: Params, f: Field): Value { if f in p then p[f] else Absent }

  function Lookup(m: Texts, t: Tag): string { if t in m then m[t] else "" }

  /** strconv.ParseBool with its error ignored. */
  predicate ParseBool(s: string) { s in {"1", "t", "T", "true", "TRUE", "True"} }

  /** How mapByTag writes a value, if it does. */
  function Show(v: Value): Option<string> {
    match v
    case Absent => None
    case Text(s) => if s != "" then Some(s) else None
    case Num(n) => if Print(n) != "0" then Some(Print(n)) else None
    case Flag(b) => Some(if b then "1" else "0")
  }

  /** How unmarshalTag reads a text, if it can. */
  function Parse(k: Kind, s: string): Option<Value> {
    match k
    case TextKind => Some(Text(s))
    case NumKind => (match ParseInt(s) case None => None case Some(n) => Some(Num(n)))
    case FlagKind => Some(Flag(ParseBool(s)))
  }

  // ---------------------------------------------------------------- the loops

  function Tags(ns: Namespace, fields: seq<Field>): set<Tag> {
    set f | f in fields && Tagged(ns, f) :: Of(f)
  }

  function Shown(ns: Namespace, fields: seq<Field>, p: Params): Texts {
    map t | t in Tags(ns, fields) && t.Of? && Show(Get(p, t.field)).Some? :: Show(Get(p, t.field)).value
  }

  method MapByTag(ns: Namespace, fields: seq<Field>, p: Params) returns (m: Texts)
    ensures m == Shown(ns, fields, p)
  {
    m := map[];
    for i := 0 to |fields|
      invariant m == Shown(ns, fields[..i], p)
    {
      var f := fields[i];
      assert fields[..i + 1] == fields[..i] + [f];
      assert Tags(ns, fields[..i + 1]) == Tags(ns, fields[..i]) + if Tagged(ns, f) then {Of(f)} else {};
      if Tagged(ns, f) && Show(Get(p, f)).Some? {
        m := m[Of(f) := Show(Get(p, f)).value];
      }
    }
    assert fields[..|fields|] == fields;
  }

  predicate Bad(m: Texts, f: Field) {
    Tagged(Json, f) && Lookup(m, Of(f)) != "" && Parse(KindOf(f), Lookup(m, Of(f))).None?
  }

  /** What a field reads as: its text, or what it was. */
  function FieldIn(m: Texts, start: Params, f: Field): Value {
    if Tagged(Json, f) && Lookup(m, Of(f)) != "" && Parse(KindOf(f), Lookup(m, Of(f))).Some?
    then Parse(KindOf(f), Lookup(m, Of(f))).value
    else Get(start, f)
  }

  function ReadIn(m: Texts, fields: seq<Field>, start: Params): Params {
    map f | f in fields :: FieldIn(m, start, f)
  }

  method UnmarshalTag(m: Texts, fields: seq<Field>, start: Params) returns (r: Option<Params>)
    requires start.Keys == set f | f in fields
    ensures r.None? <==> exists f :: f in fields && Bad(m, f)
    ensures r.Some? ==> r.value == ReadIn(m, fields, start)
  {
    hide Parse;
    hide KindOf;
    hide Tagged;
    hide Lookup;
    var p := start;
    for i := 0 to |fields|
      invariant p.Keys == start.Keys
      invariant forall f :: f in fields[..i] ==> !Bad(m, f) && p[f] == FieldIn(m, start, f)
      invariant forall f :: f in p && f !in fields[..i] ==> p[f] == start[f]
    {
      var f := fields[i];
      assert fields[..i + 1] == fields[..i] + [f];
      if Tagged(Json, f) && Lookup(m, Of(f)) != "" {
        var v := Parse(KindOf(f), Lookup(m, Of(f)));
        if v.None? {
          assert Bad(m, f) && f in fields;
          return None;
        }
        p := p[f := v.value];
      }
    }
    assert fields[..|fields|] == fields;
    r := Some(p);
  }

  // ------------------------------------------------------------ the pipeline

  /** Zero values, and the three defaults that are set. */
  function Default(f: Field): Value {
    if f == Backup || f == Replicate then Flag(false)
    else if f == IOThread then Flag(true)
    else if KindOf(f) == TextKind then Text("")
    else if f == ResizeSizeBytes then Num(0)
    else Absent
  }

  function Start(): Params { map f | f in Fields() :: Default(f) }

  function NoChange(): Params { map f | f in ModifyFields() :: if f == ReplicateSchedule then Text("") else Absent }

  /** SSD emulation implies discard. */
  function ImplyDiscard(p: Params): Params {
    if Get(p, Discard) == Text("") && Get(p, SSD) == Flag(true) then p[Discard := Text("on")] else p
  }

  predicate Positive(v: Value) { v.Num? && v.num > 0 }

  /** One figure limits reads and writes. */
  function Throttle(p: Params): Params {
    var q := if Positive(Get(p, Iops)) then p[IopsRead := p[Iops]][IopsWrite := p[Iops]] else p;
    if Positive(Get(p, SpeedMbps)) then q[ReadSpeedMbps := p[SpeedMbps]][WriteSpeedMbps := p[SpeedMbps]] else q
  }

  function Extract(m: Texts): Option<Params> {
    if exists f :: f in Fields() && Bad(m, f) then None else Some(Throttle(ImplyDiscard(ReadIn(m, Fields(), Start()))))
  }

  function ExtractModify(m: Texts): Option<Params> {
    if exists f :: f in ModifyFields() && Bad(m, f) then None else Some(Throttle(ReadIn(m, ModifyFields(), NoChange())))
  }

  method ExtractParameters(m: Texts) returns (r: Option<Params>)
    ensures r == Extract(m)
  {
    var p := UnmarshalTag(m, Fields(), Start());
    if p.None? { return None; }
    r := Some(Throttle(ImplyDiscard(p.value)));
  }

  function ToMap(p: Params): Texts { Shown(Json, Fields(), p) }

  function ToCFG(p: Params): Texts { Shown(Cfg, Fields(), p) }

  /** The second map's entries where the first has none. */
  function Over(m: Texts, orig: Texts): Texts {
    map t | t in m.Keys + orig.Keys :: if Lookup(m, t) != "" then m[t] else if t in orig then orig[t] else m[t]
  }

  /** MergeMap: the class's options win over those they are merged with. */
  function MergeMap(vac: Params, orig: Texts): Texts { Over(Shown(Cfg, ModifyFields(), vac), orig) }

  method Merge(vac: Params, orig: Texts) returns (m: Texts)
    ensures m == MergeMap(vac, orig)
  {
    var over := MapByTag(Cfg, ModifyFields(), vac);
    hide Shown;
    hide ModifyFields;
    m := over;
    var todo := orig.Keys;
    while todo != {}
      invariant todo <= orig.Keys
      invariant m.Keys == over.Keys + (orig.Keys - todo)
      invariant forall t :: t in m ==>
        m[t] == if Lookup(over, t) != "" then over[t] else if t in orig && t !in todo then orig[t] else over[t]
    {
      var t :| t in todo;
      todo := todo - {t};
      if Lookup(m, t) == "" { m := m[t := orig[t]]; }
    }
    assert m.Keys == over.Keys + orig.Keys;
  }

  lemma FieldListed(f: Field)
    ensures f in Fields()
  {}

  lemma PrintsZero(n: int)
    ensures Print(n) == "0" <==> n == 0
  {
    assert n > 0 ==> PrintNat(n)[0] != '0';
    assert n < 0 ==> Print(n)[0] == '-';
  }

  /** The value has the field's type, and a number fits it. */
  predicate Typed(f: Field, v: Value) {
    match v
    case Absent => Default(f).Absent?
    case Text(_) => KindOf(f) == TextKind
    case Num(n) => KindOf(f) == NumKind && MIN_INT64 <= n <= MAX_INT64
    case Flag(_) => KindOf(f) == FlagKind
  }

  ghost predicate AllTyped(p: Params) {
    forall f :: f in p && Typed(f, p[f])
  }

  /** What an extracted struct is like. */
  ghost predicate Settled(p: Params) {
    && AllTyped(p)
    && (p[Discard] == Text("") ==> p[SSD] != Flag(true))
    && p[IopsRead] == p[IopsWrite] == (if Positive(p[Iops]) then p[Iops] else Absent)
    && p[ReadSpeedMbps] == p[WriteSpeedMbps] == (if Positive(p[SpeedMbps]) then p[SpeedMbps] else Absent)
    && p[ReadOnly] == Absent
  }

  lemma StartGives(f: Field)
    ensures f in Start() && Get(Start(), f) == Default(f)
  {
    FieldListed(f);
  }

  lemma ParseTyped(f: Field, s: string)
    requires Parse(KindOf(f), s).Some?
    ensures Typed(f, Parse(KindOf(f), s).value)
  {
    hide KindOf;
    hide ParseBool;
  }

  lemma DefaultTyped(f: Field)
    ensures Typed(f, Default(f))
  {}

  lemma ReadTyped(m: Texts, f: Field)
    ensures Typed(f, FieldIn(m, Start(), f))
  {
    StartGives(f);
    DefaultTyped(f);
    var s := Lookup(m, Of(f));
    if Parse(KindOf(f), s).Some? { ParseTyped(f, s); }
    hide Typed;
    hide Default;
    hide Start;
    hide KindOf;
    hide Parse;
    hide Tagged;
  }

  lemma RawTyped(m: Texts, f: Field)
    ensures var raw := ReadIn(m, Fields(), Start());
      f in raw && Typed(f, raw[f]) && (!Tagged(Json, f) ==> raw[f] == Default(f))
  {
    FieldListed(f);
    ReadTyped(m, f);
    StartGives(f);
    hide Start;
    hide Fields;
    hide Typed;
    hide Default;
    hide Tagged;
    hide Parse;
  }

  lemma DerivedTypes(iops: Value, speed: Value)
    requires Typed(Iops, iops) && Typed(SpeedMbps, speed)
    ensures Positive(iops) ==> Typed(IopsRead, iops) && Typed(IopsWrite, iops)
    ensures Positive(speed) ==> Typed(ReadSpeedMbps, speed) && Typed(WriteSpeedMbps, speed)
    ensures Typed(Discard, Text("on"))
  {}

  lemma UpdateTyped(p: Params, f: Field, v: Value)
    requires AllTyped(p) && Typed(f, v)
    ensures AllTyped(p[f := v])
  {
    hide Typed;
  }

  lemma DiscardTyped(p: Params)
    requires AllTyped(p)
    ensures AllTyped(ImplyDiscard(p))
  {
    DerivedTypes(p[Iops], p[SpeedMbps]);
    UpdateTyped(p, Discard, Text("on"));
    hide AllTyped;
  }

  lemma ThrottleTyped(p: Params)
    requires AllTyped(p)
    ensures AllTyped(Throttle(p))
  {
    DerivedTypes(p[Iops], p[SpeedMbps]);
    var iops, speed := p[Iops], p[SpeedMbps];
    hide AllTyped;
    var q := p;
    if Positive(iops) {
      UpdateTyped(p, IopsRead, iops);
      UpdateTyped(p[IopsRead := iops], IopsWrite, iops);
      q := p[IopsRead := iops][IopsWrite := iops];
    }
    if Positive(speed) {
      UpdateTyped(q, ReadSpeedMbps, speed);
      UpdateTyped(q[ReadSpeedMbps := speed], WriteSpeedMbps, speed);
    }
  }

  lemma DerivedSettled(raw: Params)
    requires AllTyped(raw)
    requires raw[IopsRead] == raw[IopsWrite] == raw[ReadSpeedMbps] == raw[WriteSpeedMbps] == raw[ReadOnly] == Absent
    ensures Settled(Throttle(ImplyDiscard(raw)))
  {
    hide Typed;
    DiscardTyped(raw);
    ThrottleTyped(ImplyDiscard(raw));
    assert Iops in raw && SpeedMbps in raw && Discard in raw && SSD in raw;
    hide AllTyped;
  }

  lemma RawSettled(m: Texts)
    ensures var raw := ReadIn(m, Fields(), Start());
      && AllTyped(raw)
      && raw[IopsRead] == raw[IopsWrite] == raw[ReadSpeedMbps] == raw[WriteSpeedMbps] == raw[ReadOnly] == Absent
  {
    hide ReadIn;
    hide Typed;
    hide Fields;
    hide Start;
    var raw := ReadIn(m, Fields(), Start());
    forall f ensures f in raw && Typed(f, raw[f]) { RawTyped(m, f); }
    RawTyped(m, IopsRead);
    RawTyped(m, IopsWrite);
    RawTyped(m, ReadSpeedMbps);
    RawTyped(m, WriteSpeedMbps);
    RawTyped(m, ReadOnly);
  }

  lemma ExtractSettled(m: Texts)
    requires Extract(m).Some?
    ensures Settled(Extract(m).value)
  {
    RawSettled(m);
    DerivedSettled(ReadIn(m, Fields(), Start()));
    hide *;
  }

  lemma ShownAt(ns: Namespace, p: Params, f: Field)
    requires Tagged(ns, f)
    ensures Lookup(Shown(ns, Fields(), p), Of(f)) == if Show(Get(p, f)).Some? then Show(Get(p, f)).value else ""
  {
    FieldListed(f);
    assert Of(f) in Tags(ns, Fields());
    hide Fields;
    hide Tagged;
    hide Show;
  }

  /** A typed value that is written reads back as itself, and one that is not is nothing the
      default would not say. */
  lemma ShowParse(f: Field, v: Value)
    requires Typed(f, v)
    ensures Show(v).Some? ==> Show(v).value != "" && Parse(KindOf(f), Show(v).value) == Some(v)
    ensures Show(v).None? ==> Show(Default(f)).None?
  {
    if v.Num? {
      ParsePrint(v.num);
      PrintsZero(v.num);
    }
  }

  // ------------------------------------------------- from context to options

  /** VolumeContext: what CreateVolume puts on the PV. */
  function Context(params: Texts, mutable: Texts): Option<Texts> {
    match (Extract(params), ExtractModify(mutable))
    case (Some(p), Some(v)) => Some(MergeMap(v, ToMap(p)))
    case _ => None
  }

  function WithReadOnly(p: Params, ro: bool): Params { if ro then p[ReadOnly := Flag(true)] else p }

  /** The drive options of ControllerPublishVolume: the context re-read, and the claim's
      present VolumeAttributesClass, if it has one, merged over it. */
  function DirectOptions(context: Texts, vac: Option<Params>, ro: bool): Option<Texts> {
    match Extract(context)
    case None => None
    case Some(p) =>
      var cfg := ToCFG(WithReadOnly(p, ro));
      Some(if vac.Some? then MergeMap(vac.value, cfg) else cfg)
  }

  /** diskOptions of the operator, from its own record. */
  function OperatorOptions(params: Texts, mutable: Texts, ro: bool): Option<Texts> {
    match Extract(params)
    case None => None
    case Some(p) =>
      var cfg := ToCFG(WithReadOnly(p, ro));
      if mutable == map[] then Some(cfg)
      else
        match ExtractModify(mutable)
        case None => None
        case Some(v) => Some(MergeMap(v, cfg))
  }

  // Reading these maps entry by entry.

  function TextOf(v: Value): string { if Show(v).Some? then Show(v).value else "" }

  /** The text a class puts on a field's key. */
  function ClassText(v: Params, f: Field): string {
    if f in ModifyFields() && Tagged(Cfg, f) then TextOf(Get(v, f)) else ""
  }

  lemma ShownClass(v: Params, f: Field)
    ensures Lookup(Shown(Cfg, ModifyFields(), v), Of(f)) == ClassText(v, f)
  {
    var tags := Tags(Cfg, ModifyFields());
    assert Of(f) in tags <==> f in ModifyFields() && Tagged(Cfg, f);
    hide ModifyFields;
    hide Tagged;
    hide Show;
  }

  lemma OverLookup(m: Texts, orig: Texts, t: Tag)
    ensures Lookup(Over(m, orig), t) == if Lookup(m, t) != "" then Lookup(m, t) else Lookup(orig, t)
  {}

  lemma MergeLookup(v: Params, orig: Texts, f: Field)
    ensures Lookup(MergeMap(v, orig), Of(f)) == if ClassText(v, f) != "" then ClassText(v, f) else Lookup(orig, Of(f))
  {
    ShownClass(v, f);
    OverLookup(Shown(Cfg, ModifyFields(), v), orig, Of(f));
    hide Over;
    hide Shown;
    hide ClassText;
    hide Lookup;
  }

  lemma CfgLookup(p: Params, f: Field)
    ensures Lookup(ToCFG(p), Of(f)) == if Tagged(Cfg, f) then TextOf(Get(p, f)) else ""
  {
    if Tagged(Cfg, f) { ShownAt(Cfg, p, f); }
    hide Tagged;
    hide Show;
    hide Fields;
  }

  /** A yes or no as Proxmox is told it. */
  function Bit(text: string, otherwise: string): string {
    if text == "" then otherwise else if text in {"1", "t", "T", "true", "TRUE", "True"} then "1" else "0"
  }

  /** A limit: a positive number, or none. */
  function Limit(text: string): string {
    match ParseInt(text)
    case None => ""
    case Some(n) => if n > 0 then Print(n) else ""
  }

  /** The drive option a class's parameters ask for: texts as given, with discard on for an ssd
      that says nothing of it; yes or no, with an IO thread and no backup unless asked for; and
      each figure as the limit of reads and of writes. */
  function Wanted(m: Texts, f: Field): string {
    match f
    case AIO | Cache => Lookup(m, Of(f))
    case Discard =>
      if Lookup(m, Of(Discard)) != "" then Lookup(m, Of(Discard))
      else if Bit(Lookup(m, Of(SSD)), "") == "1" then "on" else ""
    case Backup | Replicate => Bit(Lookup(m, Of(f)), "0")
    case IOThread => Bit(Lookup(m, Of(f)), "1")
    case SSD => Bit(Lookup(m, Of(f)), "")
    case IopsRead | IopsWrite => Limit(Lookup(m, Of(Iops)))
    case ReadSpeedMbps | WriteSpeedMbps => Limit(Lookup(m, Of(SpeedMbps)))
    case _ => ""
  }

  function Read(m: Texts): Params { ReadIn(m, Fields(), Start()) }

  lemma RawIs(m: Texts, f: Field)
    ensures var raw := ReadIn(m, Fields(), Start()); f in raw && raw[f] == FieldIn(m, Start(), f)
  {
    FieldListed(f);
    hide FieldIn;
    hide Start;
    hide Fields;
  }

  /** What a field is before anything is derived from it. */
  lemma Unmarshalled(m: Texts, f: Field)
    requires !Bad(m, f)
    ensures var s := Lookup(m, Of(f));
      Get(Read(m), f) == if !Tagged(Json, f) || s == "" then Default(f) else Parse(KindOf(f), s).value
  {
    RawIs(m, f);
    StartGives(f);
    hide Start;
    hide Fields;
    hide ReadIn;
    hide Default;
    hide Tagged;
    hide Parse;
    hide KindOf;
  }

  lemma ExtractIs(m: Texts)
    requires Extract(m).Some?
    ensures Extract(m).value == Throttle(ImplyDiscard(ReadIn(m, Fields(), Start()))) && forall f :: !Bad(m, f)
  {
    forall f ensures !Bad(m, f) { FieldListed(f); }
    hide Bad;
    hide Fields;
    hide Throttle;
    hide ImplyDiscard;
    hide ReadIn;
  }

  lemma LimitOf(s: string)
    requires s == "" || ParseInt(s).Some?
    ensures var v := if s == "" then Absent else Parse(NumKind, s).value;
      Limit(s) == TextOf(if Positive(v) then v else Absent)
  {
    if s != "" { PrintsZero(ParseInt(s).value); }
    hide Print;
  }

  lemma ImplyGives(p: Params, f: Field)
    ensures Get(ImplyDiscard(p), f) ==
      if f == Discard && Get(p, Discard) == Text("") && Get(p, SSD) == Flag(true) then Text("on") else Get(p, f)
  {}

  /** What is derived from the fields as they were read. */
  lemma Derived(raw: Params, f: Field)
    ensures Get(Throttle(ImplyDiscard(raw)), f) ==
      if Figure(f).Some? && Positive(Get(raw, Figure(f).value)) then Get(raw, Figure(f).value)
      else if f == Discard && Get(raw, Discard) == Text("") && Get(raw, SSD) == Flag(true) then Text("on")
      else Get(raw, f)
  {
    hide Throttle;
    hide ImplyDiscard;
    ThrottleGives(ImplyDiscard(raw), f);
    ImplyGives(raw, f);
    if Figure(f).Some? { ImplyGives(raw, Figure(f).value); }
  }

  lemma FigureOption(raw: Params, f: Field, s: string)
    requires Figure(f).Some? && (s == "" || ParseInt(s).Some?) && Get(raw, f) == Absent
    requires Get(raw, Figure(f).value) == if s == "" then Absent else Num(ParseInt(s).value)
    ensures TextOf(Get(Throttle(ImplyDiscard(raw)), f)) == Limit(s)
  {
    hide Throttle;
    hide ImplyDiscard;
    hide ParseInt;
    hide Print;
    Derived(raw, f);
    LimitOf(s);
  }

  lemma DiscardOption(raw: Params, d: string, s: string)
    requires Get(raw, Discard) == Text(d) && Get(raw, SSD) == if s == "" then Absent else Flag(ParseBool(s))
    ensures TextOf(Get(Throttle(ImplyDiscard(raw)), Discard)) ==
      if d != "" then d else if Bit(s, "") == "1" then "on" else ""
  {
    hide Throttle;
    hide ImplyDiscard;
    Derived(raw, Discard);
  }

  lemma OptionIs(m: Texts, f: Field)
    requires Extract(m).Some?
    ensures Lookup(ToCFG(Extract(m).value), Of(f)) ==
      if Tagged(Cfg, f) then TextOf(Get(Throttle(ImplyDiscard(Read(m))), f)) else ""
  {
    ExtractIs(m);
    CfgLookup(Extract(m).value, f);
    hide *;
  }

  lemma LimitOption(m: Texts, f: Field)
    requires Extract(m).Some? && Figure(f).Some?
    ensures TextOf(Get(Throttle(ImplyDiscard(Read(m))), f)) == Wanted(m, f)
  {
    hide Extract;
    hide Read;
    hide Throttle;
    hide ImplyDiscard;
    hide Limit;
    hide TextOf;
    ExtractIs(m);
    FigureRead(m, f);
    FigureOption(Read(m), f, Lookup(m, Of(Figure(f).value)));
  }

  lemma FigureRead(m: Texts, f: Field)
    requires Figure(f).Some? && forall g :: !Bad(m, g)
    ensures var s := Lookup(m, Of(Figure(f).value));
      && (s == "" || ParseInt(s).Some?) && Get(Read(m), f) == Absent
      && Get(Read(m), Figure(f).value) == if s == "" then Absent else Num(ParseInt(s).value)
  {
    hide Read;
    hide ParseInt;
    hide Lookup;
    Unmarshalled(m, f);
    Unmarshalled(m, Figure(f).value);
    assert !Bad(m, Figure(f).value);
  }

  lemma DiscardWanted(m: Texts)
    requires Extract(m).Some?
    ensures TextOf(Get(Throttle(ImplyDiscard(Read(m))), Discard)) == Wanted(m, Discard)
  {
    hide Extract;
    hide Read;
    hide Throttle;
    hide ImplyDiscard;
    hide ParseBool;
    hide Bit;
    hide TextOf;
    ExtractIs(m);
    Unmarshalled(m, Discard);
    Unmarshalled(m, SSD);
    DiscardOption(Read(m), Lookup(m, Of(Discard)), Lookup(m, Of(SSD)));
  }

  lemma FlagWanted(m: Texts, f: Field)
    requires Extract(m).Some? && (f == Backup || f == Replicate || f == IOThread || f == SSD)
    ensures TextOf(Get(Throttle(ImplyDiscard(Read(m))), f)) == Wanted(m, f)
  {
    hide Extract;
    hide Read;
    hide Throttle;
    hide ImplyDiscard;
    hide ParseBool;
    hide Bit;
    hide TextOf;
    ExtractIs(m);
    Derived(Read(m), f);
    Unmarshalled(m, f);
    FlagOption(Lookup(m, Of(f)), Default(f));
    DefaultTexts();
  }

  lemma TextWanted(m: Texts, f: Field)
    requires Extract(m).Some? && (f == AIO || f == Cache || f == ReadOnly)
    ensures TextOf(Get(Throttle(ImplyDiscard(Read(m))), f)) == Wanted(m, f)
  {
    hide Extract;
    hide Read;
    hide Throttle;
    hide ImplyDiscard;
    hide TextOf;
    ExtractIs(m);
    Derived(Read(m), f);
    Unmarshalled(m, f);
    TextOption(Lookup(m, Of(f)));
  }

  /** Of the options themselves: what an attach tells Proxmox is what the class asks for. */
  lemma OptionsOfClass(m: Texts, f: Field)
    requires Extract(m).Some?
    ensures Lookup(ToCFG(Extract(m).value), Of(f)) == Wanted(m, f)
  {
    hide ToCFG;
    hide Extract;
    hide Read;
    hide Throttle;
    hide ImplyDiscard;
    hide TextOf;
    hide Bit;
    hide Limit;
    OptionIs(m, f);
    if Figure(f).Some? {
      LimitOption(m, f);
    } else if f == Discard {
      DiscardWanted(m);
    } else if f == Backup || f == Replicate || f == IOThread || f == SSD {
      FlagWanted(m, f);
    } else if Tagged(Cfg, f) {
      TextWanted(m, f);
    }
  }

  lemma FlagOption(s: string, otherwise: Value)
    ensures TextOf(if s == "" then otherwise else Flag(ParseBool(s))) == Bit(s, TextOf(otherwise))
  {}

  lemma DefaultTexts()
    ensures TextOf(Default(Backup)) == "0" && TextOf(Default(Replicate)) == "0"
    ensures TextOf(Default(IOThread)) == "1" && TextOf(Default(SSD)) == ""
  {}

  lemma TextOption(s: string)
    ensures TextOf(Text(s)) == s && TextOf(Absent) == ""
  {}

  /** Maps without empty texts, and with no key but the fields', are what their lookups say. */
  ghost predicate Solid(m: Texts) {
    forall t :: t in m ==> t.Of? && m[t] != ""
  }

  lemma SolidEqual(m: Texts, n: Texts)
    requires Solid(m) && Solid(n) && forall f :: Lookup(m, Of(f)) == Lookup(n, Of(f))
    ensures m == n
  {
    forall t ensures t in m <==> t in n {
      if t in m { assert Lookup(m, Of(t.field)) != ""; }
      if t in n { assert Lookup(n, Of(t.field)) != ""; }
    }
    forall t | t in m ensures m[t] == n[t] { assert Lookup(m, Of(t.field)) == m[t]; }
  }

  lemma ShowSolid(v: Value)
    ensures Show(v).Some? ==> Show(v).value != ""
  {}

  lemma ShownSolid(ns: Namespace, fields: seq<Field>, p: Params)
    ensures Solid(Shown(ns, fields, p))
  {
    forall t | t in Shown(ns, fields, p) ensures t.Of? && Shown(ns, fields, p)[t] != "" { ShowSolid(Get(p, t.field)); }
    hide Show;
  }

  lemma MergeSolid(v: Params, orig: Texts)
    requires Solid(orig)
    ensures Solid(MergeMap(v, orig))
  {
    ShownSolid(Cfg, ModifyFields(), v);
    hide Shown;
  }

  /** What a class says is of the field's type. */
  ghost predicate ClassOk(v: Params) {
    forall f :: ClassText(v, f) != "" ==> Typed(f, Get(v, f))
  }

  lemma ModifyField(m: Texts, f: Field)
    ensures var v := FieldIn(m, NoChange(), f); v == Absent || v == Text("") || Typed(f, v)
  {
    var s := Lookup(m, Of(f));
    if Parse(KindOf(f), s).Some? { ParseTyped(f, s); }
    hide Typed;
    hide Parse;
    hide KindOf;
    hide Tagged;
  }

  /** The five fields a class can put on an attach. */
  lemma ClassFields(f: Field)
    ensures f in ModifyFields() && Tagged(Cfg, f) <==>
      f in {Backup, Discard, IopsRead, IopsWrite, ReadSpeedMbps, WriteSpeedMbps}
  {}

  lemma RawModify(m: Texts, f: Field)
    requires f in ModifyFields()
    ensures var raw := ReadIn(m, ModifyFields(), NoChange());
      f in raw && (raw[f] == Absent || raw[f] == Text("") || Typed(f, raw[f]))
    ensures !Tagged(Json, f) ==> ReadIn(m, ModifyFields(), NoChange())[f] == Absent
  {
    ModifyField(m, f);
    hide Typed;
    hide Parse;
  }

  /** Which figure a throttle field takes. */
  function Figure(f: Field): Option<Field> {
    match f
    case IopsRead | IopsWrite => Some(Iops)
    case ReadSpeedMbps | WriteSpeedMbps => Some(SpeedMbps)
    case _ => None
  }

  lemma ThrottleGives(p: Params, f: Field)
    ensures Get(Throttle(p), f) ==
      if Figure(f).Some? && Positive(Get(p, Figure(f).value)) then Get(p, Figure(f).value) else Get(p, f)
  {}

  lemma FigureTyped(f: Field, v: Value)
    requires Figure(f).Some? && Positive(v) && Typed(Figure(f).value, v)
    ensures Typed(f, v)
  {}

  lemma FigureListed(f: Field)
    requires Figure(f).Some?
    ensures Figure(f).value in ModifyFields()
  {}

  lemma ModifyFieldOk(m: Texts, f: Field)
    requires ExtractModify(m).Some? && ClassText(ExtractModify(m).value, f) != ""
    ensures Typed(f, Get(ExtractModify(m).value, f))
  {
    hide Typed;
    hide ReadIn;
    hide NoChange;
    hide ModifyFields;
    hide Tagged;
    hide Figure;
    var raw := ReadIn(m, ModifyFields(), NoChange());
    ThrottleGives(raw, f);
    RawModify(m, f);
    if Figure(f).Some? {
      FigureListed(f);
      RawModify(m, Figure(f).value);
      if Positive(Get(raw, Figure(f).value)) { FigureTyped(f, Get(raw, Figure(f).value)); }
    }
    hide Throttle;
  }

  lemma ModifyOk(m: Texts)
    requires ExtractModify(m).Some?
    ensures ClassOk(ExtractModify(m).value)
  {
    hide Typed;
    hide ExtractModify;
    hide ClassText;
    forall f | ClassText(ExtractModify(m).value, f) != "" ensures Typed(f, Get(ExtractModify(m).value, f)) {
      ModifyFieldOk(m, f);
    }
  }

  // -------------------------------------------------------------- the context

  /** What the context says of a field: the class's word, else the parameters'. */
  function Eff(p: Params, v: Params, f: Field): Value {
    if Tagged(Json, f) && ClassText(v, f) != "" then Get(v, f) else Get(p, f)
  }

  lemma ContextField(p: Params, v: Params, f: Field)
    requires Settled(p) && ClassOk(v) && Tagged(Json, f)
    ensures var ctx := MergeMap(v, ToMap(p));
      && !Bad(ctx, f)
      && FieldIn(ctx, Start(), f) == if Show(Eff(p, v, f)).Some? then Eff(p, v, f) else Default(f)
  {
    hide Typed;
    hide Show;
    hide Default;
    hide Parse;
    hide KindOf;
    hide Tagged;
    hide Start;
    hide Fields;
    hide ModifyFields;
    hide Shown;
    hide Over;
    MergeLookup(v, ToMap(p), f);
    ShownAt(Json, p, f);
    StartGives(f);
    assert Typed(f, Get(p, f));
    assert Typed(f, Eff(p, v, f));
    ShowParse(f, Eff(p, v, f));
    hide MergeMap;
  }

  function ContextRaw(p: Params, v: Params): Params { ReadIn(MergeMap(v, ToMap(p)), Fields(), Start()) }

  lemma ContextRawGives(p: Params, v: Params, f: Field)
    requires Settled(p) && ClassOk(v)
    ensures Get(ContextRaw(p, v), f) ==
      if Tagged(Json, f) && Show(Eff(p, v, f)).Some? then Eff(p, v, f) else Default(f)
    ensures Tagged(Json, f) ==> TextOf(Get(ContextRaw(p, v), f)) == TextOf(Eff(p, v, f))
  {
    hide Typed;
    hide Default;
    hide Tagged;
    hide Start;
    hide Show;
    hide MergeMap;
    hide ToMap;
    FieldListed(f);
    StartGives(f);
    hide Fields;
    if Tagged(Json, f) {
      ContextField(p, v, f);
      assert Typed(f, Get(p, f));
      assert Typed(f, Eff(p, v, f));
      ShowParse(f, Eff(p, v, f));
    }
    hide Parse;
    hide KindOf;
    hide ClassText;
  }

  lemma ContextReads(p: Params, v: Params)
    requires Settled(p) && ClassOk(v)
    ensures Extract(MergeMap(v, ToMap(p))) == Some(Throttle(ImplyDiscard(ContextRaw(p, v))))
  {
    var ctx := MergeMap(v, ToMap(p));
    forall f | f in Fields() ensures !Bad(ctx, f) {
      if Tagged(Json, f) { ContextField(p, v, f); }
    }
    hide *;
  }

  lemma DiscardIsText(v: Value)
    requires Typed(Discard, v)
    ensures v.Text?
  {}

  lemma DiscardFacts(p: Params)
    requires Settled(p)
    ensures Discard in p && SSD in p && p[Discard].Text? && (p[Discard] == Text("") ==> p[SSD] != Flag(true))
  {
    hide Typed;
    assert Typed(Discard, p[Discard]) && SSD in p;
    DiscardIsText(p[Discard]);
  }

  lemma DiscardEff(p: Params, v: Params)
    ensures Eff(p, v, SSD) == Get(p, SSD) && Tagged(Json, SSD) && Tagged(Json, Discard)
    ensures Default(SSD) == Absent && Default(Discard) == Text("")
    ensures Show(Eff(p, v, Discard)).None? ==> Eff(p, v, Discard) == Get(p, Discard)
  {
    ClassFields(SSD);
    hide ModifyFields;
  }

  /** The discard default cannot come in on the second reading. */
  lemma NoSecondDiscard(p: Params, v: Params)
    requires Settled(p) && ClassOk(v)
    ensures ImplyDiscard(ContextRaw(p, v)) == ContextRaw(p, v)
  {
    hide ContextRaw;
    hide Settled;
    hide ClassOk;
    hide Eff;
    hide Tagged;
    hide Default;
    ContextRawGives(p, v, Discard);
    ContextRawGives(p, v, SSD);
    DiscardEff(p, v);
    DiscardFacts(p);
  }

  lemma FigureTags(f: Field)
    requires Figure(f).Some?
    ensures var g := Figure(f).value;
      !Tagged(Json, f) && Tagged(Json, g) && !Tagged(Cfg, g) && Default(f) == Default(g) == Absent
  {}

  lemma FigureReads(p: Params, f: Field)
    requires Settled(p) && Figure(f).Some?
    ensures var g := Figure(f).value; Get(p, f) == if Positive(Get(p, g)) then Get(p, g) else Absent
  {
    hide Typed;
    assert f in p && Figure(f).value in p;
    hide AllTyped;
  }

  lemma PositiveShows(v: Value)
    requires Positive(v)
    ensures Show(v).Some?
  {
    PrintsZero(v.num);
  }

  lemma ContextFigure(p: Params, v: Params, f: Field)
    requires Settled(p) && ClassOk(v) && Figure(f).Some?
    ensures Get(Throttle(ContextRaw(p, v)), f) == Get(p, f) && Eff(p, v, f) == Get(p, f)
  {
    var g := Figure(f).value;
    ThrottleGives(ContextRaw(p, v), f);
    ContextRawGives(p, v, f);
    ContextRawGives(p, v, g);
    FigureTags(f);
    FigureReads(p, f);
    if Positive(Get(p, g)) { PositiveShows(Get(p, g)); }
    hide ContextRaw;
    hide Throttle;
    hide Settled;
    hide ClassOk;
    hide Figure;
    hide Tagged;
    hide Default;
    hide ModifyFields;
  }

  /** Every drive option re-read from the context is the class's word, else the parameters'. */
  lemma ContextGives(p: Params, v: Params, f: Field)
    requires Settled(p) && ClassOk(v) && Tagged(Cfg, f)
    ensures TextOf(Get(Throttle(ContextRaw(p, v)), f)) == TextOf(Eff(p, v, f))
  {
    hide ContextRaw;
    hide Throttle;
    hide Typed;
    if Figure(f).Some? {
      ContextFigure(p, v, f);
    } else {
      ThrottleGives(ContextRaw(p, v), f);
      ContextRawGives(p, v, f);
      assert Tagged(Json, f) || f == ReadOnly;
    }
    hide ClassText;
    hide AllTyped;
  }

  // ------------------------------------------------------------------ results

  /** The text on a field's key among the drive options. */
  function OptionText(v: Value, ro: bool, f: Field): string {
    if !Tagged(Cfg, f) then "" else if f == ReadOnly && ro then "1" else TextOf(v)
  }

  lemma OptionLookup(p: Params, ro: bool, f: Field)
    ensures Lookup(ToCFG(WithReadOnly(p, ro)), Of(f)) == OptionText(Get(p, f), ro, f)
  {
    hide Tagged;
    hide ToCFG;
    CfgLookup(WithReadOnly(p, ro), f);
  }

  lemma ContextOption(p: Params, v: Params, ro: bool, f: Field)
    requires Settled(p) && ClassOk(v)
    ensures Lookup(ToCFG(WithReadOnly(Throttle(ContextRaw(p, v)), ro)), Of(f)) == OptionText(Eff(p, v, f), ro, f)
  {
    hide ContextRaw;
    hide Throttle;
    hide ToCFG;
    hide Eff;
    hide Settled;
    hide ClassOk;
    hide Tagged;
    OptionLookup(Throttle(ContextRaw(p, v)), ro, f);
    if Tagged(Cfg, f) { ContextGives(p, v, f); }
  }

  lemma NothingOk(p: Params, f: Field)
    ensures ClassOk(map[]) && Eff(p, map[], f) == Get(p, f)
  {}

  lemma NoClass(m: Texts)
    requires Solid(m)
    ensures MergeMap(map[], m) == m
  {
    assert Shown(Cfg, ModifyFields(), map[]) == map[];
  }

  lemma ReExtract(p: Params, v: Params)
    requires Settled(p) && ClassOk(v)
    ensures Extract(MergeMap(v, ToMap(p))) == Some(Throttle(ContextRaw(p, v)))
  {
    ContextReads(p, v);
    NoSecondDiscard(p, v);
    hide *;
  }

  lemma OptionsSolid(p: Params)
    ensures Solid(ToCFG(p)) && Solid(ToMap(p))
  {
    ShownSolid(Cfg, Fields(), p);
    ShownSolid(Json, Fields(), p);
    hide Solid;
    hide Shown;
    hide Fields;
  }

  /** Writing the parameters to a context and reading them back keeps every drive option. */
  lemma RoundTripKeepsOptions(params: Texts)
    requires Extract(params).Some?
    ensures var p := Extract(params).value;
      Extract(ToMap(p)).Some? && ToCFG(Extract(ToMap(p)).value) == ToCFG(p)
  {
    hide Extract;
    hide ContextRaw;
    hide Throttle;
    hide Settled;
    hide ClassOk;
    hide ToMap;
    hide ToCFG;
    hide Eff;
    hide Solid;
    var p := Extract(params).value;
    ExtractSettled(params);
    NothingOk(p, Iops);
    OptionsSolid(p);
    NoClass(ToMap(p));
    ReExtract(p, map[]);
    var q := Throttle(ContextRaw(p, map[]));
    forall f ensures Lookup(ToCFG(q), Of(f)) == Lookup(ToCFG(p), Of(f)) {
      ContextOption(p, map[], false, f);
      OptionLookup(p, false, f);
      NothingOk(p, f);
    }
    OptionsSolid(q);
    SolidEqual(ToCFG(q), ToCFG(p));
  }

  lemma DirectLookup(p: Params, v: Params, v': Params, ro: bool, f: Field)
    requires Settled(p) && ClassOk(v)
    ensures Lookup(MergeMap(v', ToCFG(WithReadOnly(Throttle(ContextRaw(p, v)), ro))), Of(f)) ==
      if ClassText(v', f) != "" then ClassText(v', f) else OptionText(Eff(p, v, f), ro, f)
    ensures Lookup(MergeMap(v', ToCFG(WithReadOnly(p, ro))), Of(f)) ==
      if ClassText(v', f) != "" then ClassText(v', f) else OptionText(Get(p, f), ro, f)
  {
    hide *;
    ContextOption(p, v, ro, f);
    OptionLookup(p, ro, f);
    MergeLookup(v', ToCFG(WithReadOnly(Throttle(ContextRaw(p, v)), ro)), f);
    MergeLookup(v', ToCFG(WithReadOnly(p, ro)), f);
  }

  /** The field's option is the same in both modes: the present class sets it, or the class at
      creation did not, or it said what the parameters say. */
  ghost predicate Agrees(p: Params, v: Params, v': Params, f: Field) {
    f in {Backup, Discard} && ClassText(v', f) == "" && ClassText(v, f) != "" ==> ClassText(v, f) == TextOf(Get(p, f))
  }

  lemma AgreesIs(p: Params, v: Params, v': Params, ro: bool, f: Field)
    ensures ClassText(v', f) == "" ==>
      (OptionText(Eff(p, v, f), ro, f) == OptionText(Get(p, f), ro, f) <==> Agrees(p, v, v', f))
  {
    ClassFields(f);
    hide ModifyFields;
    hide Show;
  }

  /** Options attached from the context frozen at creation, under a class assigned since: they
      are the operator's exactly when the two settings a context freezes agree. */
  lemma FrozenContextAgrees(p: Params, v: Params, v': Params, ro: bool)
    requires Settled(p) && ClassOk(v)
    ensures MergeMap(v', ToCFG(WithReadOnly(Throttle(ContextRaw(p, v)), ro))) ==
            MergeMap(v', ToCFG(WithReadOnly(p, ro)))
      <==> Agrees(p, v, v', Backup) && Agrees(p, v, v', Discard)
  {
    hide *;
    var a, b := ToCFG(WithReadOnly(Throttle(ContextRaw(p, v)), ro)), ToCFG(WithReadOnly(p, ro));
    var x, y := MergeMap(v', a), MergeMap(v', b);
    forall f ensures Lookup(x, Of(f)) == Lookup(y, Of(f)) <==> Agrees(p, v, v', f) {
      DirectLookup(p, v, v', ro, f);
      AgreesIs(p, v, v', ro, f);
      AgreesElsewhere(p, v, v', f);
    }
    if Agrees(p, v, v', Backup) && Agrees(p, v, v', Discard) {
      forall f ensures Lookup(x, Of(f)) == Lookup(y, Of(f)) { AgreesElsewhere(p, v, v', f); }
      OptionsSolid(WithReadOnly(Throttle(ContextRaw(p, v)), ro));
      OptionsSolid(WithReadOnly(p, ro));
      MergeSolid(v', a);
      MergeSolid(v', b);
      SolidEqual(x, y);
    }
  }

  lemma AgreesElsewhere(p: Params, v: Params, v': Params, f: Field)
    ensures f != Backup && f != Discard ==> Agrees(p, v, v', f)
    ensures ClassText(v', f) != "" ==> Agrees(p, v, v', f)
  {
    hide ClassText;
  }

  lemma EmptyModify()
    ensures ExtractModify(map[]) == Some(NoChange()) && forall f :: ClassText(NoChange(), f) == ""
  {
    assert forall f :: !Bad(map[], f);
    var raw := ReadIn(map[], ModifyFields(), NoChange());
    assert raw == NoChange();
    assert Throttle(raw) == raw;
    hide Throttle;
    hide Bad;
    hide ReadIn;
  }

  lemma EmptyClass(m: Texts)
    requires Solid(m)
    ensures ExtractModify(map[]).Some? && MergeMap(ExtractModify(map[]).value, m) == m
  {
    hide Shown;
    EmptyModify();
    var raw := NoChange();
    hide ModifyFields;
    hide NoChange;
    hide ClassText;
    hide ExtractModify;
    forall t ensures Lookup(Shown(Cfg, ModifyFields(), raw), t) == "" {
      if t.Of? { ShownClass(raw, t.field); }
      ShownSolid(Cfg, ModifyFields(), raw);
    }
    ShownSolid(Cfg, ModifyFields(), raw);
    forall t ensures t !in Shown(Cfg, ModifyFields(), raw) {
      assert Lookup(Shown(Cfg, ModifyFields(), raw), t) == "";
    }
  }

  /** The operator's options, with or without a class on record. */
  lemma OperatorIs(params: Texts, mutable: Texts, ro: bool)
    requires Extract(params).Some? && ExtractModify(mutable).Some?
    ensures OperatorOptions(params, mutable, ro) ==
      Some(MergeMap(ExtractModify(mutable).value, ToCFG(WithReadOnly(Extract(params).value, ro))))
  {
    hide Extract;
    hide ExtractModify;
    hide ToCFG;
    hide MergeMap;
    var cfg := ToCFG(WithReadOnly(Extract(params).value, ro));
    OptionsSolid(WithReadOnly(Extract(params).value, ro));
    if mutable == map[] { EmptyClass(cfg); }
  }

  /** A volume created under one class and attached under another: both modes give the same
      drive options exactly when the backup and discard settings the context froze agree. */
  lemma DirectEqualsOperator(params: Texts, created: Texts, present: Texts, ro: bool)
    requires Context(params, created).Some? && ExtractModify(present).Some?
    ensures DirectOptions(Context(params, created).value, ExtractModify(present), ro).Some?
    ensures OperatorOptions(params, present, ro).Some?
    ensures DirectOptions(Context(params, created).value, ExtractModify(present), ro) ==
            OperatorOptions(params, present, ro) <==>
      var p, v, v' := Extract(params).value, ExtractModify(created).value, ExtractModify(present).value;
      Agrees(p, v, v', Backup) && Agrees(p, v, v', Discard)
  {
    hide Extract;
    hide ExtractModify;
    hide ToCFG;
    hide ToMap;
    hide MergeMap;
    hide Throttle;
    hide ContextRaw;
    hide OperatorOptions;
    hide Agrees;
    hide Settled;
    hide ClassOk;
    var p, v, v' := Extract(params).value, ExtractModify(created).value, ExtractModify(present).value;
    ExtractSettled(params);
    ModifyOk(created);
    ReExtract(p, v);
    OperatorIs(params, present, ro);
    FrozenContextAgrees(p, v, v', ro);
  }

  /** With the class it was created under, or with none, an attach has the operator's options. */
  lemma SameClassSameOptions(params: Texts, mutable: Texts, ro: bool)
    requires Context(params, mutable).Some?
    ensures DirectOptions(Context(params, mutable).value, ExtractModify(mutable), ro) ==
            OperatorOptions(params, mutable, ro)
    ensures OperatorOptions(params, mutable, ro).Some?
    ensures mutable == map[] ==>
      DirectOptions(Context(params, mutable).value, None, ro) == OperatorOptions(params, mutable, ro)
  {
    hide Extract;
    hide ExtractModify;
    hide ToCFG;
    hide MergeMap;
    hide OperatorOptions;
    DirectEqualsOperator(params, mutable, mutable, ro);
    if mutable == map[] {
      var p := Extract(Context(params, mutable).value).value;
      OptionsSolid(WithReadOnly(p, ro));
      EmptyClass(ToCFG(WithReadOnly(p, ro)));
    }
  }

  lemma ExtractedBackup(m: Texts)
    requires forall f :: !Bad(m, f)
    ensures Extract(m).Some? && Get(Extract(m).value, Backup) == FieldIn(m, Start(), Backup)
  {
    hide Bad;
    FieldListed(Backup);
    hide Fields;
    var raw := ReadIn(m, Fields(), Start());
    assert raw[Backup] == FieldIn(m, Start(), Backup);
    hide ReadIn;
    hide Start;
    hide FieldIn;
    ThrottleGives(ImplyDiscard(raw), Backup);
    hide Throttle;
  }

  lemma ClassBackup(m: Texts)
    requires forall f :: !Bad(m, f)
    ensures ExtractModify(m).Some? && Get(ExtractModify(m).value, Backup) == FieldIn(m, NoChange(), Backup)
  {
    hide Bad;
    assert Backup in ModifyFields();
    hide ModifyFields;
    var raw := ReadIn(m, ModifyFields(), NoChange());
    assert raw[Backup] == FieldIn(m, NoChange(), Backup);
    hide ReadIn;
    hide NoChange;
    hide FieldIn;
    ThrottleGives(raw, Backup);
    hide Throttle;
  }

  lemma BackupTexts()
    ensures FieldIn(map[], Start(), Backup) == Flag(false)
    ensures FieldIn(map[], NoChange(), Backup) == Absent
    ensures FieldIn(map[Of(Backup) := "1"], NoChange(), Backup) == Flag(true)
    ensures forall f :: !Bad(map[], f) && !Bad(map[Of(Backup) := "1"], f)
  {
    hide Start;
    hide NoChange;
    hide ParseInt;
    StartGives(Backup);
    NoChangeGives();
    forall f ensures !Bad(map[], f) && !Bad(map[Of(Backup) := "1"], f) {}
  }

  lemma NoChangeGives()
    ensures Get(NoChange(), Backup) == Absent
  {}

  lemma BackupClass(v: Params)
    ensures ClassText(v, Backup) == TextOf(Get(v, Backup))
  {
    ClassFields(Backup);
    hide Show;
  }

  /** For one: backup turned on by the class at creation, and not named by the present one. */
  lemma FrozenBackupDiffers(ro: bool)
    ensures var created: Texts := map[Of(Backup) := "1"];
      && Context(map[], created).Some?
      && DirectOptions(Context(map[], created).value, ExtractModify(map[]), ro) != OperatorOptions(map[], map[], ro)
  {
    hide Extract;
    hide ExtractModify;
    hide Bad;
    hide FieldIn;
    hide Start;
    hide NoChange;
    hide DirectOptions;
    hide OperatorOptions;
    hide MergeMap;
    hide ClassText;
    hide ToMap;
    var created: Texts := map[Of(Backup) := "1"];
    BackupTexts();
    ExtractedBackup(map[]);
    ClassBackup(created);
    ClassBackup(map[]);
    var p, v, w := Extract(map[]).value, ExtractModify(created).value, ExtractModify(map[]).value;
    BackupClass(v);
    BackupClass(w);
    assert !Agrees(p, v, w, Backup);
    DirectEqualsOperator(map[], created, map[], ro);
  }
}

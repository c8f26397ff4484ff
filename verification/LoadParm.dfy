/** The parameter engine of loadparm.c, as functions on its state: the parameter table with its
    aliases, the defaults and globals, the services, command-line locks and parametric options.
    Module Config holds the same operations as the source has them, updating the state in place. */
module LoadParm {
  import opened Text
  import opened CStrings

  // The parameter table

  datatype Kind = KBool | KInteger | KBytes | KList | KString | KUString | KEnum | KSep
  datatype Scope = Local | Global | Separator
  datatype Special = NoSpecial | HandleCopy | HandleInclude

  /** The storage a table entry points at, numbered: a global, or a field that every service has. */
  type Slot = nat

  datatype Parm = Parm(name: string, kind: Kind, scope: Scope, ptr: Option<Slot>, special: Special,
                       enums: seq<(int, string)>)
  type Table = seq<Parm>

  /** Entries that share a pointer are adjacent. */
  ghost predicate Contiguous(t: Table) {
    forall i, j, k :: 0 <= i <= j <= k < |t| && t[i].ptr.Some? && t[i].ptr == t[k].ptr ==> t[j].ptr == t[i].ptr
  }

  /** Entries that share a pointer differ only in their names; a file can set all of them or none. */
  ghost predicate AliasesAgree(t: Table) {
    forall i, j :: 0 <= i < |t| && 0 <= j < |t| && t[i].ptr.Some? && t[i].ptr == t[j].ptr ==>
      t[i].(name := t[j].name) == t[j] && Dashed(t[i].name) == Dashed(t[j].name)
  }

  /** Separators are the entries without storage, no service parameter is a size, and only strings
      have handlers. */
  ghost predicate WellTyped(t: Table) {
    forall i :: 0 <= i < |t| ==>
      && (t[i].scope.Separator? <==> t[i].ptr.None?)
      && (t[i].kind.KSep? <==> t[i].ptr.None?)
      && (t[i].scope.Local? ==> !t[i].kind.KBytes?)
      && (t[i].special != NoSpecial ==> t[i].kind.KString?)
  }

  /** A name that no file can set. */
  predicate Dashed(name: string) {
    name != [] && name[0] == '-'
  }

  /** map_parameter: the first entry with this name, or -1; names that start with '-' have none. */
  function MapParameter(t: Table, name: string): (r: int)
    ensures -1 <= r < |t|
    ensures r >= 0 ==> SameName(t[r].name, name) && forall j :: 0 <= j < r ==> !SameName(t[j].name, name)
    ensures r == -1 ==> Dashed(name) || forall j :: 0 <= j < |t| ==> !SameName(t[j].name, name)
    ensures r >= 0 ==> !Dashed(name)
  {
    if Dashed(name) then -1 else FirstNamed(t, name, 0)
  }

  function FirstNamed(t: Table, name: string, from: nat): (r: int)
    requires from <= |t|
    ensures r == -1 || from <= r < |t|
    ensures r >= 0 ==> SameName(t[r].name, name) && forall j :: from <= j < r ==> !SameName(t[j].name, name)
    ensures r == -1 ==> forall j :: from <= j < |t| ==> !SameName(t[j].name, name)
    decreases |t| - from
  {
    if from == |t| then -1 else if SameName(t[from].name, name) then from else FirstNamed(t, name, from + 1)
  }

  /** The entries with the same pointer as entry `n`. */
  function Aliases(t: Table, n: nat): set<nat>
    requires n < |t|
  {
    set i: nat | i < |t| && t[i].ptr == t[n].ptr
  }

  // Values

  datatype Value = VBool(b: bool) | VInt(i: int) | VStr(s: string) | VList(l: Option<seq<string>>)
  type Values = map<Slot, Value>

  function Get(m: Values, p: Slot): Value {
    if p in m then m[p] else VInt(0)
  }

  const INT_MAX: int := 0x7fff_ffff

  function EnumByName(enums: seq<(int, string)>, name: string): Option<int> {
    if enums == [] then None
    else if StrEqual(name, enums[0].1) then Some(enums[0].0)
    else EnumByName(enums[1..], name)
  }

  /** What a parameter's text means, by the type of the parameter. */
  function Convert(p: Parm, text: string): Option<Value> {
    match p.kind
    case KBool => (match SetBoolean(text) case None => None case Some(b) => Some(VBool(b)))
    case KInteger => Some(VInt(Atoi(text)))
    case KBytes =>
      (match ConvSize(text) case None => None case Some(n) => if n <= INT_MAX then Some(VInt(n)) else None)
    case KList => Some(VList(Some(StrListMake(text))))
    case KString => Some(VStr(text))
    case KUString => Some(VStr(StrUpper(text)))
    case KEnum => (match EnumByName(p.enums, text) case None => None case Some(i) => Some(VInt(i)))
    case KSep => None
  }

  // The state

  datatype Opt = Opt(key: string, value: string, cmdline: bool)

  /** A service. `explicit` holds the table entries that copying leaves alone: those whose copymap
      entry has been cleared. */
  datatype Service = Service(valid: bool, name: string, vals: Values, explicit: set<nat>, opts: seq<Opt>)

  datatype State = State(locked: set<nat>,        // entries flagged as set on the command line
                         defaults: Values,        // globals, and the service that others start from
                         services: seq<Service>,
                         current: int,            // the service of the section being read, or -1
                         inGlobal: bool,
                         opts: seq<Opt>)          // global parametric options

  const ZERO_SERVICE := Service(false, [], map[], {}, [])

  function DefaultService(st: State): Service {
    Service(true, [], st.defaults, {}, [])
  }

  // Parametric options

  /** Adds or replaces an option, unless a command-line setting would lose to another one. */
  function PutOpt(opts: seq<Opt>, o: Opt): seq<Opt> {
    var k := FindOpt(opts, o.key);
    if k < 0 then [o] + opts
    else if opts[k].cmdline && !o.cmdline then opts
    else opts[k := o]
  }

  function FindOpt(opts: seq<Opt>, key: string): (r: int)
    ensures -1 <= r < |opts|
    ensures r >= 0 ==> opts[r].key == key && forall j :: 0 <= j < r ==> opts[j].key != key
    ensures r == -1 ==> forall j :: 0 <= j < |opts| ==> opts[j].key != key
  {
    if opts == [] then -1
    else if opts[0].key == key then 0
    else
      var r := FindOpt(opts[1..], key);
      if r < 0 then -1 else r + 1
  }

  function OptKey(name: string): string {
    StrLower(TrimLeft(name))
  }

  /** lp_do_parameter_parametric. */
  function DoParametric(st: State, snum: int, name: string, value: string, cmdline: bool): State
    requires snum < |st.services|
  {
    var o := Opt(OptKey(name), value, cmdline);
    if snum < 0 then st.(opts := PutOpt(st.opts, o))
    else
      var s := st.services[snum];
      st.(services := st.services[snum := s.(opts := PutOpt(s.opts, o))])
  }

  /** lp_get_parametric: a service's own option, else the global one. */
  function Lookup(st: State, snum: int, kind: string, option: string): Option<string> {
    if snum >= |st.services| then None
    else
      var key := StrLower(kind + ":" + option);
      var own := if snum < 0 then -1 else FindOpt(st.services[snum].opts, key);
      var k := FindOpt(st.opts, key);
      if own >= 0 then Some(st.services[snum].opts[own].value)
      else if k >= 0 then Some(st.opts[k].value) else None
  }

  /** Options copied from one service to another replace the value of an option already there. */
  function MergeOpt(opts: seq<Opt>, o: Opt): seq<Opt> {
    var k := FindOpt(opts, o.key);
    if k < 0 then [Opt(o.key, o.value, false)] + opts else opts[k := opts[k].(value := o.value)]
  }

  function MergeOpts(opts: seq<Opt>, from: seq<Opt>): seq<Opt> {
    if from == [] then opts else MergeOpt(MergeOpts(opts, from[..|from| - 1]), from[|from| - 1])
  }

  // Copying services

  /** A value as copy_service writes it; None for the types it does not copy. */
  function CopyValue(kind: Kind, v: Value): Option<Value> {
    match kind
    case KUString => Some(if v.VStr? then VStr(StrUpper(v.s)) else v)
    case KList => Some(if v.VList? && v.l.None? then VList(Some([])) else v)
    case KBytes => None
    case KSep => None
    case _ => Some(v)
  }

  /** The copying loop over the first `n` table entries, leaving out those in `skip`. */
  function CopyVals(t: Table, n: nat, dest: Values, src: Values, skip: set<nat>): Values
    requires n <= |t|
  {
    if n == 0 then dest
    else
      var d := CopyVals(t, n - 1, dest, src, skip);
      var p := t[n - 1];
      if p.ptr.Some? && p.scope.Local? && n - 1 !in skip && CopyValue(p.kind, Get(src, p.ptr.value)).Some?
      then d[p.ptr.value := CopyValue(p.kind, Get(src, p.ptr.value)).value]
      else d
  }

  /** copy_service without a copymap: all fields, the copymap, and the options. The name stays. */
  function CopyAll(t: Table, dest: Service, src: Service): Service {
    Service(src.valid, dest.name, CopyVals(t, |t|, dest.vals, src.vals, {}), src.explicit,
            MergeOpts(dest.opts, src.opts))
  }

  /** copy_service with the destination's own copymap. */
  function CopyUnset(t: Table, dest: Service, src: Service): Service {
    Service(src.valid, dest.name, CopyVals(t, |t|, dest.vals, src.vals, dest.explicit), dest.explicit,
            MergeOpts(dest.opts, src.opts))
  }

  function InitService(t: Table, st: State): Service {
    CopyAll(t, ZERO_SERVICE, DefaultService(st))
  }

  // The service array

  /** getservicebyname: the last valid service with this name, or -1. */
  function FindService(services: seq<Service>, name: string): (r: int)
    ensures -1 <= r < |services|
    ensures r >= 0 ==> services[r].valid && SameName(services[r].name, name)
    ensures forall j :: r < j < |services| ==> !(services[j].valid && SameName(services[j].name, name))
  {
    if services == [] then -1
    else
      var k := |services| - 1;
      if services[k].valid && SameName(services[k].name, name) then k
      else FindService(services[..k], name)
  }

  /** The first dead slot, or the length. */
  function FreeSlot(services: seq<Service>): (r: nat)
    ensures r <= |services|
    ensures r < |services| ==> !services[r].valid
    ensures forall j :: 0 <= j < r ==> services[j].valid
  {
    if services == [] || !services[0].valid then 0 else 1 + FreeSlot(services[1..])
  }

  function PutService(services: seq<Service>, i: nat, s: Service): seq<Service>
    requires i <= |services|
  {
    if i == |services| then services + [s] else services[i := s]
  }

  /** add_a_service with a name: reopens the service of that name, or sets up a new one. */
  function AddService(t: Table, st: State, from: Service, name: string): (State, int) {
    var found := FindService(st.services, name);
    if found >= 0 then
      (st.(services := st.services[found := st.services[found].(opts := [])]), found)
    else
      var i := FreeSlot(st.services);
      var s := CopyAll(t, InitService(t, st), from).(name := name);
      (st.(services := PutService(st.services, i, s)), i)
  }

  /** lp_killservice. */
  function KillService(st: State, i: nat): State
    requires i < |st.services|
  {
    if st.services[i].valid then st.(services := st.services[i := ZERO_SERVICE]) else st
  }

  /** lp_remove_service. */
  function RemoveService(st: State, i: nat): State
    requires i < |st.services|
  {
    st.(services := st.services[i := st.services[i].(valid := false)])
  }

  // Assigning parameters

  function Store(st: State, snum: int, p: Slot, v: Value): State
    requires snum < |st.services|
  {
    if snum < 0 then st.(defaults := st.defaults[p := v])
    else
      var s := st.services[snum];
      st.(services := st.services[snum := s.(vals := s.vals[p := v])])
  }

  function MarkExplicit(st: State, snum: int, entries: set<nat>): State
    requires snum < |st.services|
  {
    if snum < 0 then st
    else
      var s := st.services[snum];
      st.(services := st.services[snum := s.(explicit := s.explicit + entries)])
  }

  /** handle_copy, after it has recorded the name: copies onto the current service what that service
      has not set itself. */
  function CopyFrom(t: Table, st: State, name: string): State {
    var from := FindService(st.services, name);
    if from < 0 || from == st.current || !(0 <= st.current < |st.services|) then st
    else
      var temp := CopyAll(t, InitService(t, st), st.services[from]);
      st.(services := st.services[st.current := CopyUnset(t, st.services[st.current], temp)])
  }

  /** The part of lp_do_parameter after the lookup: stores a value for table entry `n`. */
  function DoEntry(t: Table, st: State, snum: int, n: nat, value: string): (r: (State, bool))
    requires n < |t| && snum < |st.services|
    ensures |r.0.services| == |st.services|
    ensures r.0.current == st.current && r.0.inGlobal == st.inGlobal && r.0.locked == st.locked
  {
    var st1 := MarkExplicit(st, snum, Aliases(t, n));
    match t[n].ptr
    case None => (st1, true)
    case Some(p) =>
      match t[n].special
      case HandleCopy => (CopyFrom(t, Store(st1, snum, p, VStr(value)), value), true)
      case HandleInclude => (Store(st1, snum, p, VStr(value)), true)
      case NoSpecial =>
        match Convert(t[n], value)
        case None => (st1, false)
        case Some(v) => (Store(st1, snum, p, v), true)
  }

  /** lp_do_parameter: for service `snum`, or the defaults and globals when it is negative. */
  function DoParameter(t: Table, st: State, snum: int, name: string, value: string): (r: (State, bool))
    requires snum < |st.services|
    ensures |r.0.services| == |st.services|
    ensures r.0.current == st.current && r.0.inGlobal == st.inGlobal && r.0.locked == st.locked
  {
    var n := MapParameter(t, name);
    if n < 0 then
      if ':' in name then (DoParametric(st, snum, name, value, false), true) else (st, true)
    else if n in st.locked then (st, true)
    else if snum >= 0 && t[n].scope.Global? then (st, true)
    else DoEntry(t, st, snum, n, value)
  }

  /** do_parameter: a parameter line of the section being read. */
  function DoLine(t: Table, st: State, name: string, value: string): (State, bool)
    requires st.inGlobal || st.current < |st.services|
  {
    DoParameter(t, st, if st.inGlobal then -2 else st.current, name, value)
  }

  /** lp_set_cmdline: assigns, then locks the entry and its aliases. */
  function SetCmdline(t: Table, st: State, name: string, value: string): (State, bool) {
    var n := MapParameter(t, name);
    var v := TrimLeft(value);
    if n < 0 then
      if ':' in name then (DoParametric(st, -1, name, v, true), true) else (st, false)
    else
      var (st1, ok) := DoParameter(t, st.(locked := st.locked - {n}), -2, name, v);
      if ok then (st1.(locked := st1.locked + Adjacent(t, n)), true) else (st1, false)
  }

  predicate SameRun(t: Table, i: nat, n: nat)
    requires i < |t| && n < |t|
  {
    forall k :: 0 <= k < |t| && (i <= k <= n || n <= k <= i) ==> t[k].ptr == t[n].ptr
  }

  /** The run of entries around `n` with its pointer. */
  function Adjacent(t: Table, n: nat): set<nat>
    requires n < |t|
  {
    set i: nat | i < |t| && SameRun(t, i, n)
  }

  // Sections and loading

  predicate IsGlobalName(name: string) {
    SameName(name, "global") || SameName(name, "globals")
  }

  /** The storage of "printable" and of "browseable". */
  const PRINT_OK: Slot := 92
  const BROWSEABLE: Slot := 103

  /** [printers] is made printable and not browseable. */
  function Corrected(s: Service): Service {
    if SameName(s.name, "printers")
    then s.(vals := s.vals[PRINT_OK := VBool(true)][BROWSEABLE := VBool(false)]) else s
  }

  /** service_ok: a service needs a name, and is corrected. */
  function ServiceOk(st: State, i: nat): (State, bool)
    requires i < |st.services|
  {
    (st.(services := st.services[i := Corrected(st.services[i])]), st.services[i].name != [])
  }

  /** do_section. */
  function DoSection(t: Table, st: State, name: string): (State, bool)
    requires st.current < |st.services|
  {
    if IsGlobalName(name) then (st.(inGlobal := true), true)
    else
      var st0 := st.(inGlobal := false);
      var (st1, ok) := if st.current >= 0 then ServiceOk(st0, st.current) else (st0, true);
      if !ok then (st1, false)
      else
        var (st2, i) := AddService(t, st1, DefaultService(st1), name);
        (st2.(current := i), true)
  }

  /** The loop of init_globals that empties every string not locked, over the first `n` entries. */
  function ResetStrings(t: Table, n: nat, st: State): State
    requires n <= |t|
  {
    if n == 0 then st
    else
      var st1 := ResetStrings(t, n - 1, st);
      var p := t[n - 1];
      if (p.kind.KString? || p.kind.KUString?) && p.ptr.Some? && n - 1 !in st.locked
      then st1.(defaults := st1.defaults[p.ptr.value := VStr([])]) else st1
  }

  /** Resetting strings touches nothing but the defaults. */
  lemma {:induction false} ResetStringsFrame(t: Table, n: nat, st: State)
    requires n <= |t|
    ensures ResetStrings(t, n, st) == st.(defaults := ResetStrings(t, n, st).defaults)
  {
    if n > 0 {
      ResetStringsFrame(t, n - 1, st);
    }
  }

  function KeepCmdline(opts: seq<Opt>): seq<Opt> {
    if opts == [] then []
    else (if opts[0].cmdline then [opts[0]] else []) + KeepCmdline(opts[1..])
  }

  /** What lp_load does before it reads the file; `builtin` are the assignments of init_globals. */
  function ResetAll(t: Table, st: State, builtin: seq<(string, string)>): State {
    var st1 := ResetStrings(t, |t|, st.(inGlobal := true, opts := KeepCmdline(st.opts)));
    DoLines(t, st1, builtin).(current := -1)
  }

  /** Global parameter lines in order, whatever they answer. */
  function DoLines(t: Table, st: State, lines: seq<(string, string)>): State {
    if lines == [] then st
    else
      var k := |lines| - 1;
      DoParameter(t, DoLines(t, st, lines[..k]), -2, lines[k].0, lines[k].1).0
  }

  // Runs of the engine

  /** One call into the engine. */
  datatype Op =
    | Assign(snum: int, name: string, value: string)    // lp_do_parameter
    | Line(name: string, value: string)                 // a parameter line of the file
    | Header(name: string)                              // a section header of the file
    | Reset(builtin: seq<(string, string)>)             // the start of lp_load
    | Cmdline(name: string, value: string)              // lp_set_cmdline
    | Add(from: Service, name: string)                  // lp_add_service and its relatives
    | Field(i: nat, ptr: Slot, v: Value)                // their direct writes to a service
    | Kill(i: nat)
    | Remove(i: nat)

  predicate Enabled(st: State, op: Op) {
    match op
    case Assign(snum, _, _) => snum < |st.services|
    case Line(_, _) => st.inGlobal || st.current < |st.services|
    case Header(_) => st.current < |st.services|
    case Field(snum, _, _) => snum < |st.services|
    case Kill(snum) => snum < |st.services|
    case Remove(snum) => snum < |st.services|
    case _ => true
  }

  function Step(t: Table, st: State, op: Op): State
    requires Enabled(st, op)
  {
    match op
    case Assign(snum, name, value) => DoParameter(t, st, snum, name, value).0
    case Line(name, value) => DoLine(t, st, name, value).0
    case Header(name) => DoSection(t, st, name).0
    case Reset(builtin) => ResetAll(t, st, builtin)
    case Cmdline(name, value) => SetCmdline(t, st, name, value).0
    case Add(from, name) => AddService(t, st, from, name).0
    case Field(snum, ptr, value) => Store(st, snum, ptr, value)
    case Kill(snum) => KillService(st, snum)
    case Remove(snum) => RemoveService(st, snum)
  }

  function Run(t: Table, st: State, ops: seq<Op>): State {
    if ops == [] then st
    else
      var k := |ops| - 1;
      var st1 := Run(t, st, ops[..k]);
      if Enabled(st1, ops[k]) then Step(t, st1, ops[k]) else st1
  }
}

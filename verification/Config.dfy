/** The parameter engine as loadparm.c has it: one object whose operations loop over the table, the
    services and the option lists and update them in place. Each is proved to do what the function of
    the same name in LoadParm says. */
module Config {
  import opened Text
  import opened CStrings
  import opened LoadParm

  class Engine {
    const table: Table
    var locked: set<nat>
    var defaults: Values
    var services: seq<Service>
    var current: int
    var inGlobal: bool
    var opts: seq<Opt>

    ghost function View(): State
      reads this
    {
      State(locked, defaults, services, current, inGlobal, opts)
    }

    constructor (table: Table, defaults: Values)
      ensures this.table == table
      ensures View() == State({}, defaults, [], 0, true, [])
    {
      this.table := table;
      this.defaults := defaults;
      locked, services, current, inGlobal, opts := {}, [], 0, true, [];
    }

    // Lookups

    method FindParameter(name: string) returns (r: int)
      ensures r == MapParameter(table, name)
    {
      if name != [] && name[0] == '-' {
        return -1;
      }
      r := 0;
      while r < |table|
        invariant 0 <= r <= |table|
        invariant FirstNamed(table, name, r) == FirstNamed(table, name, 0)
      {
        if SameName(table[r].name, name) {
          return;
        }
        r := r + 1;
      }
      r := -1;
    }

    method GetServiceByName(name: string) returns (r: int)
      ensures r == FindService(services, name)
    {
      r := |services| - 1;
      while r >= 0
        invariant -1 <= r < |services|
        invariant FindService(services[..r + 1], name) == FindService(services, name)
      {
        if services[r].valid && SameName(services[r].name, name) {
          assert services[..r + 1][..r] == services[..r];
          return;
        }
        assert services[..r + 1][..r] == services[..r];
        r := r - 1;
      }
    }

    static method FindOption(list: seq<Opt>, key: string) returns (r: int)
      ensures r == FindOpt(list, key)
    {
      r := 0;
      while r < |list|
        invariant 0 <= r <= |list|
        invariant forall j :: 0 <= j < r ==> list[j].key != key
      {
        if list[r].key == key {
          return;
        }
        r := r + 1;
      }
      r := -1;
    }

    /** lp_get_parametric: the service's option, else the global one. */
    method GetParametric(snum: int, kind: string, option: string) returns (r: Option<string>)
      ensures r == Lookup(View(), snum, kind, option)
    {
      if snum >= |services| {
        return None;
      }
      var key := StrLower(kind + ":" + option);
      var k := FindOption(if snum < 0 then opts else services[snum].opts, key);
      if k >= 0 {
        return Some(if snum < 0 then opts[k].value else services[snum].opts[k].value);
      }
      if snum >= 0 {
        k := FindOption(opts, key);
        if k >= 0 {
          return Some(opts[k].value);
        }
      }
      r := None;
    }

    // Parametric options

    method DoParameterParametric(snum: int, name: string, value: string, cmdline: bool)
      requires snum < |services|
      modifies this
      ensures View() == DoParametric(old(View()), snum, name, value, cmdline)
    {
      var i := 0;
      while i < |name| && IsSpace(name[i])
        invariant 0 <= i <= |name|
        invariant TrimLeft(name[i..]) == TrimLeft(name)
      {
        assert name[i..][1..] == name[i + 1..];
        i := i + 1;
      }
      var o := Opt(StrLower(name[i..]), value, cmdline);
      var list := if snum < 0 then opts else services[snum].opts;
      var k := FindOption(list, o.key);
      if k < 0 {
        list := [o] + list;
      } else if list[k].cmdline && !cmdline {
        return;
      } else {
        list := list[k := o];
      }
      if snum < 0 {
        opts := list;
      } else {
        services := services[snum := services[snum].(opts := list)];
      }
    }

    // Copying services

    /** copy_service onto `dest`; `skip` is None for a full copy. */
    method CopyService(dest: Service, src: Service, skip: Option<set<nat>>) returns (r: Service)
      ensures skip.None? ==> r == CopyAll(table, dest, src)
      ensures skip == Some(dest.explicit) ==> r == CopyUnset(table, dest, src)
    {
      var vals := dest.vals;
      var left := if skip.None? then {} else skip.value;
      for i := 0 to |table|
        invariant vals == CopyVals(table, i, dest.vals, src.vals, left)
      {
        var p := table[i];
        if p.ptr.Some? && p.scope.Local? && i !in left {
          match CopyValue(p.kind, Get(src.vals, p.ptr.value))
          case Some(v) => vals := vals[p.ptr.value := v];
          case None =>
        }
      }
      var merged := dest.opts;
      for i := 0 to |src.opts|
        invariant merged == MergeOpts(dest.opts, src.opts[..i])
      {
        var o := src.opts[i];
        var k := FindOption(merged, o.key);
        assert src.opts[..i + 1][..i] == src.opts[..i];
        if k < 0 {
          merged := [Opt(o.key, o.value, false)] + merged;
        } else {
          merged := merged[k := merged[k].(value := o.value)];
        }
      }
      assert src.opts[..|src.opts|] == src.opts;
      r := Service(src.valid, dest.name, vals, if skip.None? then src.explicit else dest.explicit, merged);
    }

    method HandleCopyOf(name: string)
      modifies this
      ensures View() == CopyFrom(table, old(View()), name)
    {
      var temp := CopyService(ZERO_SERVICE, Service(true, [], defaults, {}, []), None);
      var from := GetServiceByName(name);
      if from >= 0 && from != current && 0 <= current < |services| {
        temp := CopyService(temp, services[from], None);
        var copied := CopyService(services[current], temp, Some(services[current].explicit));
        services := services[current := copied];
      }
    }

    // Services

    method AddAService(from: Service, name: string) returns (i: int)
      modifies this
      ensures (View(), i) == AddService(table, old(View()), from, name)
      ensures 0 <= i < |services|
    {
      i := GetServiceByName(name);
      if i >= 0 {
        services := services[i := services[i].(opts := [])];
        return;
      }
      i := 0;
      while i < |services| && services[i].valid
        invariant 0 <= i <= |services|
        invariant i + FreeSlot(services[i..]) == FreeSlot(services)
      {
        assert services[i..][1..] == services[i + 1..];
        i := i + 1;
      }
      var s := CopyService(ZERO_SERVICE, Service(true, [], defaults, {}, []), None);
      s := CopyService(s, from, None);
      s := s.(name := name);
      if i == |services| {
        services := services + [s];
      } else {
        services := services[i := s];
      }
    }

    // Assigning parameters

    /** Clears the copymap of the current entry and its aliases. */
    method MarkAliases(snum: nat, n: nat)
      requires snum < |services| && n < |table|
      modifies this
      ensures View() == MarkExplicit(old(View()), snum, Aliases(table, n))
    {
      var marked := services[snum].explicit;
      for i := 0 to |table|
        invariant marked == services[snum].explicit + (set j: nat | j < i && table[j].ptr == table[n].ptr)
      {
        if table[i].ptr == table[n].ptr {
          marked := marked + {i};
        }
      }
      services := services[snum := services[snum].(explicit := marked)];
    }

    static method FindEnum(enums: seq<(int, string)>, name: string) returns (r: Option<int>)
      ensures r == EnumByName(enums, name)
    {
      var i := 0;
      while i < |enums|
        invariant 0 <= i <= |enums|
        invariant EnumByName(enums[i..], name) == EnumByName(enums, name)
      {
        if StrEqual(name, enums[i].1) {
          return Some(enums[i].0);
        }
        assert enums[i..][1..] == enums[i + 1..];
        i := i + 1;
      }
      r := None;
    }

    method Assign(snum: int, p: Slot, v: Value)
      requires snum < |services|
      modifies this
      ensures View() == Store(old(View()), snum, p, v)
    {
      if snum < 0 {
        defaults := defaults[p := v];
      } else {
        services := services[snum := services[snum].(vals := services[snum].vals[p := v])];
      }
    }

    method LpDoParameter(snum: int, name: string, value: string) returns (ok: bool)
      requires snum < |services|
      modifies this
      ensures (View(), ok) == DoParameter(table, old(View()), snum, name, value)
    {
      var n := FindParameter(name);
      if n < 0 {
        if ':' in name {
          DoParameterParametric(snum, name, value, false);
        }
        return true;
      }
      if n in locked || (snum >= 0 && table[n].scope.Global?) {
        return true;
      }
      if snum >= 0 {
        MarkAliases(snum, n);
      }
      if table[n].ptr.None? {
        return true;
      }
      var p := table[n].ptr.value;
      match table[n].special
      case HandleCopy =>
        Assign(snum, p, VStr(value));
        HandleCopyOf(value);
        return true;
      case HandleInclude =>
        Assign(snum, p, VStr(value));
        return true;
      case NoSpecial =>
        var v;
        if table[n].kind.KEnum? {
          var e := FindEnum(table[n].enums, value);
          v := if e.None? then None else Some(VInt(e.value));
        } else {
          v := Convert(table[n], value);
        }
        if v.None? {
          return false;
        }
        Assign(snum, p, v.value);
        return true;
    }

    /** lp_set_cmdline: the two loops lock the neighbours that share the pointer. */
    method LpSetCmdline(name: string, value: string) returns (ok: bool)
      modifies this
      ensures (View(), ok) == SetCmdline(table, old(View()), name, value)
    {
      var n := FindParameter(name);
      var v := TrimLeft(value);
      if n < 0 {
        if ':' in name {
          DoParameterParametric(-1, name, v, true);
          return true;
        }
        return false;
      }
      locked := locked - {n};
      ok := LpDoParameter(-2, name, v);
      if !ok {
        return;
      }
      LockRun(n);
    }

    method LockRun(n: nat)
      requires n < |table|
      modifies this`locked
      ensures locked == old(locked) + Adjacent(table, n)
    {
      var run := {n};
      var i := n - 1;
      while i >= 0 && table[i].ptr == table[n].ptr
        invariant -1 <= i < n
        invariant forall k :: i < k <= n ==> table[k].ptr == table[n].ptr
        invariant forall k :: k in run <==> i < k <= n
      {
        run := run + {i};
        i := i - 1;
      }
      var j := n + 1;
      while j < |table| && table[j].ptr == table[n].ptr
        invariant n < j <= |table|
        invariant forall k :: i < k < j ==> table[k].ptr == table[n].ptr
        invariant forall k :: k in run <==> i < k < j
      {
        run := run + {j};
        j := j + 1;
      }
      forall k: nat | k < |table|
        ensures k in run <==> k in Adjacent(table, n)
      {
        if k <= i {
          assert table[i].ptr != table[n].ptr;
        } else if k >= j {
          assert table[j].ptr != table[n].ptr;
        }
      }
      assert run == Adjacent(table, n);
      locked := locked + run;
    }

    // Sections and loading

    method LpServiceOk(i: nat) returns (ok: bool)
      requires i < |services|
      modifies this
      ensures (View(), ok) == ServiceOk(old(View()), i)
    {
      ok := services[i].name != [];
      if SameName(services[i].name, "printers") {
        var s := services[i];
        s := s.(vals := s.vals[PRINT_OK := VBool(true)]);
        s := s.(vals := s.vals[BROWSEABLE := VBool(false)]);
        services := services[i := s];
      } else {
        assert services[i := services[i]] == services;
      }
    }

    method LpDoSection(name: string) returns (ok: bool)
      requires current < |services|
      modifies this
      ensures (View(), ok) == DoSection(table, old(View()), name)
    {
      inGlobal := IsGlobalName(name);
      if inGlobal {
        return true;
      }
      ok := true;
      if current >= 0 {
        ok := LpServiceOk(current);
      }
      if ok {
        var i := AddAService(Service(true, [], defaults, {}, []), name);
        current := i;
      }
    }

    /** Drops the global options that were not set on the command line. */
    method DropOptions()
      modifies this
      ensures View() == old(View()).(opts := KeepCmdline(old(opts)))
    {
      var kept := [];
      for i := 0 to |opts|
        invariant kept + KeepCmdline(opts[i..]) == KeepCmdline(opts)
      {
        assert opts[i..][1..] == opts[i + 1..];
        if opts[i].cmdline {
          kept := kept + [opts[i]];
        }
      }
      assert opts[|opts|..] == [];
      opts := kept;
    }

    method InitStrings()
      modifies this
      ensures View() == ResetStrings(table, |table|, old(View()))
    {
      for i := 0 to |table|
        invariant View() == ResetStrings(table, i, old(View()))
        invariant locked == old(locked)
      {
        var p := table[i];
        if (p.kind.KString? || p.kind.KUString?) && p.ptr.Some? && i !in locked {
          defaults := defaults[p.ptr.value := VStr([])];
        }
      }
    }

    /** What lp_load does before reading the file. */
    method LpReset(builtin: seq<(string, string)>)
      modifies this
      ensures View() == ResetAll(table, old(View()), builtin)
    {
      inGlobal := true;
      DropOptions();
      InitStrings();
      ghost var st := View();
      for i := 0 to |builtin|
        invariant View() == DoLines(table, st, builtin[..i])
      {
        assert builtin[..i + 1][..i] == builtin[..i];
        var ok := LpDoParameter(-2, builtin[i].0, builtin[i].1);
      }
      assert builtin[..|builtin|] == builtin;
      current := -1;
    }
  }
}

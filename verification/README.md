# openvas-smb in Dafny

A model, in Dafny 4.11, of the hand-written state machines and parser/printer pairs of openvas-smb,
with proofs of what they promise over every input, every run or every reachable state.

`dafny verify dfyconfig.toml` checks the whole project.

What is modelled, by module:

- **The smb.conf engine.** `ConfSpec` gives the pure meaning of a file: the calls it makes. `Scanner`
  is the scanner of params.c, a class over a growing byte buffer, proved to make exactly those calls.
  `ConfRoundTrip` holds what is true of the grammar: names and values delivered, the parser undoing
  the printer, and the exact condition under which a line survives printing and reading. `Stripping`
  says exactly which texts are delivered without outer white space and which files survive a reprint.
  `LoadParm` gives the operations of loadparm.c on values; `Config` holds the same operations on one mutable
  object and shows that each loop computes them. `CommandLine`, `Parametric`, `Services` and
  `CopyRules` hold the invariants of whole runs. `Loading` joins scanner and engine, `DumpLoad`
  proves that dumping a service and loading the text gives the service back, `WholeDump` that
  dumping all of them does, and `LpDump` that the whole text of lp_dump gives the globals and defaults
  back as well. `Reloading` closes the circle: what a file has loaded, dumped and loaded again, is all
  there. `ParmTable` holds the rows of the source's own table and, through
  `Grouping`, shows that it meets what these theorems ask of a table.
- **NTLM.** `Ntlm` has the server's cascade and the client's response function over uninterpreted
  hash functions, and proves that the two sides agree, as sections 3.3.1 and 3.3.2 of [MS-NLMP]
  intend.
- **Logon information.** `LogonInfo` has the two conversions between a server's account record and the
  level 3 reply, and when each field survives the round trip.
- **WMI results.** `Wbem` and `WbemStream` have the framing of object arrays and the class cache, which
  the server relies on to leave classes out; `Wmic` has the loop that fetches batches and prints them.
- **Mechanisms, credentials and requests.** `Gensec` selects and starts security mechanisms,
  `Credentials` has the setters, getters and callbacks with their levels, and `AuthRequest` the
  asynchronous password check as a state machine over its events.

Where the source updates things in place, the model is a class or an array method, and each method is
proved equal to a function of the old state; the theorems are about those functions.

Where documentation and code disagree, the model follows the code:

- The header of samba/param/params.c (lines 73-75) promises names and values without leading or
  trailing white space. The code delivers a value with trailing white space when the lines after its
  last joint are blank, with leading white space when its first lines hold only a backslash, and a
  section name with leading white space in the same way. `Stripping.StrippedExactly` and
  `Stripping.NormalExactly` give the exact condition for every text; `BlankContinuation`,
  `LeadingValue` and `LeadingContinuation` are families of inputs that fail it.
- The comment at samba/param/loadparm.c:1059-1060 describes an option as "type: option". Written with
  that space, in whatever section, the option is never found (`Parametric.SpacedOptionUnread`).
- getservicebyname and add_a_service are written as if no two valid services had the same name. A copy
  line for a section that was removed breaks this when its name has been taken
  (`Services.ClashingRun`); `Services.StepDistinctExactly` says exactly when.
- gensec_use_kerberos_mechs allocates one entry more than there are backends, but may list a SPNEGO
  backend twice. `Gensec.RoomExactly` says exactly when the list fits. It does not when SPNEGO is
  registered but no Kerberos backend is, and Kerberos is switched off (`Gensec.NoKerberosOverruns`);
  gensec_register (samba/auth/gensec/gensec.c:1208-1213) leaves out backends that are disabled.
- lp_dump writes in the grammar that lp_load reads, but a dump is read as what was dumped exactly when
  every line of it is printable (`LpDump.DumpReadExactly`). The built-in "winbind separator" is not, so
  a dump that shows built-in values is spoiled (`LpDump.BackslashLost`), and some lists are not
  (`Reloading.ListKept`, `Reloading.ListLost`). Otherwise everything comes back
  (`Reloading.LoadDumpLoad`).

## Model

| member | source | states |
|---|---|---|
| `Text.CollapseTrim` | samba/param/params.c:325-389 | Trimming a name and collapsing its white space commute, so the scanner may do them in either order as it goes. |
| `Text.CollapseJoined` | samba/param/params.c:188-195 | A continuation backslash is found in the collapsed buffer exactly when it is there in the raw text, and removing it leaves the collapsed form of what preceded it. |
| `Text.CollapseNormal` | samba/param/params.c:325-389 | A trimmed and collapsed text is a normal name (no outer white space, single inner spaces) exactly when the raw text starts with a non-space; it is empty exactly when the raw text is blank. |
| `ConfSpec.ScanNameBlanks` | samba/param/params.c:375-381 | Skipping a run of white space in one go reads the same name as taking its characters one by one. |
| `Scanner.ConfFile.GetC` | samba/param/params.c:108-113 | Takes the next character of the file, or reports its end, and moves past exactly that. |
| `Scanner.ConfFile.EatWhitespace` | samba/param/params.c:124-147 | Stops at the first character that is not white space other than a newline. |
| `Scanner.ConfFile.EatComment` | samba/param/params.c:149-172 | Skips to the end of the line, or to a NUL or the end of the file. |
| `Scanner.ConfFile.Continuation` | samba/param/params.c:188-195 | Finds the backslash that ends the text in the buffer apart from trailing white space, or -1; the buffer is not read outside its bounds. |
| `Scanner.ConfFile.Grow` | samba/param/params.c:328-340 | The buffer has room for the next character and a terminator afterwards, and its contents are kept. |
| `Scanner.ConfFile.ReadName` | samba/param/params.c:325-389 | On every text the in-place name loop, across buffer growth, leaves exactly the name of the pure specification (join continued lines, then collapse) in the buffer; every index written is in bounds and the loop ends because unread text shrinks. |
| `Scanner.ConfFile.NameStep` | samba/param/params.c:342-388 | One turn of the name loop: the buffer goes on holding the collapsed raw text and the trimmed name, and the meaning of the unread text is unchanged. |
| `Scanner.ConfFile.ReadSection` | samba/param/params.c:198-292 | A section header makes exactly the callback that the specification gives for it, with the rest of the line skipped, or fails with no callback. |
| `Scanner.ConfFile.ReadValue` | samba/param/params.c:391-436 | The value loop leaves the value that the specification gives in the buffer after the name, which it does not touch. |
| `Scanner.ConfFile.ContinuationInValue` | samba/param/params.c:416-426 | The backward search for a continuation never crosses the NUL that ends the name. |
| `Scanner.ConfFile.ValueStep` | samba/param/params.c:396-435 | One turn of the value loop keeps the buffer equal to the name, its NUL and the raw value, within bounds, and preserves the meaning of the unread text. |
| `Scanner.ConfFile.ReadParameter` | samba/param/params.c:294-439 | A parameter line makes exactly one callback with the name and value of the specification, is skipped without one, or fails when it has no name. |
| `Scanner.ConfFile.ParseFile` | samba/param/params.c:441-501 | On every byte sequence and against every callback, the scanner returns and makes exactly the calls of the pure meaning of the file; no buffer access is out of bounds and every loop ends. |
| `ConfRoundTrip.ScannedName` | samba/param/params.c:325-389 | A name read from any text is nonempty, on one line and free of the stop character; if it starts with a non-space it is in normal form, even across repeated continuations. |
| `ConfRoundTrip.ScannedValue` | samba/param/params.c:391-436 | A value read from any text holds no newline, carriage return or NUL. |
| `ConfRoundTrip.ParsedDeliverable` | samba/param/params.c:294-501 | Every callback made from any text has a deliverable name and value. |
| `ConfRoundTrip.FileDeliverable` | samba/param/params.c:441-501 | The same for a whole file, with no assumption on the file. |
| `ConfRoundTrip.StopsAtRefusal` | samba/param/params.c:441-501 | Parsing goes on exactly while callbacks are accepted: only the last call can have been refused, and success means that none was. |
| `ConfRoundTrip.ParserUndoesPrinter` | samba/param/params.c:198-501 | Any list of printable sections and parameters, of any length, is read back from its printed text as exactly those callbacks, in order, up to the first refusal. |
| `ConfRoundTrip.CallsComplete` | samba/param/params.c:441-501 | When the callback refuses none of them, all calls are made and the result is True. |
| `ConfRoundTrip.PrintableExactly` | samba/param/loadparm.c:2259-2292 | A line survives being printed and read back if and only if its name and value are in normal form. |
| `Stripping.StrippedExactly` | samba/param/params.c:391-436 | For every text, a value is delivered without outer white space if and only if, with its lines joined, it is blank and has no joint behind its first character, or starts with a non-space and still reaches its last joint without the white space at its end. |
| `Stripping.NormalExactly` | samba/param/params.c:198-292 | For every text, a section name that is delivered is in normal form if and only if the text does not open with a blank once every newline has taken back a backslash before it. |
| `Stripping.OpeningGroup` | samba/param/params.c:260-271 | A leading line of a backslash and white space changes nothing: what follows it decides whether the name opens with a blank. |
| `Stripping.LayoutExactly` | samba/param/loadparm.c:2259-2292 | A list of deliverable calls is read back from its printed form if and only if every one of them is printable, whatever the others are. |
| `Stripping.ReprintExactly` | samba/param/params.c:441-501 | For every file, printing what was read and reading it again makes the same calls if and only if all of them are printable. |
| `Stripping.ReprintLossless` | samba/param/params.c:441-501 | That is so of every file in which no line ends in a backslash, apart from white space. |
| `Stripping.BlankContinuation` | samba/param/params.c:416-426 | A family of inputs for which stripping fails: a value continued onto a blank line is delivered with the white space before its backslash. |
| `Stripping.LeadingValue` | samba/param/params.c:391-436 | Another: a value whose first line is only a backslash is delivered with the white space that starts the next line. |
| `Stripping.LeadingContinuation` | samba/param/params.c:224-287 | The same for section names: after a continuation right behind the bracket, the white space of the next line stays in the name. |
| `CStrings.BoolRoundTrip` | samba/lib/util/util_str.c:608-624 | The text printed for a boolean reads back as that boolean. |
| `CStrings.IntRoundTrip` | samba/param/loadparm.c:2064-2107 | The decimal text printed for an integer, negative ones included, reads back as that integer. |
| `CStrings.ListRoundTrip` | samba/lib/util/util_strlist.c:40-83 | A list of clean words printed with separators is split into the same list. |
| `CStrings.LowerSameName` | samba/lib/util/util_str.c:754-779 | A name and its lower-cased form compare equal, as strwicmp ignores case; so an option stored in lower case is no table entry either. |
| `LoadParm.MapParameter` | samba/param/loadparm.c:1397-1415 | The first table entry of that name under the white space and case insensitive comparison, or -1 when there is none or the name starts with a dash. |
| `Config.Engine.FindParameter` | samba/param/loadparm.c:1397-1415 | The table walk finds that first entry. |
| `Config.Engine.GetServiceByName` | samba/param/loadparm.c:1443-1456 | The walk over the services, from the last down, finds a valid service of that name if there is one. |
| `Config.Engine.GetParametric` | samba/param/loadparm.c:970-1007 | Walking the two option lists answers what the two-level lookup answers. |
| `Config.Engine.DoParameterParametric` | samba/param/loadparm.c:1757-1810 | Stores an option in the service or global list in place; the new state is the map-like write of Parametric.PutOptIsUpdate. |
| `Config.Engine.CopyService` | samba/param/loadparm.c:1463-1543 | The copying loop over the table and the option list produces the state of the value-level copy, leaving every explicitly set entry alone. |
| `Config.Engine.HandleCopyOf` | samba/param/loadparm.c:1692-1722 | A copy line copies from the named service onto the current one, except onto itself and from a missing one. |
| `Config.Engine.AddAService` | samba/param/loadparm.c:1211-1274 | Adds a service or finds the existing one, reusing a dead slot; the new state is that of Services.AddedService. |
| `Config.Engine.MarkAliases` | samba/param/loadparm.c:1860-1869 | Marks every alias of the entry, and only those, as set explicitly in the service. |
| `Config.Engine.LpDoParameter` | samba/param/loadparm.c:1816-1956 | The whole assignment, with locks, aliases, handlers and the conversion by type, moves the state exactly as the value-level operation that all run lemmas are about. |
| `Config.Engine.LockRun` | samba/param/loadparm.c:2018-2026 | The two loops over neighbouring entries lock exactly the run of entries that share the pointer. |
| `Config.Engine.LpSetCmdline` | samba/param/loadparm.c:1993-2029 | Clears the lock, assigns, and locks the entry and its neighbours again, for table and parametric names. |
| `Config.Engine.LpServiceOk` | samba/param/loadparm.c:1550-1581 | A nameless service is rejected; the printers service is made printable and not browseable, whatever the file said. |
| `Config.Engine.LpDoSection` | samba/param/loadparm.c:2150-2186 | A header checks the service before it, then switches to the globals or adds and selects the named service. |
| `Config.Engine.InitStrings` | samba/param/loadparm.c:599-606 | Resets every string that is not locked and no other. |
| `Config.Engine.LpReset` | samba/param/loadparm.c:2448-2480 | The start of a load drops the options that are not from the command line, empties the strings that are not locked and applies the built-in settings; services stay, and none is current. |
| `CommandLine.AdjacentIsAliases` | samba/param/loadparm.c:2020-2026 | When entries that share a pointer are adjacent, locking the neighbours locks all aliases. |
| `CommandLine.AssignKeepsLock` | samba/param/loadparm.c:1837-1841 | No assignment, under the name, an alias or anything else, changes a locked value or its lock. |
| `CommandLine.ResetKeepsLock` | samba/param/loadparm.c:2448-2480 | Neither does the reset at the start of a load. |
| `CommandLine.StepKeepsLock` | samba/param/loadparm.c:1816-2029 | Every operation of the engine keeps a locked value, unless it is lp_set_cmdline under one of its names. |
| `CommandLine.RunKeepsLock` | samba/param/loadparm.c:1816-2504 | The same over every run of operations. |
| `CommandLine.CommandLineWins` | samba/param/loadparm.c:1993-2029 | After lp_set_cmdline accepts a parameter, its storage holds the converted value through every later run that does not set it on the command line again under any of its names. |
| `ParmTable.TableFacts` | samba/param/loadparm.c:394-578 | The rows of parm_table meet everything that the theorems ask of a table: rows that share storage are adjacent and agree but for their names, types fit scopes, each service parameter that a file can set is found under its own name, and enumerations have names that can be printed and stand for one value each. |
| `Grouping.GroupedTable` | samba/param/loadparm.c:394-578 | Any table written in groups of names is so, if the first two and last two letters of a name tell the service parameters apart. |
| `ParmTable.PrinterNames` | samba/param/loadparm.c:1561-1573 | The storage that service_ok corrects is that of the parameters printable and browseable. |
| `ParmTable.CommandLineHolds` | samba/param/loadparm.c:1993-2029 | The command line wins on parm_table itself, with nothing assumed of the table. |
| `Parametric.FindOptIsLookup` | samba/param/loadparm.c:970-1007 | Walking an option list finds exactly what the map it stands for holds. |
| `Parametric.PutOptIsUpdate` | samba/param/loadparm.c:1757-1810 | A write keeps keys unique and is a map update, except that a command-line entry is not displaced by a file entry. |
| `Parametric.KeepCmdlineIsRestriction` | samba/param/loadparm.c:2458-2468 | A reload keeps the command-line entries and no others. |
| `Parametric.StepUnique` | samba/param/loadparm.c:1463-1543 | Every operation, copying included, keeps every option list free of repeated keys. |
| `Parametric.RunHeld` | samba/param/loadparm.c:1757-1810 | Over every run the lists stay maps, and a global command-line option keeps its value through every file line and reload until the command line sets it again. |
| `Parametric.LookupIsTwoLevel` | samba/param/loadparm.c:970-1007 | A lookup in a service is a lookup in the global map overridden by the map of the service. |
| `Parametric.ReadBack` | samba/param/loadparm.c:1757-1810 | An option set by the file, in the globals or in any service, is read back there exactly when the key is spelled alike and no command-line entry holds it there; otherwise the lookup is unchanged. |
| `Parametric.SpaceAfterColonMissed` | samba/param/loadparm.c:1059-1071 | The documented form with a space after the colon is stored under a key that no lookup of that type and option finds. |
| `Parametric.SpacedOptionUnread` | samba/param/loadparm.c:1059-1071 | So writing it, in the globals or in any service, changes nothing that the lookup of that type and option returns there. |
| `Services.AddedService` | samba/param/loadparm.c:1211-1274 | An add returns a service of that name, valid exactly when it was there already or the source is valid; it changes no other slot, and reuses a slot only if that was dead. |
| `Services.AddKeepsDistinct` | samba/param/loadparm.c:1211-1274 | An add keeps the names of valid services pairwise distinct under the name comparison. |
| `Services.SectionKeepsDistinct` | samba/param/loadparm.c:2150-2186 | So does a section header, and an accepted one leaves the current service valid and of that name. |
| `Services.StepDistinctExactly` | samba/param/loadparm.c:1211-2704 | So does any operation if and only if it does not copy onto a current service that is dead and whose name a valid service has taken; a reload counts only if a built-in line copies. |
| `Services.RunKeepsDistinct` | samba/param/loadparm.c:1211-2704 | So does every run in which no operation does that. |
| `Services.RunDistinctExactly` | samba/param/loadparm.c:1211-2704 | Names are distinct all through a run if and only if no operation of it does that. |
| `Services.ClashingRun` | samba/param/loadparm.c:1692-1722 | A run that does: from the empty state, for any two section names and on any table with a copy parameter, two valid services end up with one name. |
| `ParmTable.CopyRow` | samba/param/loadparm.c:562-562 | The table has such a copy parameter. |
| `Services.CopyRevives` | samba/param/loadparm.c:1692-1722 | A copy line makes a removed current service valid again, and names stay distinct exactly when no valid service has taken its name. |
| `CopyRules.CopyTakes` | samba/param/loadparm.c:1463-1516 | Copying gives each field that is not skipped the copied value of the source, however many aliases point at it. |
| `CopyRules.CopySkips` | samba/param/loadparm.c:1463-1516 | A field all of whose entries are skipped keeps its value. |
| `CopyRules.NameKept` | samba/param/loadparm.c:1692-1722 | Whatever lines a section holds, copies included, the service keeps its name and no other service changes. |
| `CopyRules.ExplicitWins` | samba/param/loadparm.c:1860-1869 | In any accepted section, a field assigned under any alias ends with the value of its last assignment, whatever is copied before or after. |
| `CopyRules.CopyFills` | samba/param/loadparm.c:1463-1516 | A field that no line assigns ends with the value from the last line that copied from a service, or its own if none did. |
| `Loading.LpLoad` | samba/param/loadparm.c:2448-2486 | The calls that the scanner makes, when it is answered as the engine would answer, applied to the engine in that order, and the check of the last section give the state and answer that the meaning of the file gives from the reset state. |
| `Loading.AcceptedPrefix` | samba/param/params.c:441-501 | All callbacks of a load before the last one were accepted. |
| `DumpLoad.DumpService` | samba/param/loadparm.c:2254-2293 | For a service other than the defaults, the printing loops write the layout of the section, its parameter lines and its option lines, nothing else. |
| `DumpLoad.EnumRoundTrip` | samba/param/loadparm.c:2064-2107 | The name printed for an enumeration value reads back as that value when names that compare equal agree. |
| `DumpLoad.ValueRoundTrip` | samba/param/loadparm.c:2064-2107 | For every type, the text printed for a storable value converts back to it. |
| `DumpLoad.LoadedField` | samba/param/loadparm.c:2254-2293 | Each service field, dumped or left out as equal to the default, has an equal value after its dump is applied to a fresh service. |
| `DumpLoad.LoadedOpts` | samba/param/loadparm.c:2286-2292 | The parametric options of the service are all read back, in the order in which the list then holds them. |
| `DumpLoad.ReloadedSameValues` | samba/param/loadparm.c:2286-2292 | That list stands for the same map of options as the original. |
| `DumpLoad.DumpIsRead` | samba/param/loadparm.c:2254-2293 | The text of a dump is read as exactly its own section and lines, and all of it is accepted. |
| `DumpLoad.DumpThenLoad` | samba/param/loadparm.c:2254-2293 | Reading the dump of a service into any state that has no such service, whose defaults agree and in which no service parameter is locked succeeds and yields a valid service of that name, with its options, that equal_parameter cannot tell from the original in any parameter without a handler that a file can set. |
| `WholeDump.DumpServices` | samba/param/loadparm.c:2539-2554 | The loop over the services writes the dumps of those that are valid and named, in order. |
| `WholeDump.WholeDumpLoads` | samba/param/loadparm.c:2528-2554 | The dumps of any number of services with different names, loaded together where the defaults agree, give every one of them back under its name, as service_ok leaves it: only the two fields of the printers service can differ. |
| `WholeDump.SameCorrected` | samba/param/loadparm.c:1550-1581 | The correction that service_ok makes between sections agrees with making it on the original. |
| `LpDump.DumpGlobals` | samba/param/loadparm.c:2223-2248 | The loops write the comment, the header and a line for each global that is shown, the first name of its storage, and for each global option. |
| `LpDump.DumpDefaults` | samba/param/loadparm.c:2254-2293 | On the defaults, the loop writes a line for every service parameter that a file can set, without a header. |
| `LpDump.LpDump` | samba/param/loadparm.c:2528-2542 | The three parts follow each other. |
| `LpDump.HoldsRoundTrip` | samba/param/loadparm.c:2064-2107 | For every type, sizes and null lists included, the printed text converts back to the value; a null list becomes an empty one. |
| `LpDump.PutAllIsUpdate` | samba/param/loadparm.c:1757-1810 | Option lines written over an option list change its map exactly as an override that leaves what the command line has set. |
| `LpDump.HeadApplied` | samba/param/loadparm.c:2223-2248 | The lines before the first service are all accepted and set exactly the storage they show; nothing else of the state changes. |
| `LpDump.LpDumpLoads` | samba/param/loadparm.c:2528-2554 | The text of lp_dump, loaded at the start of a load into a state with none of the services, gives every global shown, every default, the global options and every service back; what is not shown stays. |
| `LpDump.DumpReadExactly` | samba/param/loadparm.c:2528-2554 | The text of a dump is read as what was dumped if and only if every line of it is printable. |
| `LpDump.BackslashLost` | samba/param/loadparm.c:704-704 | Shown, a global that ends in a backslash, as the built-in winbind separator does, spoils the dump. |
| `Reloading.ListKept` | samba/param/loadparm.c:2064-2107 | A list read from a line can be printed on a line again if and only if its first word does not start with white space and its last word does not end in white space or a backslash. |
| `Reloading.ListLost` | samba/param/loadparm.c:2064-2107 | A family of lists that fails it: a last word that ends in a backslash, with a separator behind it. |
| `Reloading.ConvertHolds` | samba/param/loadparm.c:1872-1942 | Whatever type a line sets, the value it leaves is printed and read back, if lists are framed so. |
| `Reloading.OptionHolds` | samba/param/loadparm.c:1757-1810 | A line that sets an option leaves one whose own line is read as that option again, and not as a table entry. |
| `Reloading.AssignSound` | samba/param/loadparm.c:1816-1956 | Every printable line without a handler keeps the globals shown, the defaults and the services of a kind that can be dumped, and takes the globals it sets out of hiding. |
| `Reloading.LoadSteady` | samba/param/loadparm.c:2448-2486 | So does every sequence of such calls; names stay distinct, and every service but the current one has been through service_ok. |
| `Reloading.Unassigned` | samba/param/loadparm.c:1944-1953 | A global that no call takes out of hiding has the value it had before. |
| `Reloading.LoadedSteady` | samba/param/loadparm.c:2448-2486 | After a load that succeeds, every service left can be dumped, and service_ok would correct nothing in it. |
| `Reloading.LoadDumpLoad` | samba/param/loadparm.c:2448-2554 | Load, dump, load: after any file whose calls are printable and tame, the text that lp_dump writes, loaded into a state with the same hidden globals and none of the services, gives every global, default, global option and service back. |
| `Reloading.PlainCalls` | samba/param/params.c:441-501 | The calls of every file in which no line ends in a backslash, apart from white space, are printable. |
| `ParmTable.StartsSteady` | samba/param/loadparm.c:249-280 | The table and the initial defaults of the source meet what LoadDumpLoad asks of the state it starts from, with every global hidden as after a reset. |
| `ParmTable.PrinterFacts` | samba/param/loadparm.c:506-530 | The rows for the two corrected fields are booleans, which the previous result asks for. |
| `Ntlm.NtlmPasswordCheck` | samba/auth/ntlm_check.c:290-605 | The cascade, writing its keys step by step, answers what the ordered list of rules decides. |
| `Ntlm.CheckLmField` | samba/auth/ntlm_check.c:429-605 | The part of the cascade for the LM response answers what its ordered rules decide. |
| `Ntlm.LmV2` | samba/auth/ntlm_check.c:477-569 | Each of the three LMv2 blocks accepts or passes on as its rule says, and leaves the keys empty when it passes. |
| `Ntlm.KeyDiscipline` | samba/auth/ntlm_check.c:290-605 | For every policy a rejected run leaves both keys empty; an accepted one has a user key of 0 or 16 bytes and an LM key of 0 or 8, the start of the user key on every v2 path. |
| `Ntlm.LmHashIrrelevant` | samba/auth/ntlm_check.c:290-605 | With LM authentication off, two runs that differ only in the stored LM hash agree on acceptance and on both keys, and outside the cleartext path on the status. |
| `Ntlm.GetNtlmResponse` | samba/auth/credentials/credentials_ntlm.c:51-224 | The client function takes the branch, returns the status and changes the flags that each setting calls for, and sends the reply of that scheme. |
| `Ntlm.AgreementV2` | samba/auth/credentials/credentials_ntlm.c:96-118 | The server accepts the client's NTLMv2 reply whenever it has the domain up to case; the session keys are equal exactly when the response does not also match, with another key, under the domain as spelled, and always for an upper-cased domain. |
| `Ntlm.AgreementV1` | samba/auth/credentials/credentials_ntlm.c:154-210 | A server that allows NTLM accepts the client's plain reply, and the user keys are equal exactly when the client used the NT key or its LM key happens to coincide. |
| `Ntlm.AgreementNtlm2` | samba/auth/credentials/credentials_ntlm.c:119-153 | A server that has switched to the session challenge accepts the NTLM2 reply and holds the key from which the client's key is derived. |
| `Ntlm.AgreementLmV2` | samba/auth/ntlm_check.c:477-569 | With the NT response withheld, the LM field of an NTLMv2 reply is accepted as well. |
| `LogonInfo.ConvertSamBase` | samba/auth/auth_sam_reply.c:35-114 | The loop over the groups fills the reply with the relative ids of the in-domain groups, in order. |
| `LogonInfo.ExtraSids` | samba/auth/auth_sam_reply.c:135-152 | The second loop fills the extra SIDs with the groups of other domains, in order. |
| `LogonInfo.ConvertSamInfo3` | samba/auth/auth_sam_reply.c:116-156 | The whole reply, with the extra-SIDs flag set exactly when there are any. |
| `LogonInfo.MakeServerInfo` | samba/auth/auth_util.c:278-376 | The array that is built from the relative ids and then extended holds them all, in order. |
| `LogonInfo.SplitConserves` | samba/auth/auth_sam_reply.c:65-152 | Every group goes to exactly one half: the halves together are the groups as a multiset, and the counts add up. |
| `LogonInfo.GroupsRoundTrip` | samba/auth/auth_util.c:278-376 | Converting and rebuilding preserves the groups as a multiset if and only if every group of the account's domain has exactly one more sub-authority; then the result is the stable partition. |
| `LogonInfo.Lost` | samba/auth/auth_sam_reply.c:76-88 | A group deeper in the domain does not come back. |
| `LogonInfo.KeyRoundTrip` | samba/auth/auth_util.c:358-372 | A session key comes back if and only if it is absent, or has the right size and is not all zeros. |
| `LogonInfo.AccountRoundTrip` | samba/auth/auth_util.c:278-376 | The account SID always comes back, the primary group exactly when it is directly in the account's domain, and the remaining fields are carried over. |
| `Wbem.Enumeration.GetByGuid` | wmi/wbemdata.c:484-491 | The list search finds the most recently added class for the GUID. |
| `Wbem.Enumeration.ParseBody` | wmi/wbemdata.c:564-601 | The loop moves through the message by the length fields alone, and stops with the status of the first object that fails. |
| `Wbem.Enumeration.Parse` | wmi/wbemdata.c:516-606 | A message is checked and read as its meaning says, and the cache afterwards is the one that meaning gives. |
| `Wbem.ParseMessage` | wmi/wbemdata.c:516-606 | A successful batch holds exactly the number of objects asked for. |
| `WbemStream.LastWriteWins` | wmi/wbemdata.c:484-502 | The list refines a last-write-wins map: the class found is that of the most recent object that carried one under the GUID. |
| `WbemStream.ObjectRead` | wmi/wbemdata.c:564-601 | One object is read wherever it stands in a message, with its own or the remembered class, and the offset moves by its encoded length. |
| `WbemStream.MessageRead` | wmi/wbemdata.c:516-606 | An encoded message is read back as exactly its objects, each with its class. |
| `WbemStream.ElisionTransparent` | wmi/wbemdata.c:484-606 | Over any sequence of batches of an enumeration, every object is read with its own class although classes are left out whenever the client remembers them. |
| `WbemStream.ElidedEqualsFull` | wmi/wbemdata.c:484-606 | Decoding the stream with classes left out equals decoding the stream that sends them all. |
| `Wmic.RunsAreMaximal` | wmi/wmic.c:225-254 | The runs of a row list concatenate to it, each has one class, and no two neighbouring runs have the same. |
| `Wmic.PrintRow` | wmi/wmic.c:239-252 | A row is printed with a heading exactly when its class differs from that of the row before it. |
| `Wmic.PrintRows` | wmi/wmic.c:238-253 | Printing a batch after what was printed before renders the rows of both together, so a run may span batches. |
| `Wmic.SmartNext` | wmi/wbemdata.c:849-886 | A request yields the decoded next objects, as many as asked for or as remain. |
| `Wmic.Query` | wmi/wmic.c:225-254 | The loop ends and prints the rendering of all rows, one heading per maximal run, in order, for every batch size and however the server leaves out classes. |
| `Gensec.UseKerberosMechs` | samba/auth/gensec/gensec.c:54-108 | The filter fills its array with the allowed mechanisms in order, a SPNEGO one twice when it also passes the Kerberos test; it stays within the array, terminator included, if and only if the list is no longer than the registry. |
| `Gensec.RoomExactly` | samba/auth/gensec/gensec.c:72-105 | That is so if and only if no more mechanisms are doubled than dropped. |
| `Gensec.NoKerberosOverruns` | samba/auth/gensec/gensec.c:72-105 | A family of registries that fails it: without a Kerberos mechanism but with SPNEGO, the list made when Kerberos is switched off is longer than the array. |
| `Gensec.DoublingUnseen` | samba/auth/gensec/gensec.c:54-108 | Selection from that list equals selection from the list without the doubling. |
| `Gensec.KeptPreferred` | samba/auth/gensec/gensec.c:240-295 | The list built while walking the registry is every eligible mechanism, each once, in order of preference, even when the registry repeats entries. |
| `Gensec.PreferredUnique` | samba/auth/gensec/gensec.c:240-295 | That description has exactly one solution. |
| `Gensec.ByOidList` | samba/auth/gensec/gensec.c:306-374 | Each eligible mechanism is returned exactly once, in order of preference, with the first offered OID that it knows and that is not skipped; no offer gives no list. |
| `Gensec.BySaslList` | samba/auth/gensec/gensec.c:240-295 | Each mechanism whose SASL name is offered is returned exactly once, in order of preference. |
| `Gensec.Security.StartBySaslList` | samba/auth/gensec/gensec.c:737-763 | The call settles on the most preferred fitting mechanism that does not answer with an invalid parameter, and itself answers that exactly when every fitting one does, leaving the last one tried selected. |
| `Credentials.Quiet` | samba/auth/credentials/credentials.c:245-260 | While a callback runs, no call starts another one, and no call leaves one running. |
| `Credentials.QuietAll` | samba/auth/credentials/credentials.c:245-260 | Nothing that a callback does, in any number of calls and at any depth, starts another one. |
| `Credentials.PromptBudget` | samba/auth/credentials/credentials.c:245-290 | Over any run, with callbacks that call back in any way, the password is prompted for at most once more than it is armed again, and at most three times until wrong_password has answered False. |
| `Credentials.RoundsRun` | samba/auth/credentials/credentials.c:713-724 | The bound of three is reached, and a caller that goes on after False is prompted as often as it likes. |
| `Credentials.LevelsRise` | samba/auth/credentials/credentials.c:95-290 | After a call no level is lower than it was before, unless the call, or a callback during it, reports a wrong password. |
| `Credentials.SpecifiedExactly` | samba/auth/credentials/credentials.c:245-290 | While a callback runs, the password is specified after a call if and only if it was before or the call, itself or by filling in the machine account, has set it so; nothing takes that back. |
| `Credentials.GetterLowersExactly` | samba/auth/credentials/credentials.c:245-260 | The password getter ends below the level reached while its callback ran if and only if the callback performed a call that specifies the password or its hash. |
| `Credentials.AnswerStands` | samba/auth/credentials/credentials.c:245-260 | The answer of a callback is what the getter leaves, even over what filling in or the callback itself set at a higher level while it ran. |
| `Credentials.OneWinner` | samba/auth/credentials/credentials.c:112-134 | At most one call of a sequence of setters decides a field. |
| `Credentials.LastOfHighest` | samba/auth/credentials/credentials.c:112-134 | After any sequence of setter calls, user name, password and hash are those of the last call of the highest level, where a callback never displaces what already has its level. |
| `Credentials.CliCredentials.SetUsername` | samba/auth/credentials/credentials.c:112-122 | Sets the name and level, and answers True, exactly when the level is no lower than the present one. |
| `Credentials.CliCredentials.SetUsernameCallback` | samba/auth/credentials/credentials.c:124-134 | Arms the callback exactly when the present level is lower. |
| `Credentials.CliCredentials.GetUsername` | samba/auth/credentials/credentials.c:95-110 | Asks an armed callback unless one is running, and afterwards the name counts as specified. |
| `Credentials.CliCredentials.SetPassword` | samba/auth/credentials/credentials.c:265-278 | Sets the password and forgets the hash, exactly when the level is no lower. |
| `Credentials.CliCredentials.SetNtHash` | samba/auth/credentials/credentials.c:342-354 | Sets the hash and forgets the password, exactly when the level is no lower. |
| `Credentials.CliCredentials.SetPasswordCallback` | samba/auth/credentials/credentials.c:280-290 | Arms the password callback exactly when the present level is lower. |
| `Credentials.CliCredentials.GetPassword` | samba/auth/credentials/credentials.c:245-260 | Asks an armed callback unless one is running, whatever calls it makes back, and keeps its answer. |
| `Credentials.CliCredentials.WrongPassword` | samba/auth/credentials/credentials.c:713-724 | Arms the callback again only after an answer from it, and answers whether tries are left. |
| `Credentials.CliCredentials.SetMachineAccountPending` | samba/auth/credentials/credentials_files.c:392-395 | Leaves the account to be filled in by the next getter. |
| `Credentials.CliCredentials.FillIn` | samba/auth/credentials/credentials_files.c:328-339 | A pending account is filled in once, by calls that no longer see it pending. |
| `AuthRequest.AuthContext.SetChallengeTo` | samba/auth/auth.c:37-46 | Replaces the challenge and who set it. |
| `AuthRequest.AuthContext.Get` | samba/auth/auth.c:60-110 | Gives the present challenge, else that of the first method that has one, else random bytes; a method that fails or gives another length changes nothing. |
| `AuthRequest.AuthContext.CheckPasswordSend` | samba/auth/auth.c:227-307 | Either queues one event for the first method that wants the check, or makes the callback at once with the status of the step that failed. |
| `AuthRequest.AuthContext.TimedHandler` | samba/auth/auth.c:194-200 | Delivering any one of the pending events makes the callback of its request with the answer of the chosen method. |
| `AuthRequest.DeliverConserves` | samba/auth/auth.c:194-200 | A delivery moves one request from pending to called back. |
| `AuthRequest.StepKeeps` | samba/auth/auth.c:194-307 | Every step keeps the invariant: requests called back and pending together are those sent, each once, and each was told its verdict. |
| `AuthRequest.RunKeeps` | samba/auth/auth.c:194-307 | So does every run. |
| `AuthRequest.ExactlyOnce` | samba/auth/auth.c:227-307 | In every interleaving each request has its callback made exactly once, or is pending exactly once; what it is told is the verdict of the first method whose want_check is not NOT_IMPLEMENTED. |
| `AuthRequest.OnlySent` | samba/auth/auth.c:227-307 | Nothing is called back that was not sent, and the counts add up. |
| `AuthRequest.ChallengeStands` | samba/auth/auth.c:60-110 | Once there is a challenge, every later fetch in any run without set_challenge gives the same eight bytes. |
| `AuthRequest.FetchSettles` | samba/auth/auth.c:60-110 | On every reachable state a fetch that succeeds leaves eight bytes, and one that fails changes nothing. |

## Left out

Contracts stated with a condition of their own:

- DumpLoad.DumpThenLoad: requires that the strings, list words and options of the service are in the normal form that `PrintableExactly` shows to be necessary, and says nothing of the copy, include and validity parameters.
- LpDump.LpDumpLoads: has the same limits; which globals are hidden is a parameter, and those shown have to be found under their own names.
- Reloading.LoadDumpLoad: is about files without copy and include lines, and asks the same of the globals shown; `ParmTable` shows it of service parameters only.
- Config.Engine.LpDoParameter: an include line only records its value, where the source goes on to read the file named.
- CopyRules.ExplicitWins: is about fields whose entries have no handler; the copy and include parameters themselves are not covered.
- CopyRules.CopyFills: has the same limit, and starts from a field that was not yet set explicitly.
- Ntlm.KeyDiscipline: requires stored hashes of 16 bytes, as the source's types have them.
- WbemStream.MessageRead: requires messages below 4 GiB whose payload encoder is undone by its decoder; the CIM payload format itself is a parameter.
- Wmic.Query: assumes a server that returns as many rows as asked for or as remain, and that leaves out a class only after having sent it in the same enumeration.
- Gensec.UseKerberosMechs: what the source does once it has written past its array is not modelled; the method reports that it would.
- Credentials.PromptBudget: counts calls of the password callback; a caller that ignores False is not bounded, as `RoundsRun` shows.

Not modelled:

- File access and the list of files to watch: the file is a sequence of characters.
- Out-of-memory branches (except where an event cannot be scheduled), talloc ownership and DEBUG output.
- The tail of lp_load after the last section is checked (automatic and hidden services and the WINS server setting).
- A copy line before any section, which the source applies to a service index of -1, is taken to copy nothing.
- The flags of options added by copying are never initialised by the source; the model takes them as not from the command line.
- The validity of a service, which cannot be set from a file, is the field `valid` of a service and is always copied; the storage of its table row is not used. The numbers of the server roles are those of their order.
- Characters beyond ASCII and case folding of multi-byte text; overflow in atoi.
- The concrete hash, MAC and key functions of NTLM, and SMBNTLMv2encrypt_hash beyond their algebra.
- The plain-text path of the password check beyond its decision, and account restrictions.
- The duplicate family of wmi/wbemdata.c and the network layer below it; the queries of wmicso.c and wmirsop.c.
- Conversion of a WMI value to text: a row is a class name and lists of names and values.
- Domain, realm, workstation and principal of the credentials, which repeat the user name's pattern or are derived; what filling in a machine account reads from the secrets database is a parameter.
- auth_check_password, which turns the event loop until its own request is answered, and auth_check_password_recv, which hands out the status already recorded in the request.
- Selection of one mechanism by number, OID or name, and the mechanisms themselves.
- Kerberos, winbind, LDAP and Windows registry access, and the command line clients.

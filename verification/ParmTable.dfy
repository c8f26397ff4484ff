/** The parameter table of loadparm.c, row by row, and the facts about it that the engine's theorems ask for. */
module ParmTable {
  import opened Text
  import opened CStrings
  import opened ConfRoundTrip
  import opened LoadParm
  import opened DumpLoad
  import opened WholeDump
  import opened Reloading
  import opened Grouping
  import CommandLine

  function Heading(name: string): Group {
    Group([name], KSep, Separator, NoSpecial, [])
  }

  function OfGlobals(names: seq<string>, kind: Kind): Group {
    Group(names, kind, Global, NoSpecial, [])
  }

  function OfService(names: seq<string>, kind: Kind): Group {
    Group(names, kind, Local, NoSpecial, [])
  }

  function Choice(names: seq<string>, scope: Scope, enums: seq<(int, string)>): Group {
    Group(names, KEnum, scope, NoSpecial, enums)
  }

  function Handled(name: string, special: Special): Group {
    Group([name], KString, Local, special, [])
  }

  const PROTOCOLS: seq<(int, string)> :=
    [(6, "SMB2"), (5, "NT1"), (4, "LANMAN2"), (3, "LANMAN1"), (1, "CORE"), (2, "COREPLUS"), (2, "CORE+")]
  const SECURITY_MODES: seq<(int, string)> := [(0, "SHARE"), (1, "USER")]
  const ANNOUNCED_AS: seq<(int, string)> :=
    [(1, "NT"), (1, "NT Server"), (4, "NT Workstation"), (2, "win95"), (3, "WfW")]
  const BOOL_AUTO: seq<(int, string)> :=
    [(0, "No"), (0, "False"), (0, "0"), (1, "Yes"), (1, "True"), (1, "1"), (2, "Auto")]
  const CSC_POLICIES: seq<(int, string)> := [(0, "manual"), (1, "documents"), (2, "programs"), (3, "disable")]
  const SIGNING: seq<(int, string)> :=
    [(0, "No"), (0, "False"), (0, "0"), (0, "Off"), (0, "disabled"), (1, "Yes"), (1, "True"), (1, "1"), (1, "On"),
     (1, "enabled"), (2, "required"), (2, "mandatory"), (2, "force"), (2, "forced"), (2, "enforced"), (3, "auto")]
  const SERVER_ROLES: seq<(int, string)> := [(0, "standalone"), (1, "member server"), (2, "bdc"), (3, "pdc")]

  const ROWS_0: seq<Group> := [
    Heading("Base Options"), Choice(["server role"], Global, SERVER_ROLES), OfGlobals(["dos charset"], KString),
    OfGlobals(["unix charset"], KString), OfGlobals(["ncalrpc dir"], KString)
  ]
  const ROWS_1: seq<Group> := [
    OfGlobals(["display charset"], KString), OfService(["comment"], KString),
    OfService(["path", "directory"], KString), OfGlobals(["workgroup"], KUString), OfGlobals(["realm"], KString)
  ]
  const ROWS_2: seq<Group> := [
    OfGlobals(["netbios name"], KUString), OfGlobals(["netbios aliases"], KList),
    OfGlobals(["netbios scope"], KUString), OfGlobals(["server string"], KString), OfGlobals(["interfaces"], KList)
  ]
  const ROWS_3: seq<Group> := [
    OfGlobals(["bind interfaces only"], KBool), OfService(["ntvfs handler"], KList),
    OfGlobals(["ntptr providor"], KString), OfGlobals(["dcerpc endpoint servers"], KList),
    OfGlobals(["server services"], KList)
  ]
  const ROWS_4: seq<Group> := [
    Heading("Security Options"), Choice(["security"], Global, SECURITY_MODES), OfGlobals(["auth methods"], KList),
    OfGlobals(["encrypt passwords"], KBool), OfGlobals(["null passwords"], KBool)
  ]
  const ROWS_5: seq<Group> := [
    OfGlobals(["obey pam restrictions"], KBool), OfGlobals(["password server"], KList),
    OfGlobals(["sam database"], KString), OfGlobals(["spoolss database"], KString),
    OfGlobals(["wins config database"], KString)
  ]
  const ROWS_6: seq<Group> := [
    OfGlobals(["wins database"], KString), OfGlobals(["private dir"], KString), OfGlobals(["passwd chat"], KString),
    OfGlobals(["password level"], KInteger), OfGlobals(["lanman auth"], KBool)
  ]
  const ROWS_7: seq<Group> := [
    OfGlobals(["ntlm auth"], KBool), OfGlobals(["client NTLMv2 auth"], KBool),
    OfGlobals(["client lanman auth"], KBool), OfGlobals(["client plaintext auth"], KBool),
    OfGlobals(["client use spnego principal"], KBool)
  ]
  const ROWS_8: seq<Group> := [
    OfService(["read only"], KBool), OfService(["hosts allow"], KList), OfService(["hosts deny"], KList),
    Heading("Logging Options"), OfGlobals(["log level", "debuglevel"], KInteger)
  ]
  const ROWS_9: seq<Group> := [
    OfGlobals(["log file"], KString), Heading("Protocol Options"), OfGlobals(["smb ports"], KList),
    OfGlobals(["nbt port"], KInteger), OfGlobals(["dgram port"], KInteger)
  ]
  const ROWS_10: seq<Group> := [
    OfGlobals(["cldap port"], KInteger), OfGlobals(["krb5 port"], KInteger), OfGlobals(["kpasswd port"], KInteger),
    OfGlobals(["web port"], KInteger), OfGlobals(["tls enabled"], KBool)
  ]
  const ROWS_11: seq<Group> := [
    OfGlobals(["tls keyfile"], KString), OfGlobals(["tls certfile"], KString), OfGlobals(["tls cafile"], KString),
    OfGlobals(["tls crlfile"], KString), OfGlobals(["tls dh params file"], KString)
  ]
  const ROWS_12: seq<Group> := [
    OfGlobals(["swat directory"], KString), OfGlobals(["large readwrite"], KBool),
    Choice(["server max protocol"], Global, PROTOCOLS), Choice(["server min protocol"], Global, PROTOCOLS),
    Choice(["client max protocol"], Global, PROTOCOLS)
  ]
  const ROWS_13: seq<Group> := [
    Choice(["client min protocol"], Global, PROTOCOLS), OfGlobals(["unicode"], KBool), OfGlobals(["read raw"], KBool),
    OfGlobals(["write raw"], KBool), OfGlobals(["disable netbios"], KBool)
  ]
  const ROWS_14: seq<Group> := [
    OfGlobals(["nt status support"], KBool), OfGlobals(["announce version"], KString),
    Choice(["announce as"], Global, ANNOUNCED_AS), OfGlobals(["max mux"], KInteger), OfGlobals(["max xmit"], KBytes)
  ]
  const ROWS_15: seq<Group> := [
    OfGlobals(["name resolve order"], KList), OfGlobals(["max wins ttl"], KInteger),
    OfGlobals(["min wins ttl"], KInteger), OfGlobals(["time server"], KBool), OfGlobals(["unix extensions"], KBool)
  ]
  const ROWS_16: seq<Group> := [
    OfGlobals(["use spnego"], KBool), Choice(["server signing"], Global, SIGNING),
    Choice(["client signing"], Global, SIGNING), OfGlobals(["rpc big endian"], KBool), Heading("Tuning Options")
  ]
  const ROWS_17: seq<Group> := [
    OfService(["max connections"], KInteger), OfGlobals(["paranoid server security"], KBool),
    OfGlobals(["socket options"], KString), OfService(["strict sync"], KBool),
    OfService(["case insensitive filesystem"], KBool)
  ]
  const ROWS_18: seq<Group> := [
    Heading("Printing Options"), OfService(["max print jobs"], KInteger), OfService(["printable", "print ok"], KBool),
    OfService(["printer name", "printer"], KString), Heading("Filename Handling")
  ]
  const ROWS_19: seq<Group> := [
    OfService(["map system"], KBool), OfService(["map hidden"], KBool), OfService(["map archive"], KBool),
    Heading("Domain Options"), Heading("Logon Options")
  ]
  const ROWS_20: seq<Group> := [
    Heading("Browse Options"), Choice(["preferred master", "prefered master"], Global, BOOL_AUTO),
    OfGlobals(["local master"], KBool), OfService(["browseable", "browsable"], KBool), Heading("WINS Options")
  ]
  const ROWS_21: seq<Group> := [
    OfGlobals(["wins server"], KList), OfGlobals(["wins support"], KBool), OfGlobals(["dns proxy"], KBool),
    OfGlobals(["wins hook"], KString), Heading("Locking Options")
  ]
  const ROWS_22: seq<Group> := [
    Choice(["csc policy"], Local, CSC_POLICIES), OfService(["strict locking"], KBool),
    Heading("Miscellaneous Options"), OfGlobals(["config file"], KString), OfGlobals(["share backend"], KString)
  ]
  const ROWS_23: seq<Group> := [
    OfGlobals(["preload", "auto services"], KString), OfGlobals(["lock dir", "lock directory"], KString),
    OfGlobals(["modules dir"], KString), OfGlobals(["pid directory"], KString), OfGlobals(["js include"], KList)
  ]
  const ROWS_24: seq<Group> := [
    OfGlobals(["jsonrpc services directory"], KString), OfGlobals(["setup directory"], KString),
    OfGlobals(["socket address"], KString), OfService(["-valid"], KBool), Handled("copy", HandleCopy)
  ]
  const ROWS_25: seq<Group> := [
    Handled("include", HandleInclude), OfService(["available"], KBool), OfService(["volume"], KString),
    OfService(["fstype"], KString), OfGlobals(["panic action"], KString)
  ]
  const ROWS_26: seq<Group> := [
    OfService(["msdfs root"], KBool), OfGlobals(["host msdfs"], KBool), OfGlobals(["winbind separator"], KString),
    OfGlobals(["winbindd socket directory"], KString), OfGlobals(["winbind sealed pipes"], KBool)
  ]

  const PART_0: seq<Group> :=
    ROWS_0 + ROWS_1 + ROWS_2 + ROWS_3 + ROWS_4 + ROWS_5 + ROWS_6 + ROWS_7 + ROWS_8
  const PART_1: seq<Group> :=
    ROWS_9 + ROWS_10 + ROWS_11 + ROWS_12 + ROWS_13 + ROWS_14 + ROWS_15 + ROWS_16 + ROWS_17
  const PART_2: seq<Group> :=
    ROWS_18 + ROWS_19 + ROWS_20 + ROWS_21 + ROWS_22 + ROWS_23 + ROWS_24 + ROWS_25 + ROWS_26

  /** parm_table. */
  const PARM_TABLE: Table := Expand(PART_0 + PART_1 + PART_2)

  /** The group whose service parameters have this sign, or -1. */
  function Home(s: Sign): int {
    if s.a == '-' then
      if s.c == 'I' && s.d == 'D' && s.b == 'V' then 123 else -1
    else if s.a == 'A' then
      if s.c == 'L' && s.d == 'E' && s.b == 'V' then 126 else -1
    else if s.a == 'B' then
      if s.c == 'L' && s.d == 'E' && s.b == 'R' then 103 else -1
    else if s.a == 'C' then
      if s.c == 'N' && s.d == 'T' && s.b == 'O' then 6
      else if s.c == 'E' && s.d == 'M' && s.b == 'A' then 89
      else if s.c == 'C' && s.d == 'Y' && s.b == 'S' then 110
      else if s.c == 'P' && s.d == 'Y' && s.b == 'O' then 124 else -1
    else if s.a == 'D' then
      if s.c == 'R' && s.d == 'Y' && s.b == 'I' then 7 else -1
    else if s.a == 'F' then
      if s.c == 'P' && s.d == 'E' && s.b == 'S' then 128 else -1
    else if s.a == 'H' then
      if s.c == 'O' && s.d == 'W' && s.b == 'O' then 41
      else if s.c == 'N' && s.d == 'Y' && s.b == 'O' then 42 else -1
    else if s.a == 'I' then
      if s.c == 'D' && s.d == 'E' && s.b == 'N' then 125 else -1
    else if s.a == 'M' then
      if s.c == 'N' && s.d == 'S' && s.b == 'A' then 85
      else if s.c == 'B' && s.d == 'S' && s.b == 'A' then 91
      else if s.c == 'E' && s.d == 'M' && s.b == 'A' then 95
      else if s.c == 'E' && s.d == 'N' && s.b == 'A' then 96
      else if s.c == 'V' && s.d == 'E' && s.b == 'A' then 97
      else if s.c == 'O' && s.d == 'T' && s.b == 'S' then 130 else -1
    else if s.a == 'N' then
      if s.c == 'E' && s.d == 'R' && s.b == 'T' then 16 else -1
    else if s.a == 'P' then
      if s.c == 'T' && s.d == 'H' && s.b == 'A' then 7
      else if s.c == 'L' && s.d == 'E' && s.b == 'R' then 92
      else if s.c == 'O' && s.d == 'K' && s.b == 'R' then 92
      else if s.c == 'M' && s.d == 'E' && s.b == 'R' then 93
      else if s.c == 'E' && s.d == 'R' && s.b == 'R' then 93 else -1
    else if s.a == 'R' then
      if s.c == 'L' && s.d == 'Y' && s.b == 'E' then 40 else -1
    else if s.a == 'S' then
      if s.c == 'N' && s.d == 'C' && s.b == 'T' then 88
      else if s.c == 'N' && s.d == 'G' && s.b == 'T' then 111 else -1
    else if s.a == 'V' then
      if s.c == 'M' && s.d == 'E' && s.b == 'O' then 127 else -1
    else -1
  }

  // Choices

  lemma Protocols()
    ensures EnumsGood(PROTOCOLS)
  {
    ChoicesGood(PROTOCOLS);
  }

  lemma SecurityModes()
    ensures EnumsGood(SECURITY_MODES)
  {
    ChoicesGood(SECURITY_MODES);
  }

  lemma AnnouncedAs()
    ensures EnumsGood(ANNOUNCED_AS)
  {
    ChoicesGood(ANNOUNCED_AS);
  }

  lemma BoolAuto()
    ensures EnumsGood(BOOL_AUTO)
  {
    ChoicesGood(BOOL_AUTO);
  }

  lemma CscPolicies()
    ensures EnumsGood(CSC_POLICIES)
  {
    ChoicesGood(CSC_POLICIES);
  }

  lemma Signing()
    ensures EnumsGood(SIGNING)
  {
    ChoicesGood(SIGNING);
  }

  lemma ServerRoles()
    ensures EnumsGood(SERVER_ROLES)
  {
    ChoicesGood(SERVER_ROLES);
  }

  // Rows

  lemma LongName()
    ensures GoodKey("case insensitive filesystem")
  {
    Lettered("case insensitive filesystem", 4, 16);
  }

  lemma Rows0()
    ensures |ROWS_0| == 5 && AllFine(Home, ROWS_0, 0) && AllGood(ROWS_0)
  {
    ServerRoles();
    Five(Home, ROWS_0, 0);
    FiveGood(ROWS_0);
  }

  lemma Rows1()
    ensures |ROWS_1| == 5 && AllFine(Home, ROWS_1, 5)
  {
    Five(Home, ROWS_1, 5);
  }

  lemma Names1()
    ensures AllGood(ROWS_1)
  {
    Lettered("comment", 7, 7);
    Lettered("path", 4, 4);
    Lettered("directory", 9, 9);
    FiveGood(ROWS_1);
  }

  lemma Rows2()
    ensures |ROWS_2| == 5 && AllFine(Home, ROWS_2, 10) && AllGood(ROWS_2)
  {
    Five(Home, ROWS_2, 10);
    FiveGood(ROWS_2);
  }

  lemma Rows3()
    ensures |ROWS_3| == 5 && AllFine(Home, ROWS_3, 15)
  {
    Five(Home, ROWS_3, 15);
  }

  lemma Names3()
    ensures AllGood(ROWS_3)
  {
    Lettered("ntvfs handler", 5, 13);
    FiveGood(ROWS_3);
  }

  lemma Rows4()
    ensures |ROWS_4| == 5 && AllFine(Home, ROWS_4, 20) && AllGood(ROWS_4)
  {
    SecurityModes();
    Five(Home, ROWS_4, 20);
    FiveGood(ROWS_4);
  }

  lemma Rows5()
    ensures |ROWS_5| == 5 && AllFine(Home, ROWS_5, 25) && AllGood(ROWS_5)
  {
    Five(Home, ROWS_5, 25);
    FiveGood(ROWS_5);
  }

  lemma Rows6()
    ensures |ROWS_6| == 5 && AllFine(Home, ROWS_6, 30) && AllGood(ROWS_6)
  {
    Five(Home, ROWS_6, 30);
    FiveGood(ROWS_6);
  }

  lemma Rows7()
    ensures |ROWS_7| == 5 && AllFine(Home, ROWS_7, 35) && AllGood(ROWS_7)
  {
    Five(Home, ROWS_7, 35);
    FiveGood(ROWS_7);
  }

  lemma Rows8()
    ensures |ROWS_8| == 5 && AllFine(Home, ROWS_8, 40)
  {
    Five(Home, ROWS_8, 40);
  }

  lemma Names8()
    ensures AllGood(ROWS_8)
  {
    Lettered("read only", 4, 9);
    Lettered("hosts allow", 5, 11);
    Lettered("hosts deny", 5, 10);
    FiveGood(ROWS_8);
  }

  lemma Rows9()
    ensures |ROWS_9| == 5 && AllFine(Home, ROWS_9, 45) && AllGood(ROWS_9)
  {
    Five(Home, ROWS_9, 45);
    FiveGood(ROWS_9);
  }

  lemma Rows10()
    ensures |ROWS_10| == 5 && AllFine(Home, ROWS_10, 50) && AllGood(ROWS_10)
  {
    Five(Home, ROWS_10, 50);
    FiveGood(ROWS_10);
  }

  lemma Rows11()
    ensures |ROWS_11| == 5 && AllFine(Home, ROWS_11, 55) && AllGood(ROWS_11)
  {
    Five(Home, ROWS_11, 55);
    FiveGood(ROWS_11);
  }

  lemma Rows12()
    ensures |ROWS_12| == 5 && AllFine(Home, ROWS_12, 60) && AllGood(ROWS_12)
  {
    Protocols();
    Five(Home, ROWS_12, 60);
    FiveGood(ROWS_12);
  }

  lemma Rows13()
    ensures |ROWS_13| == 5 && AllFine(Home, ROWS_13, 65) && AllGood(ROWS_13)
  {
    Protocols();
    Five(Home, ROWS_13, 65);
    FiveGood(ROWS_13);
  }

  lemma Rows14()
    ensures |ROWS_14| == 5 && AllFine(Home, ROWS_14, 70) && AllGood(ROWS_14)
  {
    AnnouncedAs();
    Five(Home, ROWS_14, 70);
    FiveGood(ROWS_14);
  }

  lemma Rows15()
    ensures |ROWS_15| == 5 && AllFine(Home, ROWS_15, 75) && AllGood(ROWS_15)
  {
    Five(Home, ROWS_15, 75);
    FiveGood(ROWS_15);
  }

  lemma Rows16()
    ensures |ROWS_16| == 5 && AllFine(Home, ROWS_16, 80) && AllGood(ROWS_16)
  {
    Signing();
    Five(Home, ROWS_16, 80);
    FiveGood(ROWS_16);
  }

  lemma Rows17()
    ensures |ROWS_17| == 5 && AllFine(Home, ROWS_17, 85)
  {
    Five(Home, ROWS_17, 85);
  }

  lemma Names17()
    ensures AllGood(ROWS_17)
  {
    Lettered("max connections", 3, 15);
    Lettered("strict sync", 6, 11);
    LongName();
    FiveGood(ROWS_17);
  }

  lemma Rows18()
    ensures |ROWS_18| == 5 && AllFine(Home, ROWS_18, 90)
  {
    Five(Home, ROWS_18, 90);
  }

  lemma Names18()
    ensures AllGood(ROWS_18)
  {
    Lettered("max print jobs", 3, 9);
    Lettered("printable", 9, 9);
    Lettered("print ok", 5, 8);
    Lettered("printer name", 7, 12);
    Lettered("printer", 7, 7);
    FiveGood(ROWS_18);
  }

  lemma Rows19()
    ensures |ROWS_19| == 5 && AllFine(Home, ROWS_19, 95)
  {
    Five(Home, ROWS_19, 95);
  }

  lemma Names19()
    ensures AllGood(ROWS_19)
  {
    Lettered("map system", 3, 10);
    Lettered("map hidden", 3, 10);
    Lettered("map archive", 3, 11);
    FiveGood(ROWS_19);
  }

  lemma Rows20()
    ensures |ROWS_20| == 5 && AllFine(Home, ROWS_20, 100)
  {
    Five(Home, ROWS_20, 100);
  }

  lemma Names20()
    ensures AllGood(ROWS_20)
  {
    BoolAuto();
    Lettered("browseable", 10, 10);
    Lettered("browsable", 9, 9);
    FiveGood(ROWS_20);
  }

  lemma Rows21()
    ensures |ROWS_21| == 5 && AllFine(Home, ROWS_21, 105) && AllGood(ROWS_21)
  {
    Five(Home, ROWS_21, 105);
    FiveGood(ROWS_21);
  }

  lemma Rows22()
    ensures |ROWS_22| == 5 && AllFine(Home, ROWS_22, 110)
  {
    Five(Home, ROWS_22, 110);
  }

  lemma Names22()
    ensures AllGood(ROWS_22)
  {
    CscPolicies();
    Lettered("csc policy", 3, 10);
    Lettered("strict locking", 6, 14);
    FiveGood(ROWS_22);
  }

  lemma Rows23()
    ensures |ROWS_23| == 5 && AllFine(Home, ROWS_23, 115) && AllGood(ROWS_23)
  {
    Five(Home, ROWS_23, 115);
    FiveGood(ROWS_23);
  }

  lemma Rows24()
    ensures |ROWS_24| == 5 && AllFine(Home, ROWS_24, 120)
  {
    Five(Home, ROWS_24, 120);
  }

  lemma Names24()
    ensures AllGood(ROWS_24)
  {
    Lettered("copy", 4, 4);
    FiveGood(ROWS_24);
  }

  lemma Rows25()
    ensures |ROWS_25| == 5 && AllFine(Home, ROWS_25, 125)
  {
    Five(Home, ROWS_25, 125);
  }

  lemma Names25()
    ensures AllGood(ROWS_25)
  {
    Lettered("include", 7, 7);
    Lettered("available", 9, 9);
    Lettered("volume", 6, 6);
    Lettered("fstype", 6, 6);
    FiveGood(ROWS_25);
  }

  lemma Rows26()
    ensures |ROWS_26| == 5 && AllFine(Home, ROWS_26, 130)
  {
    Five(Home, ROWS_26, 130);
  }

  lemma Names26()
    ensures AllGood(ROWS_26)
  {
    Lettered("msdfs root", 5, 10);
    FiveGood(ROWS_26);
  }

  lemma Nine(a: seq<Group>, b: seq<Group>, c: seq<Group>, d: seq<Group>, e: seq<Group>, f: seq<Group>,
             g: seq<Group>, h: seq<Group>, i: seq<Group>, k: nat)
    requires |a| == |b| == |c| == |d| == |e| == |f| == |g| == |h| == |i| == 5
    requires AllFine(Home, a, k) && AllFine(Home, b, k + 5) && AllFine(Home, c, k + 10) && AllFine(Home, d, k + 15)
    requires AllFine(Home, e, k + 20) && AllFine(Home, f, k + 25) && AllFine(Home, g, k + 30)
    requires AllFine(Home, h, k + 35) && AllFine(Home, i, k + 40)
    requires AllGood(a) && AllGood(b) && AllGood(c) && AllGood(d) && AllGood(e) && AllGood(f) && AllGood(g)
    requires AllGood(h) && AllGood(i)
    ensures var all := a + b + c + d + e + f + g + h + i; |all| == 45 && AllFine(Home, all, k) && AllGood(all)
  {
    Join(Home, a, b, k);
    Join(Home, a + b, c, k);
    Join(Home, a + b + c, d, k);
    Join(Home, a + b + c + d, e, k);
    Join(Home, a + b + c + d + e, f, k);
    Join(Home, a + b + c + d + e + f, g, k);
    Join(Home, a + b + c + d + e + f + g, h, k);
    Join(Home, a + b + c + d + e + f + g + h, i, k);
  }

  lemma Part0()
    ensures |PART_0| == 45 && AllFine(Home, PART_0, 0) && AllGood(PART_0)
  {
    Rows0(); Rows1(); Rows2(); Rows3(); Rows4(); Rows5(); Rows6(); Rows7(); Rows8();
    Names1(); Names3(); Names8();
    Nine(ROWS_0, ROWS_1, ROWS_2, ROWS_3, ROWS_4, ROWS_5, ROWS_6, ROWS_7, ROWS_8, 0);
  }

  lemma Part1()
    ensures |PART_1| == 45 && AllFine(Home, PART_1, 45) && AllGood(PART_1)
  {
    Rows9(); Rows10(); Rows11(); Rows12(); Rows13(); Rows14(); Rows15(); Rows16(); Rows17();
    Names17();
    Nine(ROWS_9, ROWS_10, ROWS_11, ROWS_12, ROWS_13, ROWS_14, ROWS_15, ROWS_16, ROWS_17, 45);
  }

  lemma Part2()
    ensures |PART_2| == 45 && AllFine(Home, PART_2, 90) && AllGood(PART_2)
  {
    Rows18(); Rows19(); Rows20(); Rows21(); Rows22(); Rows23(); Rows24(); Rows25(); Rows26();
    Names18(); Names19(); Names20(); Names22(); Names24(); Names25(); Names26();
    Nine(ROWS_18, ROWS_19, ROWS_20, ROWS_21, ROWS_22, ROWS_23, ROWS_24, ROWS_25, ROWS_26, 90);
  }

  /** What the theorems about the engine ask of a table holds of the source's own. */
  lemma TableFacts()
    ensures Contiguous(PARM_TABLE) && AliasesAgree(PARM_TABLE) && WellTyped(PARM_TABLE) && NamesFound(PARM_TABLE)
    ensures EnumRows(PARM_TABLE) && ZeroFirst(PARM_TABLE)
    ensures |PART_0| == |PART_1| == |PART_2| == 45
  {
    Part0();
    Part1();
    Part2();
    Join(Home, PART_0, PART_1, 0);
    Join(Home, PART_0 + PART_1, PART_2, 0);
    GroupedTable(Home, PART_0 + PART_1 + PART_2);
  }

  lemma ThirdPart(gs: seq<Group>, k: nat)
    requires gs == PART_0 + PART_1 + PART_2 && k < 45
    ensures |gs| == 135 && |PART_2| == 45 && gs[90 + k] == PART_2[k]
  {
    Part0();
    Part1();
    Part2();
  }

  lemma PrinterGroups()
    ensures |PART_2| == 45 && PART_2[2] == OfService(["printable", "print ok"], KBool)
    ensures PART_2[13] == OfService(["browseable", "browsable"], KBool)
  {
    Part2();
    Rows18();
    Rows19();
    Rows20();
  }

  lemma CopyGroup()
    ensures |PART_2| == 45 && PART_2[34] == Handled("copy", HandleCopy)
  {
    Part2();
    Rows18();
    Rows19();
    Rows20();
    Rows21();
    Rows22();
    Rows23();
    Rows24();
  }

  lemma PrinterFacts()
    ensures PrinterRows(PARM_TABLE)
  {
    var gs := PART_0 + PART_1 + PART_2;
    PrinterGroups();
    ThirdPart(gs, 2);
    ThirdPart(gs, 13);
    PrinterSlots(gs);
  }

  /** The storage that service_ok corrects is that of the parameters of these names. */
  lemma PrinterNames()
    ensures var n := MapParameter(PARM_TABLE, "printable"); n >= 0 && PARM_TABLE[n].ptr == Some(PRINT_OK)
    ensures var n := MapParameter(PARM_TABLE, "browseable"); n >= 0 && PARM_TABLE[n].ptr == Some(BROWSEABLE)
  {
    var gs := PART_0 + PART_1 + PART_2;
    TableFacts();
    PrinterGroups();
    ThirdPart(gs, 2);
    ThirdPart(gs, 13);
    SlotNamed(PARM_TABLE, gs, 92, "printable");
    SlotNamed(PARM_TABLE, gs, 103, "browseable");
  }

  // The engine on its own table

  /** `CommandLineWins`, with nothing left to assume of the table. */
  lemma CommandLineHolds(st: State, name: string, value: string, ops: seq<Op>)
    requires var n := MapParameter(PARM_TABLE, name); n >= 0 && PARM_TABLE[n].ptr.Some?
    requires SetCmdline(PARM_TABLE, st, name, value).1
    requires forall op :: op in ops ==>
               !CommandLine.Renames(PARM_TABLE, op, PARM_TABLE[MapParameter(PARM_TABLE, name)].ptr.value)
    ensures var p := PARM_TABLE[MapParameter(PARM_TABLE, name)];
            var v := Get(Run(PARM_TABLE, SetCmdline(PARM_TABLE, st, name, value).0, ops).defaults, p.ptr.value);
            if p.special.NoSpecial? then Some(v) == Convert(p, TrimLeft(value)) else v == VStr(TrimLeft(value))
  {
    TableFacts();
    CommandLine.CommandLineWins(PARM_TABLE, st, name, value, ops);
  }

  /** What `ClashingRun` asks for. */
  lemma CopyRow()
    ensures var n := MapParameter(PARM_TABLE, "copy");
            n >= 0 && PARM_TABLE[n].scope.Local? && PARM_TABLE[n].special.HandleCopy? && PARM_TABLE[n].ptr.Some?
  {
    var gs := PART_0 + PART_1 + PART_2;
    TableFacts();
    CopyGroup();
    ThirdPart(gs, 34);
    SlotNamed(PARM_TABLE, gs, 124, "copy");
  }

  // The defaults at first

  /** The service parameters that are on in sDefault: "read only", "map archive", "browseable", "strict
      locking" and "available". */
  const ON_AT_FIRST: set<Slot> := {40, 97, 103, 111, 126}
  const MAX_PRINT_JOBS: Slot := 91

  function Initial(p: Slot, kind: Kind): Value {
    match kind
    case KBool => VBool(p in ON_AT_FIRST)
    case KString => VStr([])
    case KUString => VStr([])
    case KList => VList(None)
    case KInteger => VInt(if p == MAX_PRINT_JOBS then 1000 else 0)
    case _ => VInt(0)
  }

  /** sDefault as it is initialised, its strings emptied by the first load. */
  function FirstDefaults(gs: seq<Group>): Values {
    map p: Slot | p < |gs| :: Initial(p, gs[p].kind)
  }

  /** As right after a reset: every entry is flagged as having its built-in value. */
  ghost predicate AllHidden(t: Table, hidden: set<nat>) {
    forall i :: 0 <= i < |t| ==> i in hidden
  }

  lemma InitialSound(gs: seq<Group>, i: nat)
    requires var t := Expand(gs);
             WellTyped(t) && EnumRows(t) && ZeroFirst(t) && i < |t| && t[i].scope.Local? && t[i].ptr.Some?
    ensures SoundValue(Expand(gs)[i], Get(FirstDefaults(gs), Expand(gs)[i].ptr.value))
  {
    SlotKind(gs, i);
    var p := Expand(gs)[i];
    if p.kind.KEnum? {
      assert p.enums[0] in p.enums && EnumByValue(p.enums, 0) == p.enums[0].1;
    }
  }

  lemma FirstSound(gs: seq<Group>, hidden: set<nat>)
    requires var t := Expand(gs); WellTyped(t) && EnumRows(t) && ZeroFirst(t) && AllHidden(t, hidden)
    ensures SoundDefaults(Expand(gs), hidden, FirstDefaults(gs))
  {
    var t := Expand(gs);
    forall i | 0 <= i < |t| && Watched(t, hidden, i)
      ensures SoundValue(t[i], Get(FirstDefaults(gs), t[i].ptr.value))
    {
      InitialSound(gs, i);
    }
  }

  lemma EmptySteady(t: Table, hidden: set<nat>, st: State)
    requires SoundDefaults(t, hidden, st.defaults) && st.services == [] && st.opts == []
    ensures Steady(t, hidden, st)
  {
  }

  /** The source's own table and defaults are a place to start from for `LoadDumpLoad`, with every global
      hidden. */
  lemma StartsSteady(st: State, hidden: set<nat>)
    requires st.defaults == FirstDefaults(PART_0 + PART_1 + PART_2) && st.services == [] && st.opts == []
    requires AllHidden(PARM_TABLE, hidden)
    ensures TableGood(PARM_TABLE) && HiddenTogether(PARM_TABLE, hidden) && Steady(PARM_TABLE, hidden, st)
  {
    TableFacts();
    PrinterFacts();
    FirstSound(PART_0 + PART_1 + PART_2, hidden);
    EmptySteady(PARM_TABLE, hidden, st);
  }
}

/**
 * What both launchers hand to the operating system: an executable, an
 * ordered argument list and an optional working directory. The arguments
 * after the JVM or docker prefix are modelled as a list of flags rendered
 * into strings: `-jar <file>` (read by `java`), and the DynamoDB Local
 * options `-port`, `-dbPath` and `-cors` with a value, the rest bare.
 */
module CommandLine {
  import opened Js

  /** What is passed to spawn. */
  datatype Command = Command(executable: string, args: seq<string>, cwd: Option<string>)

  /** An opaque handle to a spawned process (it stands for the child's pid). */
  datatype Handle = Handle(pid: nat)

  /** The names of the DynamoDB Local options the launchers emit. */
  datatype Name =
    | Jar | Port | DbPath | InMemory | SharedDb | Cors
    | DelayTransientStatuses | OptimizeDbBeforeStartup | Help

  /** How a name is written on the command line. */
  function Spelling(n: Name): string {
    match n
    case Jar => "-jar"
    case Port => "-port"
    case DbPath => "-dbPath"
    case InMemory => "-inMemory"
    case SharedDb => "-sharedDb"
    case Cors => "-cors"
    case DelayTransientStatuses => "-delayTransientStatuses"
    case OptimizeDbBeforeStartup => "-optimizeDbBeforeStartup"
    case Help => "-help"
  }

  /** The name an argument string spells, if any. */
  function NameOf(t: string): Option<Name> {
    if t == "-jar" then Some(Jar)
    else if t == "-port" then Some(Port)
    else if t == "-dbPath" then Some(DbPath)
    else if t == "-inMemory" then Some(InMemory)
    else if t == "-sharedDb" then Some(SharedDb)
    else if t == "-cors" then Some(Cors)
    else if t == "-delayTransientStatuses" then Some(DelayTransientStatuses)
    else if t == "-optimizeDbBeforeStartup" then Some(OptimizeDbBeforeStartup)
    else if t == "-help" then Some(Help)
    else None
  }

  lemma NameOfSpelling(n: Name)
    ensures NameOf(Spelling(n)) == Some(n)
  {
  }

  /** One command-line option: a bare switch, or a name followed by its value. */
  datatype Flag = Switch(name: Name) | Valued(name: Name, value: string)

  /** The options that consume the next argument as their value. */
  predicate TakesValue(n: Name) {
    n == Jar || n == Port || n == DbPath || n == Cors
  }

  predicate WellFormed(f: Flag) {
    match f
    case Switch(n) => !TakesValue(n)
    case Valued(n, _) => TakesValue(n)
  }

  predicate AllWellFormed(fs: seq<Flag>) {
    forall i :: 0 <= i < |fs| ==> WellFormed(fs[i])
  }

  function Tokens(f: Flag): seq<string> {
    match f
    case Switch(n) => [Spelling(n)]
    case Valued(n, v) => [Spelling(n), v]
  }

  /** The argument strings of a flag list, in order. */
  function Render(fs: seq<Flag>): seq<string> {
    if fs == [] then [] else Tokens(fs[0]) + Render(fs[1..])
  }

  /**
   * The model's own reader of an argument list: the left inverse of
   * `Render`, used to state that an argument list determines its flag list.
   * An unknown name, or a valued name with no value after it, fails.
   */
  function Parse(ts: seq<string>): Option<seq<Flag>>
    decreases |ts|
  {
    if ts == [] then Some([])
    else
      match NameOf(ts[0])
      case None => None
      case Some(n) =>
        if TakesValue(n) then
          if |ts| < 2 then None
          else
            match Parse(ts[2..])
            case None => None
            case Some(rest) => Some([Valued(n, ts[1])] + rest)
        else
          match Parse(ts[1..])
          case None => None
          case Some(rest) => Some([Switch(n)] + rest)
  }

  lemma {:induction false} RenderAppend(a: seq<Flag>, b: seq<Flag>)
    ensures Render(a + b) == Render(a) + Render(b)
  {
    if a == [] {
      assert a + b == b;
    } else {
      assert (a + b)[1..] == a[1..] + b;
      RenderAppend(a[1..], b);
    }
  }

  /** A rendered list of well-formed flags reads back as exactly those flags. */
  lemma {:induction false} ParseRender(fs: seq<Flag>)
    requires AllWellFormed(fs)
    ensures Parse(Render(fs)) == Some(fs)
  {
    if fs != [] {
      var ts := Render(fs);
      ParseRender(fs[1..]);
      assert WellFormed(fs[0]);
      NameOfSpelling(fs[0].name);
      match fs[0]
      case Switch(n) =>
        assert ts[1..] == Render(fs[1..]);
        assert fs == [Switch(n)] + fs[1..];
      case Valued(n, v) =>
        assert ts[2..] == Render(fs[1..]);
        assert fs == [Valued(n, v)] + fs[1..];
    }
  }

  /** A name is read only from its own spelling. */
  lemma SpellingOfName(t: string)
    requires NameOf(t).Some?
    ensures Spelling(NameOf(t).value) == t
  {
  }

  /**
   * Whatever the reader accepts is the rendering of what it returns, and
   * consists of well-formed flags: an argument list reads back as a flag
   * list only when it is exactly that list's rendering.
   */
  lemma {:induction false} RenderParse(ts: seq<string>)
    requires Parse(ts).Some?
    ensures Render(Parse(ts).value) == ts
    ensures AllWellFormed(Parse(ts).value)
    decreases |ts|
  {
    if ts != [] {
      var n := NameOf(ts[0]).value;
      SpellingOfName(ts[0]);
      var fs := Parse(ts).value;
      if TakesValue(n) {
        RenderParse(ts[2..]);
        var rest := Parse(ts[2..]).value;
        assert fs == [Valued(n, ts[1])] + rest && fs[1..] == rest;
        assert ts == [ts[0], ts[1]] + ts[2..];
      } else {
        RenderParse(ts[1..]);
        var rest := Parse(ts[1..]).value;
        assert fs == [Switch(n)] + rest && fs[1..] == rest;
        assert ts == [ts[0]] + ts[1..];
      }
      assert forall i :: 1 <= i < |fs| ==> fs[i] == fs[1..][i - 1];
    }
  }

  /**
   * The emulator options once a builder has applied its own truthiness
   * rules; an empty `dbPath` or `cors` means the option was not given.
   */
  datatype EmulatorSettings = EmulatorSettings(
    dbPath: string,
    sharedDb: bool,
    cors: string,
    delayTransientStatuses: bool,
    optimizeDbBeforeStartup: bool,
    help: bool)

  /** The flags pushed by the r-th conditional of a builder (r < 6), in the builders' order. */
  function Slot(s: EmulatorSettings, r: nat): seq<Flag> {
    if r == 0 then (if s.dbPath != "" then [Valued(DbPath, s.dbPath)] else [Switch(InMemory)])
    else if r == 1 then (if s.sharedDb then [Switch(SharedDb)] else [])
    else if r == 2 then (if s.cors != "" then [Valued(Cors, s.cors)] else [])
    else if r == 3 then (if s.delayTransientStatuses then [Switch(DelayTransientStatuses)] else [])
    else if r == 4 then (if s.optimizeDbBeforeStartup then [Switch(OptimizeDbBeforeStartup)] else [])
    else if r == 5 then (if s.help then [Switch(Help)] else [])
    else []
  }

  /** The emulator flags for the given settings: the six slots in order. */
  function EmulatorFlags(s: EmulatorSettings): seq<Flag> {
    Slot(s, 0) + (Slot(s, 1) + (Slot(s, 2) + (Slot(s, 3) + (Slot(s, 4) + Slot(s, 5)))))
  }

  /** The place of an emulator flag in the fixed order; 6 for `-jar` and `-port`. */
  function Rank(n: Name): nat {
    match n
    case DbPath => 0
    case InMemory => 0
    case SharedDb => 1
    case Cors => 2
    case DelayTransientStatuses => 3
    case OptimizeDbBeforeStartup => 4
    case Help => 5
    case Jar => 6
    case Port => 6
  }

  /** Each flag ranks strictly below every flag after it. */
  predicate Ascending(fs: seq<Flag>) {
    fs == [] || ((forall f :: f in fs[1..] ==> Rank(fs[0].name) < Rank(f.name)) && Ascending(fs[1..]))
  }

  /** Ascending ranks, read pairwise. */
  lemma {:induction false} AscendingPairwise(fs: seq<Flag>)
    requires Ascending(fs)
    ensures forall i, j :: 0 <= i < j < |fs| ==> Rank(fs[i].name) < Rank(fs[j].name)
  {
    if fs != [] {
      AscendingPairwise(fs[1..]);
      forall i, j | 0 <= i < j < |fs|
        ensures Rank(fs[i].name) < Rank(fs[j].name)
      {
        assert fs[j] == fs[1..][j - 1];
        if i > 0 {
          assert fs[i] == fs[1..][i - 1];
        } else {
          assert fs[j] in fs[1..];
        }
      }
    }
  }

  /** Putting the r-th slot before flags of higher rank keeps the ranks ascending. */
  lemma PrependSlot(s: EmulatorSettings, r: nat, tail: seq<Flag>)
    requires r < 6
    requires forall f :: f in tail ==> r < Rank(f.name) < 6 && WellFormed(f)
    requires Ascending(tail)
    ensures forall f :: f in Slot(s, r) + tail ==> r <= Rank(f.name) < 6 && WellFormed(f)
    ensures Ascending(Slot(s, r) + tail)
  {
    var head := Slot(s, r);
    assert |head| <= 1 && forall f :: f in head ==> Rank(f.name) == r && WellFormed(f);
    var fs := head + tail;
    if head != [] {
      assert head[0] in head;
      assert fs[0] == head[0] && fs[1..] == tail;
    } else {
      assert fs == tail;
    }
  }

  lemma EmulatorFlagsRanked(s: EmulatorSettings)
    ensures forall f :: f in EmulatorFlags(s) ==> Rank(f.name) < 6 && WellFormed(f)
    ensures Ascending(EmulatorFlags(s))
  {
    PrependSlot(s, 5, []);
    assert Slot(s, 5) + [] == Slot(s, 5);
    PrependSlot(s, 4, Slot(s, 5));
    PrependSlot(s, 3, Slot(s, 4) + Slot(s, 5));
    PrependSlot(s, 2, Slot(s, 3) + (Slot(s, 4) + Slot(s, 5)));
    PrependSlot(s, 1, Slot(s, 2) + (Slot(s, 3) + (Slot(s, 4) + Slot(s, 5))));
    PrependSlot(s, 0, Slot(s, 1) + (Slot(s, 2) + (Slot(s, 3) + (Slot(s, 4) + Slot(s, 5)))));
  }

  /**
   * The emulator flags follow the fixed order `-dbPath`/`-inMemory`,
   * `-sharedDb`, `-cors`, `-delayTransientStatuses`,
   * `-optimizeDbBeforeStartup`, `-help`; so each name appears at most once
   * and `-dbPath` and `-inMemory` never appear together.
   */
  lemma EmulatorFlagsOrdered(s: EmulatorSettings)
    ensures AllWellFormed(EmulatorFlags(s))
    ensures forall i, j :: 0 <= i < j < |EmulatorFlags(s)| ==>
      Rank(EmulatorFlags(s)[i].name) < Rank(EmulatorFlags(s)[j].name)
    ensures forall i, j :: 0 <= i < j < |EmulatorFlags(s)| ==>
      EmulatorFlags(s)[i].name != EmulatorFlags(s)[j].name
    ensures !(Switch(InMemory) in EmulatorFlags(s) && Valued(DbPath, s.dbPath) in EmulatorFlags(s))
  {
    var fs := EmulatorFlags(s);
    EmulatorFlagsRanked(s);
    AscendingPairwise(fs);
    assert forall i :: 0 <= i < |fs| ==> fs[i] in fs;
  }

  /** Every flag of the r-th slot has rank r. */
  lemma SlotRank(s: EmulatorSettings, r: nat)
    ensures forall f :: f in Slot(s, r) ==> Rank(f.name) == r
  {
  }

  /** An emulator flag is in the list exactly when it is in the slot of its own rank. */
  lemma InSlotOfRank(s: EmulatorSettings, f: Flag)
    requires Rank(f.name) < 6
    ensures f in EmulatorFlags(s) <==> f in Slot(s, Rank(f.name))
  {
    SlotRank(s, 0);
    SlotRank(s, 1);
    SlotRank(s, 2);
    SlotRank(s, 3);
    SlotRank(s, 4);
    SlotRank(s, 5);
  }

  /** `-dbPath p` exactly when a path is given, `-inMemory` exactly when none is. */
  lemma EmulatorFlagsStorage(s: EmulatorSettings)
    ensures Valued(DbPath, s.dbPath) in EmulatorFlags(s) <==> s.dbPath != ""
    ensures Switch(InMemory) in EmulatorFlags(s) <==> s.dbPath == ""
  {
    InSlotOfRank(s, Valued(DbPath, s.dbPath));
    InSlotOfRank(s, Switch(InMemory));
  }

  /** Every other emulator flag appears exactly when its setting is on (for `-cors`, non-empty). */
  lemma EmulatorFlagsSwitches(s: EmulatorSettings)
    ensures Switch(SharedDb) in EmulatorFlags(s) <==> s.sharedDb
    ensures Valued(Cors, s.cors) in EmulatorFlags(s) <==> s.cors != ""
    ensures Switch(DelayTransientStatuses) in EmulatorFlags(s) <==> s.delayTransientStatuses
    ensures Switch(OptimizeDbBeforeStartup) in EmulatorFlags(s) <==> s.optimizeDbBeforeStartup
    ensures Switch(Help) in EmulatorFlags(s) <==> s.help
  {
    InSlotOfRank(s, Switch(SharedDb));
    InSlotOfRank(s, Valued(Cors, s.cors));
    InSlotOfRank(s, Switch(DelayTransientStatuses));
    InSlotOfRank(s, Switch(OptimizeDbBeforeStartup));
    InSlotOfRank(s, Switch(Help));
  }

  /**
   * The argument strings the r-th conditional of a builder pushes, written
   * as the builders write them; `RenderSlot` proves them equal to the
   * rendered slot.
   */
  function SlotArgs(s: EmulatorSettings, r: nat): seq<string> {
    if r == 0 then (if s.dbPath != "" then ["-dbPath", s.dbPath] else ["-inMemory"])
    else if r == 1 then (if s.sharedDb then ["-sharedDb"] else [])
    else if r == 2 then (if s.cors != "" then ["-cors", s.cors] else [])
    else if r == 3 then (if s.delayTransientStatuses then ["-delayTransientStatuses"] else [])
    else if r == 4 then (if s.optimizeDbBeforeStartup then ["-optimizeDbBeforeStartup"] else [])
    else if r == 5 then (if s.help then ["-help"] else [])
    else []
  }

  lemma RenderSlot(s: EmulatorSettings, r: nat)
    ensures Render(Slot(s, r)) == SlotArgs(s, r)
  {
    var fs := Slot(s, r);
    if fs != [] {
      assert fs[1..] == [];
    }
  }

  /** Regrouping three argument lists. */
  lemma RegroupArgs(a: seq<string>, b: seq<string>, c: seq<string>)
    ensures a + (b + c) == (a + b) + c
  {
  }

  lemma RenderSlots(s: EmulatorSettings)
    ensures Render(EmulatorFlags(s)) ==
      Render(Slot(s, 0)) + Render(Slot(s, 1)) + Render(Slot(s, 2)) +
      Render(Slot(s, 3)) + Render(Slot(s, 4)) + Render(Slot(s, 5))
  {
    var a, b, c, d, e, f := Slot(s, 0), Slot(s, 1), Slot(s, 2), Slot(s, 3), Slot(s, 4), Slot(s, 5);
    RenderAppend(e, f);
    RenderAppend(d, e + f);
    RenderAppend(c, d + (e + f));
    RenderAppend(b, c + (d + (e + f)));
    RenderAppend(a, b + (c + (d + (e + f))));
    var ra, rb, rc, rd, re, rf := Render(a), Render(b), Render(c), Render(d), Render(e), Render(f);
    assert Render(EmulatorFlags(s)) == ra + (rb + (rc + (rd + (re + rf))));
    RegroupArgs(ra, rb, rc + (rd + (re + rf)));
    RegroupArgs(ra + rb, rc, rd + (re + rf));
    RegroupArgs(ra + rb + rc, rd, re + rf);
    RegroupArgs(ra + rb + rc + rd, re, rf);
  }

  /** The rendered emulator flags are the builders' pushes, slot by slot. */
  lemma RenderEmulatorFlags(s: EmulatorSettings)
    ensures Render(EmulatorFlags(s)) ==
      SlotArgs(s, 0) + SlotArgs(s, 1) + SlotArgs(s, 2) + SlotArgs(s, 3) + SlotArgs(s, 4) + SlotArgs(s, 5)
  {
    RenderSlots(s);
    RenderSlot(s, 0);
    RenderSlot(s, 1);
    RenderSlot(s, 2);
    RenderSlot(s, 3);
    RenderSlot(s, 4);
    RenderSlot(s, 5);
  }

  /** The JVM heap flags: `-Xms<initial>` then `-Xmx<max>`, each only when given. */
  function HeapArgs(initial: Option<string>, max: Option<string>): seq<string> {
    (if TruthyStr(initial) then ["-Xms" + initial.value] else []) +
    (if TruthyStr(max) then ["-Xmx" + max.value] else [])
  }

  /** The JVM flag that points at the native libraries shipped in the install directory. */
  function LibraryPathArg(installDir: string): string {
    "-Djava.library.path=" + installDir + "/DynamoDBLocal_lib"
  }

  /** `docker run -d -p <port>:<port> <image>`, without the executable. */
  function DockerRunArgs(port: string, image: string): seq<string> {
    ["run", "-d", "-p", port + ":" + port, image]
  }

  /** `-jar <jar> -port <port>`, present in every launch. */
  function JarAndPort(jar: string, port: nat): seq<Flag> {
    [Valued(Jar, jar), Valued(Port, NatToString(port))]
  }
}

/**
 * Process discovery: the start-up argument check, the descriptor file names,
 * the parent-pid lookup (parsing `/proc/<pid>/stat` on Linux), the "is this
 * Neovim" test, the liveness test, and the creation and removal of the
 * descriptor files in the shared directory.
 *
 * What the operating system reports is an input: `Host` gives the text a
 * process probe returns, and the file-system calls' errors are parameters.
 */
module Discovery {
  import opened Wrappers
  import opened Types
  import Text
  import Decimal

  // ---------------------------------------------------------------------
  // Start-up

  const Usage: string := "Usage: gemini-mcp-server -nvim=<addr> -workspace=<path> -pid=<pid>"

  /** The start-up check: the server stops with the usage line unless it has an address, a workspace and a non-zero pid. */
  function StartupError(nvimAddr: string, workspacePath: string, pid: int): (r: Option<string>)
    ensures r.Some? <==> nvimAddr == "" || workspacePath == "" || pid == 0
    ensures r.Some? ==> r.value == Usage
  {
    if nvimAddr == "" || workspacePath == "" || pid == 0 then Some(Usage) else None
  }

  // ---------------------------------------------------------------------
  // Descriptor files

  /** The file name of the descriptor for a process and port. */
  function DescriptorName(pid: int, port: int): (name: string)
    ensures |name| > 23 && name[..18] == "gemini-ide-server-" && name[|name| - 5..] == ".json"
    ensures name[18..|name| - 5] == Decimal.FormatInt(pid) + "-" + Decimal.FormatInt(port)
  {
    "gemini-ide-server-" + Decimal.FormatInt(pid) + "-" + Decimal.FormatInt(port) + ".json"
  }

  /** In `a-b`, where `a` is a `%d` rendering, the first dash after position 0 is the one that joins them. */
  lemma DashPosition(a: string, b: string)
    requires |a| >= 1 && Decimal.AllDigits(a[1..])
    ensures (a + "-" + b)[|a|] == '-'
    ensures forall j :: 1 <= j < |a| ==> (a + "-" + b)[j] != '-'
  {
    forall j | 1 <= j < |a|
      ensures (a + "-" + b)[j] != '-'
    {
      assert (a + "-" + b)[j] == a[1..][j - 1];
    }
  }

  /** Two `%d` renderings joined by a dash split back into the same two renderings. */
  lemma DashJoinInjective(a: string, b: string, a': string, b': string)
    requires |a| >= 1 && Decimal.AllDigits(a[1..]) && |a'| >= 1 && Decimal.AllDigits(a'[1..])
    requires a + "-" + b == a' + "-" + b'
    ensures a == a' && b == b'
  {
    var s := a + "-" + b;
    DashPosition(a, b);
    DashPosition(a', b');
    assert |a| == |a'|;
    assert a == s[..|a|] == a';
    assert b == s[|a| + 1..] == b';
  }

  /** Distinct (pid, port) pairs have distinct descriptor names, negative numbers included. */
  lemma DescriptorNameInjective(pid: int, port: int, pid': int, port': int)
    requires DescriptorName(pid, port) == DescriptorName(pid', port')
    ensures pid == pid' && port == port'
  {
    var n := DescriptorName(pid, port);
    assert n[18..|n| - 5] == Decimal.FormatInt(pid) + "-" + Decimal.FormatInt(port);
    assert n[18..|n| - 5] == Decimal.FormatInt(pid') + "-" + Decimal.FormatInt(port');
    DashJoinInjective(Decimal.FormatInt(pid), Decimal.FormatInt(port), Decimal.FormatInt(pid'), Decimal.FormatInt(port'));
    Decimal.FormatIntInjective(pid, pid');
    Decimal.FormatIntInjective(port, port');
  }

  /** Stated the other way round: different processes or ports never share a descriptor file. */
  lemma DescriptorNamesDiffer(pid: int, port: int, pid': int, port': int)
    ensures pid != pid' || port != port' ==> DescriptorName(pid, port) != DescriptorName(pid', port')
  {
    if DescriptorName(pid, port) == DescriptorName(pid', port') {
      DescriptorNameInjective(pid, port, pid', port');
    }
  }

  /** The content written to every descriptor of one server. */
  function Descriptor(port: int, workspacePath: string, authToken: string): DiscoveryFile {
    DiscoveryFile(port, workspacePath, authToken, IdeInfo("vscodefork", "IDE"))
  }

  // ---------------------------------------------------------------------
  // Probing processes

  datatype Platform = Linux | Darwin | OtherPlatform

  /**
   * What probing a process returns, `None` when the read or the command
   * fails. On Linux `statProbe(p)` is the text of `/proc/<p>/stat` and
   * `commandProbe(p)` that of `/proc/<p>/cmdline`; on macOS they are the
   * outputs of `ps -o ppid= -p <p>` and `ps -o comm= -p <p>`.
   */
  datatype Host = Host(platform: Platform, statProbe: int -> Option<string>, commandProbe: int -> Option<string>)

  /** The last position of `c` in `s`, or -1. */
  function LastIndexOf(s: string, c: char): (r: int)
    ensures -1 <= r < |s|
    ensures r >= 0 ==> s[r] == c
    ensures forall j :: r < j < |s| ==> s[j] != c
  {
    if s == [] then -1
    else if s[|s| - 1] == c then |s| - 1
    else LastIndexOf(s[..|s| - 1], c)
  }

  /**
   * The parent pid in a `/proc/<pid>/stat` text: the second field after the
   * last `)`, read with `%d`; 0 when there is no `)`, fewer than two fields
   * follow it, or the field does not scan.
   */
  function StatParentPid(stat: string): (ppid: int)
    ensures ppid != 0 ==> LastIndexOf(stat, ')') >= 0
    ensures Decimal.MinInt64 <= ppid <= Decimal.MaxInt64
  {
    var p := LastIndexOf(stat, ')');
    if p == -1 then 0
    else
      var fields := Text.Fields(stat[p + 1..]);
      if |fields| < 2 then 0
      else
        match Decimal.ScanInt(fields[1])
        case None => 0
        case Some(v) => v
  }

  /** The stat parser as the program runs it: a backward scan for the last `)`, then the fields after it. */
  method ParseStatParentPid(statStr: string) returns (ppid: int)
    ensures ppid == StatParentPid(statStr)
  {
    var lastParen := -1;
    var i := |statStr| - 1;
    while i >= 0
      invariant -1 <= i < |statStr|
      invariant lastParen == -1
      invariant forall j :: i < j < |statStr| ==> statStr[j] != ')'
    {
      if statStr[i] == ')' {
        lastParen := i;
        break;
      }
      i := i - 1;
    }
    ghost var p := LastIndexOf(statStr, ')');
    assert lastParen >= 0 ==> p >= lastParen;
    assert p >= 0 ==> lastParen >= p;
    if lastParen == -1 {
      return 0;
    }
    var fields := Text.Fields(statStr[lastParen + 1..]);
    if |fields| < 2 {
      return 0;
    }
    ppid := 0;
    match Decimal.ScanInt(fields[1])
    case None =>
    case Some(v) =>
      ppid := v;
  }

  /** A text without `)` gives parent pid 0. */
  lemma StatWithoutParen(stat: string)
    requires forall j :: 0 <= j < |stat| ==> stat[j] != ')'
    ensures StatParentPid(stat) == 0
  {
  }

  /** No closing parenthesis in `s`. */
  predicate NoParen(s: string) {
    forall j :: 0 <= j < |s| ==> s[j] != ')'
  }

  lemma NoParenAppend(a: string, b: string)
    requires NoParen(a) && NoParen(b)
    ensures NoParen(a + b)
  {
    forall j | 0 <= j < |a + b|
      ensures (a + b)[j] != ')'
    {
      if j >= |a| {
        assert (a + b)[j] == b[j - |a|];
      }
    }
  }

  /** A `%d` rendering is one field without parentheses. */
  lemma FormatIntIsWord(n: int)
    ensures Text.NoSpace(Decimal.FormatInt(n)) && NoParen(Decimal.FormatInt(n))
  {
    var d := Decimal.FormatInt(n);
    forall j | 0 <= j < |d|
      ensures !Text.IsSpace(d[j]) && d[j] != ')'
    {
      if j > 0 {
        assert d[j] == d[1..][j - 1];
      }
    }
  }

  /** A `c` with no `c` after it is the last one. */
  lemma LastIndexOfIs(s: string, c: char, k: int)
    requires 0 <= k < |s| && s[k] == c
    requires forall j :: k < j < |s| ==> s[j] != c
    ensures LastIndexOf(s, c) == k
  {
    var r := LastIndexOf(s, c);
    assert r >= k;
    assert r <= k;
  }

  /** In `head) tail` with no `)` in `tail`, the `)` after `head` is followed by none. */
  lemma ParenThenTail(head: string, tail: string)
    requires NoParen(tail)
    ensures (head + ")" + tail)[|head|] == ')'
    ensures forall j :: |head| < j < |head + ")" + tail| ==> (head + ")" + tail)[j] != ')'
    ensures (head + ")" + tail)[|head| + 1..] == tail
  {
    var stat := head + ")" + tail;
    forall j | |head| < j < |stat|
      ensures stat[j] != ')'
    {
      assert stat[j] == tail[j - |head| - 1];
    }
    assert stat[|head| + 1..] == tail;
  }

  /** The last `)` of `head) tail` is the one after `head` when `tail` has none. */
  lemma LastParenBeforeTail(head: string, tail: string)
    requires NoParen(tail)
    ensures LastIndexOf(head + ")" + tail, ')') == |head|
  {
    ParenThenTail(head, tail);
    LastIndexOfIs(head + ")" + tail, ')', |head|);
  }

  /** The fields of ` <w><rest>` are `w` and those of `rest`. */
  lemma SpaceWordFields(w: string, rest: string)
    requires w != [] && Text.NoSpace(w)
    requires rest == [] || Text.IsSpace(rest[0])
    ensures Text.Fields(" " + (w + rest)) == [w] + Text.Fields(rest)
  {
    Text.FieldsSkipSpace(" ", w + rest);
    Text.FieldsWordThenRest(w, rest);
  }

  /** A word in front of a text whose fields are `[d] + x` makes the fields `[w, d] + x`. */
  lemma SpaceWordBeforeFields(w: string, r: string, d: string, x: seq<string>)
    requires w != [] && Text.NoSpace(w)
    requires r != [] && r[0] == ' '
    requires Text.Fields(r) == [d] + x
    ensures Text.Fields(" " + (w + r)) == [w, d] + x
  {
    SpaceWordFields(w, r);
    assert [w] + ([d] + x) == [w, d] + x;
  }

  /** The fields of ` <state> <d><rest>` are `state`, `d`, and those of `rest`. */
  lemma StatTailFields(state: string, d: string, rest: string)
    requires state != [] && Text.NoSpace(state)
    requires d != [] && Text.NoSpace(d)
    requires rest == [] || Text.IsSpace(rest[0])
    ensures Text.Fields(" " + (state + (" " + (d + rest)))) == [state, d] + Text.Fields(rest)
  {
    SpaceWordFields(d, rest);
    SpaceWordBeforeFields(state, " " + (d + rest), d, Text.Fields(rest));
  }

  /** The stat line regrouped as `head`, `)`, and the tail after it. */
  lemma Regroup(head: string, state: string, d: string, rest: string)
    ensures head + ") " + state + " " + d + rest == head + ")" + (" " + (state + (" " + (d + rest))))
  {
  }

  /** The tail after the last `)` holds no `)` when its pieces hold none. */
  lemma TailNoParen(state: string, d: string, rest: string)
    requires NoParen(state) && NoParen(d) && NoParen(rest)
    ensures NoParen(" " + (state + (" " + (d + rest))))
  {
    NoParenAppend(d, rest);
    NoParenAppend(" ", d + rest);
    NoParenAppend(state, " " + (d + rest));
    NoParenAppend(" ", state + (" " + (d + rest)));
  }

  /** When the text after the last `)` has `d` as its second field, the parent pid is what `d` scans to. */
  lemma StatSecondField(head: string, tail: string, state: string, d: string, x: seq<string>, ppid: int)
    requires NoParen(tail)
    requires Text.Fields(tail) == [state, d] + x
    requires Decimal.ScanInt(d) == Some(ppid)
    ensures StatParentPid(head + ")" + tail) == ppid
  {
    ParenThenTail(head, tail);
    LastParenBeforeTail(head, tail);
  }

  /**
   * A well-formed stat line `<head>) <state> <ppid><rest>` gives `ppid`,
   * whatever `head` holds: the command name in it may contain `)` and spaces,
   * because only the text after the last `)` is split into fields.
   */
  lemma StatParentPidWellFormed(head: string, state: string, ppid: int, rest: string)
    requires state != [] && Text.NoSpace(state) && NoParen(state)
    requires rest == [] || Text.IsSpace(rest[0])
    requires NoParen(rest)
    requires Decimal.MinInt64 <= ppid <= Decimal.MaxInt64
    ensures StatParentPid(head + ") " + state + " " + Decimal.FormatInt(ppid) + rest) == ppid
  {
    var d := Decimal.FormatInt(ppid);
    FormatIntIsWord(ppid);
    TailNoParen(state, d, rest);
    StatTailFields(state, d, rest);
    Decimal.ScanFormatRoundTrip(ppid);
    StatSecondField(head, " " + (state + (" " + (d + rest))), state, d, Text.Fields(rest), ppid);
    Regroup(head, state, d, rest);
  }

  /**
   * `getParentPid`: on Linux the stat parse, on macOS the `%d` scan of the
   * trimmed `ps` output; 0 when the probe or the scan fails, and always 0 on
   * any other platform.
   */
  function GetParentPid(host: Host, pid: int): (ppid: int)
    ensures host.statProbe(pid).None? || host.platform == OtherPlatform ==> ppid == 0
    ensures host.platform == Linux && host.statProbe(pid).Some? ==> ppid == StatParentPid(host.statProbe(pid).value)
    ensures host.platform == Darwin && host.statProbe(pid).Some? ==>
              ppid == match Decimal.ScanInt(Text.TrimSpace(host.statProbe(pid).value))
                      case None => 0
                      case Some(v) => v
  {
    match host.platform
    case Linux =>
      (match host.statProbe(pid)
       case None => 0
       case Some(stat) => StatParentPid(stat))
    case Darwin =>
      (match host.statProbe(pid)
       case None => 0
       case Some(output) =>
         match Decimal.ScanInt(Text.TrimSpace(output))
         case None => 0
         case Some(v) => v)
    case OtherPlatform => 0
  }

  /**
   * `ps -o ppid=` pads the number with white space; the padding does not
   * change the parent pid read from it.
   */
  lemma DarwinParentPid(host: Host, pid: int, left: string, ppid: int, right: string)
    requires host.platform == Darwin
    requires forall i :: 0 <= i < |left| ==> Text.IsSpace(left[i])
    requires forall i :: 0 <= i < |right| ==> Text.IsSpace(right[i])
    requires Decimal.MinInt64 <= ppid <= Decimal.MaxInt64
    requires host.statProbe(pid) == Some(left + Decimal.FormatInt(ppid) + right)
    ensures GetParentPid(host, pid) == ppid
  {
    FormatIntIsWord(ppid);
    Text.TrimPadded(left, Decimal.FormatInt(ppid), right);
    Decimal.ScanFormatRoundTrip(ppid);
  }

  /**
   * `isNvimProcess`: on Linux and macOS a process looks like Neovim exactly
   * when its command probe succeeds and the text contains "nvim" (trimming
   * the `ps` output on macOS does not matter); elsewhere it never does.
   */
  function IsNvimProcess(host: Host, pid: int): (r: bool)
    ensures r <==> host.platform != OtherPlatform && host.commandProbe(pid).Some? &&
                   Text.Contains(host.commandProbe(pid).value, "nvim")
  {
    match host.platform
    case Linux => host.commandProbe(pid).Some? && Text.Contains(host.commandProbe(pid).value, "nvim")
    case Darwin =>
      host.commandProbe(pid).Some? &&
      (Text.ContainsTrimSpace(host.commandProbe(pid).value, "nvim");
       Text.Contains(Text.TrimSpace(host.commandProbe(pid).value), "nvim"))
    case OtherPlatform => false
  }

  /** The parent rule: a descriptor for the parent exists when its pid is positive, differs from the owner's and it looks like Neovim. */
  function ParentDescriptorName(host: Host, pid: int, port: int): (r: Option<string>)
    ensures r.Some? <==>
              var parentPid := GetParentPid(host, pid);
              parentPid > 0 && parentPid != pid && IsNvimProcess(host, parentPid)
    ensures r.Some? ==> r.value == DescriptorName(GetParentPid(host, pid), port) && r.value != DescriptorName(pid, port)
  {
    var parentPid := GetParentPid(host, pid);
    if parentPid > 0 && parentPid != pid && IsNvimProcess(host, parentPid) then
      DescriptorNamesDiffer(parentPid, port, pid, port);
      Some(DescriptorName(parentPid, port))
    else None
  }

  // ---------------------------------------------------------------------
  // Liveness

  /** The errno `kill(pid, 0)` can fail with. */
  datatype Errno = ESRCH | EPERM | OtherErrno

  /**
   * The `error` value `isProcessAlive` inspects: nil, `os.ErrProcessDone`,
   * a `*os.SyscallError` wrapping an errno, another error, or a bare
   * `syscall.Errno`.
   */
  datatype SignalError = NoError | ProcessDone | SyscallError(errno: Errno) | OtherError | BareErrno(errno: Errno)

  /**
   * `os.Process.Signal` on Unix, given what `kill` reports: success gives
   * nil, ESRCH becomes `os.ErrProcessDone`, and any other errno is wrapped
   * in a `*os.SyscallError`; a bare errno is never returned.
   */
  function Signal(kill: Option<Errno>): (err: SignalError)
    ensures !err.BareErrno?
    ensures err == NoError <==> kill.None?
    ensures err == ProcessDone <==> kill == Some(ESRCH)
  {
    match kill
    case None => NoError
    case Some(ESRCH) => ProcessDone
    case Some(errno) => SyscallError(errno)
  }

  /**
   * `isProcessAlive` as written: dead only when the process is not found or
   * the error equals the bare errno ESRCH; every other error, a permission
   * error included, counts as alive.
   */
  function IsProcessAliveAsWritten(found: bool, err: SignalError): (alive: bool)
    ensures alive <==> found && err != BareErrno(ESRCH)
  {
    if !found then false
    else if err == NoError then true
    else if err == BareErrno(ESRCH) then false
    else true
  }

  /**
   * As written, a process that is found is reported alive whatever `kill`
   * says: a process that has exited makes `Signal` return
   * `os.ErrProcessDone`, which the ESRCH comparison does not match.
   */
  lemma AsWrittenNeverDetectsExit(kill: Option<Errno>)
    ensures IsProcessAliveAsWritten(true, Signal(kill))
    ensures IsProcessAliveAsWritten(true, Signal(Some(ESRCH)))
  {
  }

  /**
   * `isProcessAlive` as intended: dead when the process is not found, when
   * the error is `os.ErrProcessDone`, or when it is ESRCH, bare or wrapped;
   * any other error, a permission error included, means it is alive.
   */
  function IsProcessAlive(found: bool, err: SignalError): (alive: bool)
    ensures alive <==> found && err != ProcessDone && err != SyscallError(ESRCH) && err != BareErrno(ESRCH)
  {
    if !found then false
    else match err
      case NoError => true
      case ProcessDone => false
      case SyscallError(errno) => errno != ESRCH
      case OtherError => true
      case BareErrno(errno) => errno != ESRCH
  }

  /** With the intended test, a found process is alive exactly when `kill` does not report ESRCH. */
  lemma AliveIffKillFinds(found: bool, kill: Option<Errno>)
    ensures IsProcessAlive(found, Signal(kill)) <==> found && kill != Some(ESRCH)
  {
  }

  // ---------------------------------------------------------------------
  // Creating and removing descriptors

  /** The directory's files after a successful creation: the owner's descriptor, and the parent's when the rule holds and its write succeeds. */
  function AfterCreate(files: map<string, DiscoveryFile>, host: Host, pid: int, port: int, data: DiscoveryFile,
                       writeError: string -> Option<string>): map<string, DiscoveryFile>
  {
    var withMain := files[DescriptorName(pid, port) := data];
    match ParentDescriptorName(host, pid, port)
    case Some(parent) => if writeError(parent).None? then withMain[parent := data] else withMain
    case None => withMain
  }

  /** The directory's files after removal: the owner's and, under the same rule and name, the parent's descriptor are gone. */
  function AfterRemove(files: map<string, DiscoveryFile>, host: Host, pid: int, port: int): map<string, DiscoveryFile> {
    match ParentDescriptorName(host, pid, port)
    case Some(parent) => files - {DescriptorName(pid, port), parent}
    case None => files - {DescriptorName(pid, port)}
  }

  /**
   * Creation then removal with the same host answers restores a directory
   * that held neither descriptor: removal undoes exactly what creation did.
   */
  lemma CreateThenRemove(files: map<string, DiscoveryFile>, host: Host, pid: int, port: int, data: DiscoveryFile,
                         writeError: string -> Option<string>)
    requires DescriptorName(pid, port) !in files
    requires ParentDescriptorName(host, pid, port).Some? ==> ParentDescriptorName(host, pid, port).value !in files
    ensures AfterRemove(AfterCreate(files, host, pid, port, data, writeError), host, pid, port) == files
  {
  }

  /**
   * Removal asks the host again at shutdown. When the process can no longer
   * be probed, its parent pid reads as 0 and the parent's descriptor that
   * creation wrote is left behind.
   */
  lemma RemoveLeaksParentWhenUnprobed(files: map<string, DiscoveryFile>, h1: Host, h2: Host, pid: int, port: int,
                                      data: DiscoveryFile, writeError: string -> Option<string>)
    requires ParentDescriptorName(h1, pid, port).Some?
    requires writeError(ParentDescriptorName(h1, pid, port).value).None?
    requires h2.statProbe(pid).None?
    ensures ParentDescriptorName(h1, pid, port).value in AfterRemove(AfterCreate(files, h1, pid, port, data, writeError), h2, pid, port)
  {
    assert ParentDescriptorName(h2, pid, port).None?;
  }

  /** The names creation writes: the owner's descriptor and, when its write succeeds, the parent's. */
  function WrittenNames(host: Host, pid: int, port: int, writeError: string -> Option<string>): (names: set<string>)
    ensures DescriptorName(pid, port) in names
    ensures forall name :: name in names ==> name == DescriptorName(pid, port) || ParentDescriptorName(host, pid, port) == Some(name)
  {
    match ParentDescriptorName(host, pid, port)
    case Some(parent) => if writeError(parent).None? then {DescriptorName(pid, port), parent} else {DescriptorName(pid, port)}
    case None => {DescriptorName(pid, port)}
  }

  /** Removal as intended: the names creation wrote go, whatever the host answers at shutdown. */
  function AfterRemoveWritten(files: map<string, DiscoveryFile>, written: set<string>): (after: map<string, DiscoveryFile>)
    ensures after.Keys == files.Keys - written
    ensures forall name :: name in after ==> after[name] == files[name]
  {
    files - written
  }

  /**
   * Creation adds exactly the written names, and removing the recorded names
   * restores a directory that held none of them, with no assumption about
   * the host at shutdown.
   */
  lemma CreateThenRemoveWritten(files: map<string, DiscoveryFile>, host: Host, pid: int, port: int, data: DiscoveryFile,
                                writeError: string -> Option<string>)
    requires forall name :: name in WrittenNames(host, pid, port, writeError) ==> name !in files
    ensures AfterCreate(files, host, pid, port, data, writeError).Keys == files.Keys + WrittenNames(host, pid, port, writeError)
    ensures AfterRemoveWritten(AfterCreate(files, host, pid, port, data, writeError), WrittenNames(host, pid, port, writeError)) == files
  {
    var written := WrittenNames(host, pid, port, writeError);
    var after := AfterRemoveWritten(AfterCreate(files, host, pid, port, data, writeError), written);
    assert after.Keys == files.Keys;
  }

  /** Creation writes the owner's descriptor and at most one more, the parent's, both with the same content. */
  lemma CreateWritesAtMostTwo(files: map<string, DiscoveryFile>, host: Host, pid: int, port: int, data: DiscoveryFile,
                              writeError: string -> Option<string>)
    ensures var after := AfterCreate(files, host, pid, port, data, writeError);
            var main := DescriptorName(pid, port);
            main in after && after[main] == data &&
            (forall name :: name in after && name != main && (name !in files || after[name] != files[name]) ==>
               ParentDescriptorName(host, pid, port) == Some(name) && after[name] == data) &&
            (ParentDescriptorName(host, pid, port).Some? && writeError(ParentDescriptorName(host, pid, port).value).None? ==>
               ParentDescriptorName(host, pid, port).value in after)
  {
  }

  /** The shared directory of descriptor files, by file name. */
  class DescriptorDirectory {
    var files: map<string, DiscoveryFile>

    constructor (files: map<string, DiscoveryFile>)
      ensures this.files == files
    {
      this.files := files;
    }

    /**
     * `createDiscoveryFile`: failing to create the directory or to write the
     * owner's descriptor is an error and writes nothing; failing to write the
     * parent's descriptor is only logged, and the call still succeeds.
     */
    method CreateDiscoveryFile(host: Host, pid: int, port: int, workspacePath: string, authToken: string,
                               mkdirError: Option<string>, writeError: string -> Option<string>)
      returns (err: Outcome)
      modifies this
      ensures mkdirError.Some? ==> err == Fail("failed to create directory: " + mkdirError.value) && files == old(files)
      ensures mkdirError.None? && writeError(DescriptorName(pid, port)).Some? ==>
                err == Fail("failed to write discovery file: " + writeError(DescriptorName(pid, port)).value) &&
                files == old(files)
      ensures mkdirError.None? && writeError(DescriptorName(pid, port)).None? ==>
                err == Pass && files == AfterCreate(old(files), host, pid, port, Descriptor(port, workspacePath, authToken), writeError)
    {
      if mkdirError.Some? {
        return Fail("failed to create directory: " + mkdirError.value);
      }
      var data := Descriptor(port, workspacePath, authToken);
      var mainName := DescriptorName(pid, port);
      if writeError(mainName).Some? {
        return Fail("failed to write discovery file: " + writeError(mainName).value);
      }
      files := files[mainName := data];
      var parentPid := GetParentPid(host, pid);
      if parentPid > 0 {
        if parentPid != pid {
          var isNvim := IsNvimProcess(host, parentPid);
          if isNvim {
            var parentName := DescriptorName(parentPid, port);
            if writeError(parentName).None? {
              files := files[parentName := data];
            }
          }
        }
      }
      return Pass;
    }

    /** `removeDiscoveryFile`: removes the owner's and, under the same rule, the parent's descriptor; a missing file is only logged. */
    method RemoveDiscoveryFile(host: Host, pid: int, port: int)
      modifies this
      ensures files == AfterRemove(old(files), host, pid, port)
    {
      var mainName := DescriptorName(pid, port);
      files := files - {mainName};
      var parentPid := GetParentPid(host, pid);
      if parentPid > 0 && parentPid != pid && IsNvimProcess(host, parentPid) {
        var parentName := DescriptorName(parentPid, port);
        files := files - {parentName};
      }
    }
  }
}

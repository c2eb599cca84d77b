/** Child-launch policy of the SSH server (lib/srv/reexec_linux.go).

    The server re-executes itself for session handling and also starts user
    commands. Before a child is started, its command descriptor gets a
    parent-death signal, and a re-executed child is pointed at
    /proc/self/exe unless the process runs under qemu-user, where that link
    is unreliable. Whether it runs under qemu-user is probed once, at
    package initialisation, from the size that fstat reports for
    /proc/self/stat. */
module Reexec {
  import opened Wrappers

  /** The two steps of the probe, as outcomes: the real open/fstat calls are
      inputs to the model. */
  datatype StatOutcome = StatFailed | StatOk(size: int)
  datatype OpenOutcome = OpenFailed | Opened(stat: StatOutcome)

  /** Go's `syscall.Signal`, a Linux signal number; 0 means "no signal". */
  type Signal = int
  const NoSignal: Signal := 0
  const SIGQUIT: Signal := 3
  const SIGKILL: Signal := 9

  const ProcSelfExe: string := "/proc/self/exe"

  /** runningInQemuUser: under qemu-user /proc/self/stat is a regular file
      written before the open returns, so it has a non-zero size; the procfs
      file reports size zero. Every failure counts as "not emulated". */
  function RunningInQemuUser(probe: OpenOutcome): (emulated: bool)
    ensures probe.OpenFailed? ==> !emulated
    ensures probe == Opened(StatFailed) ==> !emulated
    ensures probe.Opened? && probe.stat.StatOk? ==> (emulated <==> probe.stat.size != 0)
    ensures emulated ==> exists n :: n != 0 && probe == Opened(StatOk(n))
  {
    match probe
    case OpenFailed => false
    case Opened(StatFailed) => false
    case Opened(StatOk(size)) => size != 0
  }

  /** The package-level state of `srv` that this file owns: the write-once
      flag `procfsReexecOk`. `initialized` records that Go's `init` has run. */
  class SrvPackage {
    var procfsReexecOk: bool
    ghost var initialized: bool

    /** The variable's initialiser: `procfsReexecOk = false`. */
    constructor ()
      ensures !procfsReexecOk && !initialized
    {
      procfsReexecOk := false;
      initialized := false;
    }

    /** `init`: the only writer of the flag; the Go runtime runs it once. */
    method Init(probe: OpenOutcome)
      requires !initialized
      modifies this
      ensures initialized
      ensures procfsReexecOk <==> !RunningInQemuUser(probe)
    {
      procfsReexecOk := !RunningInQemuUser(probe);
      initialized := true;
    }
  }

  /** The value of a `syscall.SysProcAttr`: the parent-death signal and a few
      of the other fields, standing for all the fields the tweaks leave
      alone. */
  datatype Attr = Attr(pdeathsig: Signal, setsid: bool, setpgid: bool, chroot: string)

  /** `new(syscall.SysProcAttr)`: every field at its zero value. */
  const ZeroAttr := Attr(NoSignal, false, false, "")

  /** The value of the modelled part of an `exec.Cmd`. */
  datatype Command = Command(path: string, args: seq<string>, attr: Option<Attr>)

  /** The descriptor after `reexecCommandOSTweaks`, given `procfsReexecOk`. */
  function ReexecTweaked(c: Command, procfsReexecOk: bool): (r: Command)
    ensures r.attr.Some? && r.attr.value.pdeathsig == SIGQUIT
    ensures c.attr.Some? ==> r.attr.value == c.attr.value.(pdeathsig := SIGQUIT)
    ensures c.attr.None? ==> r.attr.value == ZeroAttr.(pdeathsig := SIGQUIT)
    ensures procfsReexecOk ==> r.path == ProcSelfExe
    ensures !procfsReexecOk ==> r.path == c.path
    ensures r.args == c.args
  {
    var attr := match c.attr case Some(a) => a case None => ZeroAttr;
    Command(if procfsReexecOk then ProcSelfExe else c.path, c.args, Some(attr.(pdeathsig := SIGQUIT)))
  }

  /** The descriptor after `userCommandOSTweaks`. */
  function UserTweaked(c: Command): (r: Command)
    ensures r.attr.Some? && r.attr.value.pdeathsig == SIGKILL
    ensures c.attr.Some? ==> r.attr.value == c.attr.value.(pdeathsig := SIGKILL)
    ensures c.attr.None? ==> r.attr.value == ZeroAttr.(pdeathsig := SIGKILL)
    ensures r.path == c.path && r.args == c.args
  {
    var attr := match c.attr case Some(a) => a case None => ZeroAttr;
    c.(attr := Some(attr.(pdeathsig := SIGKILL)))
  }

  /** Applying `reexecCommandOSTweaks` twice is the same as once. */
  lemma ReexecTweakedIdempotent(c: Command, procfsReexecOk: bool)
    ensures ReexecTweaked(ReexecTweaked(c, procfsReexecOk), procfsReexecOk) == ReexecTweaked(c, procfsReexecOk)
  {
  }

  /** Applying `userCommandOSTweaks` twice is the same as once. */
  lemma UserTweakedIdempotent(c: Command)
    ensures UserTweaked(UserTweaked(c)) == UserTweaked(c)
  {
  }

  /** From probe to descriptor: a re-executed child goes through
      /proc/self/exe exactly when the probe did not report qemu-user, and is
      otherwise started from the path the caller resolved. */
  lemma ReexecPathDecision(probe: OpenOutcome, c: Command)
    ensures ReexecTweaked(c, !RunningInQemuUser(probe)).path
         == if probe.Opened? && probe.stat.StatOk? && probe.stat.size != 0 then c.path else ProcSelfExe
  {
  }

  class SysProcAttr {
    var pdeathsig: Signal
    var setsid: bool
    var setpgid: bool
    var chroot: string

    function Value(): Attr
      reads this
    {
      Attr(pdeathsig, setsid, setpgid, chroot)
    }

    /** `new(syscall.SysProcAttr)`. */
    constructor ()
      ensures Value() == ZeroAttr
    {
      pdeathsig, setsid, setpgid, chroot := NoSignal, false, false, "";
    }
  }

  /** The modelled part of a not-yet-started `exec.Cmd`. */
  class Cmd {
    var path: string
    var args: seq<string>
    var sysProcAttr: SysProcAttr?

    function Value(): Command
      reads this, sysProcAttr
    {
      Command(path, args, if sysProcAttr == null then None else Some(sysProcAttr.Value()))
    }
  }

  /** `reexecCommandOSTweaks`: an existing attribute block is kept (the same
      object) and only its parent-death signal is written; a missing one is
      created. */
  method ReexecCommandOSTweaks(pkg: SrvPackage, cmd: Cmd)
    modifies cmd, cmd.sysProcAttr
    ensures cmd.sysProcAttr != null && cmd.sysProcAttr.pdeathsig == SIGQUIT
    ensures old(cmd.sysProcAttr) != null ==> cmd.sysProcAttr == old(cmd.sysProcAttr)
    ensures old(cmd.sysProcAttr) == null ==> fresh(cmd.sysProcAttr)
    ensures cmd.path == if pkg.procfsReexecOk then ProcSelfExe else old(cmd.path)
    ensures cmd.args == old(cmd.args)
    ensures cmd.Value() == ReexecTweaked(old(cmd.Value()), pkg.procfsReexecOk)
  {
    if cmd.sysProcAttr == null {
      cmd.sysProcAttr := new SysProcAttr();
    }
    cmd.sysProcAttr.pdeathsig := SIGQUIT;
    if pkg.procfsReexecOk {
      cmd.path := ProcSelfExe;
    }
  }

  /** `userCommandOSTweaks`: as above with SIGKILL, and the path is never
      touched. */
  method UserCommandOSTweaks(cmd: Cmd)
    modifies cmd, cmd.sysProcAttr
    ensures cmd.sysProcAttr != null && cmd.sysProcAttr.pdeathsig == SIGKILL
    ensures old(cmd.sysProcAttr) != null ==> cmd.sysProcAttr == old(cmd.sysProcAttr)
    ensures old(cmd.sysProcAttr) == null ==> fresh(cmd.sysProcAttr)
    ensures cmd.path == old(cmd.path) && cmd.args == old(cmd.args)
    ensures cmd.Value() == UserTweaked(old(cmd.Value()))
  {
    if cmd.sysProcAttr == null {
      cmd.sysProcAttr := new SysProcAttr();
    }
    cmd.sysProcAttr.pdeathsig := SIGKILL;
  }
}

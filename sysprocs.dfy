/**
 * The process initialisation table (g_proc_table) as the kernel fills it
 * before process_init builds the PCBs: every row unused, then the system
 * processes of src/k_sys_proc.c and the interrupt processes of
 * src/k_i_proc.c. Entry points are code addresses the model does not see;
 * they are parameters.
 */
module SysProcs {
  import opened Rtx

  /** The entry points of the kernel's own processes. */
  datatype Entries = Entries(nullProcess: int, setPriority: int, kcd: int, crt: int,
                             timerIProc: int, uartIProc: int)

  /** A table of NUM_PROCS rows in which each used row sits at the index of its own pid. */
  predicate IndexedTable(t: seq<ProcInit>) {
    |t| == NUM_PROCS && forall i :: 0 <= i < |t| ==> t[i].pid == -1 || t[i].pid == i
  }

  /** The table after the first loop of process_init: every row marked unused. */
  function ClearedTable(): (t: seq<ProcInit>)
    ensures |t| == NUM_PROCS && forall i :: 0 <= i < NUM_PROCS ==> t[i].pid == -1
  {
    seq(NUM_PROCS, _ => UNUSED_ROW)
  }

  /** A row of set_sys_procs or set_i_procs, with its 0x100-byte stack. */
  function Row(pid: int, priority: int, entry: int): ProcInit {
    ProcInit(pid, priority, SYS_SZ_STACK, entry)
  }

  /**
   * set_sys_procs: the null process at HIDDEN, the set-priority, keyboard
   * command decoder and CRT display processes at HIGH, each with a 0x100
   * byte stack; every other row is left as it was.
   */
  function SetSysProcs(t: seq<ProcInit>, e: Entries): (r: seq<ProcInit>)
    requires |t| == NUM_PROCS
    ensures |r| == NUM_PROCS
    ensures r[PID_NULL] == ProcInit(PID_NULL, HIDDEN, 0x100, e.nullProcess)
    ensures r[PID_SET_PRIO] == ProcInit(PID_SET_PRIO, HIGH, 0x100, e.setPriority)
    ensures r[PID_KCD] == ProcInit(PID_KCD, HIGH, 0x100, e.kcd)
    ensures r[PID_CRT] == ProcInit(PID_CRT, HIGH, 0x100, e.crt)
    ensures forall i :: 0 <= i < NUM_PROCS && i !in {PID_NULL, PID_SET_PRIO, PID_KCD, PID_CRT} ==> r[i] == t[i]
  {
    t[PID_NULL := Row(PID_NULL, HIDDEN, e.nullProcess)]
     [PID_SET_PRIO := Row(PID_SET_PRIO, HIGH, e.setPriority)]
     [PID_KCD := Row(PID_KCD, HIGH, e.kcd)]
     [PID_CRT := Row(PID_CRT, HIGH, e.crt)]
  }

  /**
   * set_i_procs: the timer and UART interrupt processes at INTERRUPT
   * priority with a 0x100 byte stack; every other row is left as it was.
   */
  function SetIProcs(t: seq<ProcInit>, e: Entries): (r: seq<ProcInit>)
    requires |t| == NUM_PROCS
    ensures |r| == NUM_PROCS
    ensures r[PID_TIMER_IPROC] == ProcInit(PID_TIMER_IPROC, INTERRUPT, 0x100, e.timerIProc)
    ensures r[PID_UART_IPROC] == ProcInit(PID_UART_IPROC, INTERRUPT, 0x100, e.uartIProc)
    ensures forall i :: 0 <= i < NUM_PROCS && i !in {PID_TIMER_IPROC, PID_UART_IPROC} ==> r[i] == t[i]
  {
    t[PID_TIMER_IPROC := Row(PID_TIMER_IPROC, INTERRUPT, e.timerIProc)]
     [PID_UART_IPROC := Row(PID_UART_IPROC, INTERRUPT, e.uartIProc)]
  }

  /**
   * The table process_init works from: cleared, then whatever the user
   * table code left in it (`afterTests`, which may only add rows at their
   * own index), then the system and interrupt processes.
   */
  function BootTable(afterTests: seq<ProcInit>, e: Entries): seq<ProcInit>
    requires IndexedTable(afterTests)
  {
    SetIProcs(SetSysProcs(afterTests, e), e)
  }

  /**
   * The boot table keeps every row at its own index, holds the six kernel
   * processes, and gives INTERRUPT priority to the two interrupt processes
   * and to no row the user table did not already mark so.
   */
  lemma BootTableShape(afterTests: seq<ProcInit>, e: Entries)
    requires IndexedTable(afterTests)
    ensures IndexedTable(BootTable(afterTests, e))
    ensures forall pid :: pid in {PID_NULL, PID_SET_PRIO, PID_KCD, PID_CRT, PID_TIMER_IPROC, PID_UART_IPROC} ==>
      BootTable(afterTests, e)[pid].pid == pid && BootTable(afterTests, e)[pid].stackSize == SYS_SZ_STACK
    ensures forall i :: 0 <= i < NUM_PROCS && BootTable(afterTests, e)[i].priority == INTERRUPT ==>
      i == PID_TIMER_IPROC || i == PID_UART_IPROC || afterTests[i].priority == INTERRUPT
    ensures BootTable(afterTests, e)[PID_NULL].priority == HIDDEN
  {
    var t := BootTable(afterTests, e);
    var s := SetSysProcs(afterTests, e);
    forall i | 0 <= i < NUM_PROCS
      ensures t[i].pid == -1 || t[i].pid == i
    {
      if i !in {PID_TIMER_IPROC, PID_UART_IPROC} && i !in {PID_NULL, PID_SET_PRIO, PID_KCD, PID_CRT} {
        assert t[i] == s[i] == afterTests[i];
      }
    }
  }

  /**
   * The argument check of set_priority_process on a received command
   * (text that KCD copied from its line buffer): character 4 must be a
   * space, character 3 a digit naming process 1..9 and character 5 a digit
   * naming a priority HIGH..LOWEST. The source reads these three bytes
   * whatever the length of the command line, so the text is the first six
   * bytes of the message body.
   */
  function CheckSetPriorityCommand(mtext: seq<char>): (r: Option<(int, int)>)
    requires |mtext| >= 6
    ensures r.Some? ==> 1 <= r.value.0 <= 9 && HIGH <= r.value.1 <= LOWEST
    ensures r.Some? ==> mtext[3] == (('0' as int) + r.value.0) as char && mtext[4] == ' ' &&
                        mtext[5] == (('0' as int) + r.value.1) as char
  {
    var procId := (mtext[3] as int) - ('0' as int);
    var priority := (mtext[5] as int) - ('0' as int);
    if mtext[4] == ' ' && procId <= 9 && procId >= 1 && priority >= HIGH && priority <= LOWEST then
      Some((procId, priority))
    else
      None
  }

  /** The decimal digit character of 0 <= d <= 9. */
  function Digit(d: int): char
    requires 0 <= d <= 9
  {
    (('0' as int) + d) as char
  }

  /**
   * Every command of the form "%C <d> <p>" with a process digit 1..9 and a
   * priority digit 0..3 is accepted with exactly those arguments, whatever
   * follows it; a command is refused when the byte after the process digit
   * is not a space.
   */
  lemma CheckSetPriorityCommandAccepts(d: int, p: int, rest: seq<char>)
    requires 1 <= d <= 9 && HIGH <= p <= LOWEST
    ensures CheckSetPriorityCommand("%C " + [Digit(d), ' ', Digit(p)] + rest) == Some((d, p))
  {
    var m := "%C " + [Digit(d), ' ', Digit(p)] + rest;
    assert m[3] == Digit(d) && m[4] == ' ' && m[5] == Digit(p);
  }

  lemma CheckSetPriorityCommandNeedsSpace(mtext: seq<char>)
    requires |mtext| >= 6 && mtext[4] != ' '
    ensures CheckSetPriorityCommand(mtext) == None
  {
  }
}

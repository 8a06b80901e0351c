/**
 * Constants and records shared by every part of the kernel: process ids,
 * priority levels, process states and the sizes of the memory pool
 * (src/common.h, src/k_memory.h, src/k_process.h, src/k_rtx.h).
 *
 * Pointers into the PCB table and into the memory pool are modelled as
 * indices; NULL is -1.
 */
module Rtx {

  const NULL: int := -1

  const RTX_OK: int := 0
  const RTX_ERR: int := -1

  const NUM_PROCS: int := 16
  const NUM_TEST_PROCS: int := 6
  const NUM_PRIORITIES: int := 5

  /* Process ids */
  const PID_NULL: int := 0
  const PID_P1: int := 1
  const PID_P6: int := 6
  const PID_A: int := 7
  const PID_C: int := 9
  const PID_SET_PRIO: int := 10
  const PID_CLOCK: int := 11
  const PID_KCD: int := 12
  const PID_CRT: int := 13
  const PID_TIMER_IPROC: int := 14
  const PID_UART_IPROC: int := 15

  /* Priorities: the bigger the number, the lower the priority */
  const HIGH: int := 0
  const MEDIUM: int := 1
  const LOW: int := 2
  const LOWEST: int := 3
  const HIDDEN: int := 4
  const INTERRUPT: int := 5

  /* Message types */
  const DEFAULT: int := 0
  const KCD_REG: int := 1
  const CRT_DISPLAY: int := 2

  /* Memory layout */
  const RAM_END_ADDR: int := 0x1000_8000
  const MEMORY_BLOCK_SIZE: int := 128
  const NUM_MEMORY_BLOCKS: int := 30

  /** Initial program status register of a process that has never run. */
  const INITIAL_XPSR: int := 0x0100_0000

  /**
   * Stack size, in bytes, that set_sys_procs and set_i_procs give each of
   * their rows, written there as a literal (USR_SZ_STACK, the user
   * processes' size, is 0x200 in a DEBUG_0 build).
   */
  const SYS_SZ_STACK: int := 0x100

  /** The five values of a PCB's m_state. */
  datatype State = New | Ready | Run | BlockedMemory | BlockedMsg

  /** One row of the process initialisation table (PROC_INIT); pid -1 marks an unused row. */
  datatype ProcInit = ProcInit(pid: int, priority: int, stackSize: int, entry: int)

  const UNUSED_ROW: ProcInit := ProcInit(-1, 0, 0, 0)

  datatype Option<T> = None | Some(value: T)

  predicate IsPid(pid: int) {
    0 <= pid < NUM_PROCS
  }

  predicate IsBlock(b: int) {
    0 <= b < NUM_MEMORY_BLOCKS
  }
}

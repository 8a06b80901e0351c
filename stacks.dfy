/**
 * The stack carver of src/k_memory.c (gp_stack and alloc_stack) and the
 * initial exception frames src/k_process.c's process_init writes into the
 * stacks it carves. Addresses are byte addresses; `words` maps each word
 * address written so far to its value.
 */
module Stacks {
  import opened Rtx

  /** Bit 2 of an address, as `(U32)p & 0x04` reads it. */
  predicate Bit2(a: int) {
    (a / 4) % 2 == 1
  }

  /** gp_stack after alloc_stack(size): size bytes and 16 register words lower, then aligned down to 8 bytes. */
  function Carve(top: int, size: int): int {
    var s := top - (size + 16 * 4);
    if Bit2(s) then s - 4 else s
  }

  /** memory_init's initial gp_stack: the end of RAM, aligned down to 8 bytes. */
  function InitialStackTop(): int {
    if Bit2(RAM_END_ADDR) then RAM_END_ADDR - 4 else RAM_END_ADDR
  }

  /** The end of RAM is 8-byte aligned, so memory_init leaves gp_stack there. */
  lemma InitialStackTopIs()
    ensures InitialStackTop() == RAM_END_ADDR && InitialStackTop() % 8 == 0
  {
    assert RAM_END_ADDR == 4 * 0x400_2000 && 0x400_2000 == 2 * 0x200_1000;
    assert RAM_END_ADDR == 8 * 0x200_1000;
  }

  /**
   * alloc_stack lowers gp_stack by the stack size plus 64 bytes, and by at
   * most 4 more bytes of alignment; an 8-byte aligned gp_stack stays 8-byte
   * aligned when the size is a multiple of 4.
   */
  lemma CarveBounds(top: int, size: int)
    ensures top - size - 68 <= Carve(top, size) <= top - size - 64
    ensures top % 8 == 0 && size % 4 == 0 ==> Carve(top, size) % 8 == 0
  {
  }

  /** The saved context process_init builds for a new process: six zero words, the entry point, then xPSR, from sp upwards. */
  ghost predicate FrameAt(mem: map<int, int>, sp: int, entry: int) {
    && (forall j :: 0 <= j < 6 ==> sp + 4 * j in mem && mem[sp + 4 * j] == 0)
    && sp + 24 in mem && mem[sp + 24] == entry
    && sp + 28 in mem && mem[sp + 28] == INITIAL_XPSR
  }

  /** A frame lying above every written address survives the writes. */
  lemma FrameKept(m: map<int, int>, m': map<int, int>, sp: int, entry: int, lo: int, hi: int)
    requires FrameAt(m, sp, entry) && sp >= hi
    requires forall a :: a in m && !(lo <= a < hi) ==> a in m' && m'[a] == m[a]
    ensures FrameAt(m', sp, entry)
  {
    assert sp + 24 in m && sp + 28 in m;
    forall j | 0 <= j < 6
      ensures sp + 4 * j in m' && m'[sp + 4 * j] == 0
    {
      assert sp + 4 * j in m;
    }
  }

  class Stacks {
    /** gp_stack: the low end of the stacks carved so far. */
    var top: int
    var words: map<int, int>

    /** memory_init's part: no stack carved, gp_stack at the end of RAM. */
    constructor ()
      ensures top == RAM_END_ADDR && top % 8 == 0 && words == map[]
    {
      InitialStackTopIs();
      top := InitialStackTop();
      words := map[];
    }

    /**
     * alloc_stack: returns the current gp_stack as the new stack's top and
     * lowers gp_stack past the stack and the 64 bytes of saved registers,
     * keeping it 8-byte aligned.
     */
    method Alloc(size: int) returns (sp: int)
      requires size >= 0
      modifies this
      ensures sp == old(top) && top == Carve(sp, size) && words == old(words)
      ensures sp - size - 68 <= top <= sp - size - 64
      ensures sp % 8 == 0 && size % 4 == 0 ==> top % 8 == 0
    {
      sp := top;
      var s := sp - (size + 16 * 4);
      if Bit2(s) {
        s := s - 4;
      }
      top := s;
      CarveBounds(sp, size);
    }

    /**
     * The initial exception frame process_init pushes below a stack top:
     * xPSR, the entry point, then six zero words; the result is the saved
     * stack pointer. No word outside the frame changes.
     */
    method PushFrame(stackTop: int, entry: int) returns (s: int)
      modifies this
      ensures s == stackTop - 32 && FrameAt(words, s, entry) && top == old(top)
      ensures forall a :: a in old(words) && !(s <= a < stackTop) ==> a in words && words[a] == old(words)[a]
      ensures forall a :: a in words ==> a in old(words) || s <= a < stackTop
    {
      var w := words;
      s := stackTop;
      s := s - 4;
      w := w[s := INITIAL_XPSR];
      s := s - 4;
      w := w[s := entry];
      for j := 0 to 6
        invariant s == stackTop - 8 - 4 * j
        invariant forall k :: 0 <= k < j ==> stackTop - 12 - 4 * k in w && w[stackTop - 12 - 4 * k] == 0
        invariant stackTop - 8 in w && w[stackTop - 8] == entry
        invariant stackTop - 4 in w && w[stackTop - 4] == INITIAL_XPSR
        invariant forall a :: a in words && !(s <= a < stackTop) ==> a in w && w[a] == words[a]
        invariant forall a :: a in w ==> a in words || s <= a < stackTop
      {
        s := s - 4;
        w := w[s := 0];
      }
      forall j | 0 <= j < 6
        ensures s + 4 * j in w && w[s + 4 * j] == 0
      {
        assert s + 4 * j == stackTop - 12 - 4 * (5 - j);
      }
      words := w;
    }
  }
}

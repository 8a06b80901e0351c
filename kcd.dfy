/**
 * The keyboard command decoder, kcd_process of src/k_sys_proc.c: a line
 * buffer (g_command_buffer) filled one character per DEFAULT message, and
 * a registry (g_KCD_REG) from the letter after a '%' to the process that
 * registered it with a KCD_REG message. One received message is one call
 * of Decoder.Step; the messages it sends are returned as an Action.
 *
 * The source ends a line only once buf_length has reached the size of the
 * buffer, and then writes the '\n' and the '\0' past its end; Writes
 * models that guard, and the Decoder ends the line two bytes earlier.
 */
module Kcd {
  import opened Rtx
  import SysProcs

  /** A C char: g_KCD_REG has one entry per value. */
  type Byte = c: char | (c as int) < 256 witness '\0'

  const CR: Byte := '\r'
  const LF: Byte := '\n'
  const NUL: Byte := '\0'
  const PERCENT: Byte := '%'

  /** The size of g_command_buffer: MEMORY_BLOCK_SIZE - 2 - sizeof(int), with a 4-byte int. */
  const CAP: int := MEMORY_BLOCK_SIZE - 2 - 4

  /** The line length at which the decoder ends a line, leaving room for the '\n' and the '\0'. */
  const LIMIT: int := CAP - 2

  /**
   * The messages one step sends: the echo of a typed character to CRT; the
   * end of a line ("\r\n" to CRT) and the command it hands on, if any; or
   * nothing, for a KCD_REG message (its block is released) and for any
   * other message (dropped).
   */
  datatype Action = Echo(c: Byte) | EndLine(command: Option<(int, seq<Byte>)>) | Registered | Dropped

  /** The line as it is handed on: the typed characters, the '\r' unless the line was cut at LIMIT, and '\n'. */
  function Finished(line: seq<Byte>, c: Byte): (r: seq<Byte>)
  {
    if |line| >= LIMIT then line + [LF] else line + [c, LF]
  }

  /** The destination of a finished line: the process registered for line[1], when line[0] is '%' and one is. */
  function Command(line: seq<Byte>, registry: seq<int>): Option<(int, seq<Byte>)>
    requires |line| >= 2 && |registry| == 256
  {
    if line[0] == PERCENT && registry[line[1] as int] > -1 then Some((registry[line[1] as int], line)) else None
  }

  /**
   * One DEFAULT message carrying c, on the line typed so far: below LIMIT
   * a character other than '\r' is appended and echoed; otherwise the line
   * is finished, handed on and emptied.
   */
  function KeyStep(line: seq<Byte>, c: Byte, registry: seq<int>): (Action, seq<Byte>)
    requires |registry| == 256
  {
    if |line| < LIMIT && c != CR then (Echo(c), line + [c])
    else
      var l := Finished(line, c);
      (EndLine(Command(l, registry)), [])
  }

  /**
   * The line never outgrows LIMIT; an ordinary character below it is
   * appended and echoed; '\r', or any character at LIMIT, hands on the
   * finished line, which ends in "\r\n" unless it was cut, and which
   * together with its '\0' fits in the buffer.
   */
  lemma KeyStepKeeps(line: seq<Byte>, c: Byte, registry: seq<int>)
    requires |line| <= LIMIT && |registry| == 256
    ensures var (act, line') := KeyStep(line, c, registry);
      && |line'| <= LIMIT
      && (|line| < LIMIT && c != CR ==> act == Echo(c) && line' == line + [c])
      && (|line| == LIMIT || c == CR ==>
            var l := Finished(line, c);
            && line' == [] && |l| + 1 <= CAP && l[..|line|] == line && l[|l| - 1] == LF
            && (|line| < LIMIT ==> l[|l| - 2] == CR)
            && act == EndLine(Command(l, registry)))
  {
  }

  /** A finished line goes to the process registered for its letter after '%', and to nobody else. */
  lemma CommandRoutes(line: seq<Byte>, registry: seq<int>)
    requires |line| >= 2 && |registry| == 256
    ensures Command(line, registry).Some? <==> line[0] == PERCENT && registry[line[1] as int] > -1
    ensures Command(line, registry).Some? ==> Command(line, registry).value == (registry[line[1] as int], line)
  {
  }

  /** Once a process has registered letter k, every line "%k..." typed afterwards is handed to it. */
  lemma RegisteredLineReachesSender(line: seq<Byte>, k: Byte, sender: int, registry: seq<int>)
    requires |registry| == 256 && |line| <= LIMIT && sender > -1
    requires |line| >= 1 && line[0] == PERCENT && (|line| >= 2 ==> line[1] == k)
    requires |line| == 1 ==> k == CR
    ensures KeyStep(line, CR, Registration(registry, sender, PERCENT, k)).0 == EndLine(Some((sender, Finished(line, CR))))
  {
  }

  /**
   * The registry after a KCD_REG message whose m_send_pid reads sender:
   * text starting with '%' points the letter after it at sender, and
   * every other entry, and any other text, leaves the registry as it was.
   */
  function Registration(registry: seq<int>, sender: int, c0: Byte, c1: Byte): (r: seq<int>)
    requires |registry| == 256
    ensures |r| == 256
    ensures c0 == PERCENT ==> r[c1 as int] == sender
    ensures forall i :: 0 <= i < 256 && (c0 != PERCENT || i != c1 as int) ==> r[i] == registry[i]
  {
    if c0 == PERCENT then registry[c1 as int := sender] else registry
  }

  /**
   * End to end: set_priority_process sends "%C" as a KCD_REG message at
   * start, and the decoder registers 'C' for the sender that message
   * reports. From then on, typing "%C 3 2" and Enter hands "%C 3 2\r\n" to
   * that sender, and the set-priority argument check reads process 3,
   * priority 2. The reported sender is set_priority_process only if the
   * block was stamped with it; it sends with k_send_message, which writes
   * no header (Memory.UnstampedSendExample).
   */
  lemma SetPriorityCommandTyped(registry: seq<int>, sender: int)
    requires |registry| == 256 && sender > -1
    ensures KeyStep("%C 3 2", CR, Registration(registry, sender, PERCENT, 'C'))
      == (EndLine(Some((sender, "%C 3 2\r\n"))), [])
    ensures SysProcs.CheckSetPriorityCommand("%C 3 2\r\n") == Some((3, 2))
  {
    assert Finished("%C 3 2", CR) == "%C 3 2\r\n";
  }

  /* ---------------------------------------------------------------- */
  /* The buffer guard as written                                       */
  /* ---------------------------------------------------------------- */

  /**
   * The indices of g_command_buffer one DEFAULT character writes, and
   * buf_length after it, when a line is cut once buf_length reaches
   * limit: a cut line gets '\n' and '\0' at n and n + 1; otherwise c goes
   * at n and, if it is '\r', '\n' and '\0' follow it.
   */
  function Writes(n: int, c: Byte, limit: int): (r: (seq<int>, int))
    ensures n >= 0 ==> r.1 >= 0
  {
    if n >= limit then ([n, n + 1], 0)
    else if c == CR then ([n, n + 1, n + 2], 0)
    else ([n], n + 1)
  }

  /**
   * As written (limit CAP): typing LIMIT ordinary characters leaves
   * buf_length at LIMIT, where '\r' writes the '\0' at index CAP, one past
   * the end; a further ordinary character takes buf_length to CAP, where
   * any character writes the '\n' at CAP and the '\0' at CAP + 1.
   */
  lemma WritesAsWrittenOverrun()
    ensures forall n :: 0 <= n < CAP ==> Writes(n, 'a', CAP) == ([n], n + 1)
    ensures Writes(LIMIT, CR, CAP).0 == [LIMIT, LIMIT + 1, CAP]
    ensures Writes(CAP, 'a', CAP).0 == [CAP, CAP + 1]
  {
  }

  /** With the line cut at LIMIT, every write stays inside the buffer and buf_length stays at most LIMIT. */
  lemma WritesInBounds(n: int, c: Byte)
    requires 0 <= n <= LIMIT
    ensures var (w, n') := Writes(n, c, LIMIT);
      (forall i :: 0 <= i < |w| ==> 0 <= w[i] < CAP) && 0 <= n' <= LIMIT
  {
  }

  /** The decoder's state: the line buffer, its length and the registry. */
  class Decoder {
    /** g_command_buffer */
    const buffer: array<Byte>
    /** g_KCD_REG */
    const registry: array<int>
    /** buf_length */
    var length: int

    ghost predicate Valid()
      reads this
    {
      buffer.Length == CAP && registry.Length == 256 && 0 <= length <= LIMIT
    }

    /** The characters of the line typed so far. */
    ghost function Line(): seq<Byte>
      reads this, buffer
      requires Valid()
    {
      buffer[..length]
    }

    /** kcd_process before its loop: an empty line, and no letter registered (every entry -1). */
    constructor ()
      ensures Valid() && length == 0
      ensures forall i :: 0 <= i < 256 ==> registry[i] == -1
    {
      buffer := new Byte[CAP](_ => NUL);
      var reg := new int[256];
      for i := 0 to 256
        invariant forall j :: 0 <= j < i ==> reg[j] == -1
      {
        reg[i] := -1;
      }
      registry := reg;
      length := 0;
    }

    /**
     * One received message: DEFAULT is a typed character (Key), KCD_REG a
     * registration (Register) for the sender the message reports (its
     * m_send_pid); anything else is dropped.
     */
    method Step(mtype: int, sender: int, c0: Byte, c1: Byte) returns (act: Action)
      requires Valid()
      modifies this, buffer, registry
      ensures Valid()
      ensures mtype == DEFAULT ==>
        (act, Line()) == KeyStep(old(Line()), c0, old(registry[..])) && registry[..] == old(registry[..])
      ensures mtype == KCD_REG ==>
        act == Registered && Line() == old(Line()) && registry[..] == Registration(old(registry[..]), sender, c0, c1)
      ensures mtype != DEFAULT && mtype != KCD_REG ==>
        act == Dropped && Line() == old(Line()) && registry[..] == old(registry[..])
    {
      if mtype == DEFAULT {
        act := Key(c0);
      } else if mtype == KCD_REG {
        Register(sender, c0, c1);
        act := Registered;
      } else {
        act := Dropped;
      }
    }

    /**
     * A DEFAULT message carrying c, with the line cut at LIMIT: the line
     * and the messages sent are those KeyStep gives, and a finished line
     * sits in the buffer followed by its '\0'.
     */
    method Key(c: Byte) returns (act: Action)
      requires Valid()
      modifies this`length, buffer
      ensures Valid()
      ensures (act, Line()) == KeyStep(old(Line()), c, registry[..])
      ensures act.EndLine? ==>
        var l := Finished(old(Line()), c);
        buffer[..|l| + 1] == l + [NUL]
    {
      ghost var line := buffer[..length];
      var ch := c;
      if length >= LIMIT {
        ch := CR;
      } else {
        buffer[length] := ch;
        length := length + 1;
      }
      if ch == CR {
        buffer[length] := LF;
        length := length + 1;
        buffer[length] := NUL;
        var n := length;
        length := 0;
        assert buffer[..n] == Finished(line, c);
        act := EndLine(Command(buffer[..n], registry[..]));
      } else {
        assert buffer[..length] == line + [c];
        act := Echo(ch);
      }
    }

    /** A KCD_REG message from sender: text starting with '%' registers sender for the letter after it. */
    method Register(sender: int, c0: Byte, c1: Byte)
      requires Valid()
      modifies registry
      ensures Valid()
      ensures registry[..] == Registration(old(registry[..]), sender, c0, c1)
    {
      if c0 == PERCENT {
        registry[c1 as int] := sender;
      }
    }
  }
}

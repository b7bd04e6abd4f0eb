/**
 Write-once use of the two reserved flash pages: the banked reader, the RAM executor with its two-byte poll
 countdown, and the writer whose bitmap remembers every word attempted since the last verified erase. The
 hardware may leave anything in the cells a command names and may fail at any observation.
 */
module Flash {
  import opened Bytes

  const PAGE_SIZE := 2048
  const PAGES := 2
  const WORDS := 512
  const READ_MAX := 32
  const NV_BASE := 0x3e800
  const NV_WINDOW := 0xe800
  const NV_BANK := 7
  const SIZE := 4096

  // ---------- addresses ----------

  /** The flash byte behind an address of the upper data window when a 32-KiB bank is selected. */
  function Physical(bank: nat, address: nat): nat
    requires 0x8000 <= address < 0x1_0000
  {
    bank * 0x8000 + (address - 0x8000)
  }

  /** The window address the reader uses. */
  function WindowAddress(page: nat, offset: nat): nat {
    NV_WINDOW + page * PAGE_SIZE + offset
  }

  /** The word address the executor loads into the controller's two address registers. */
  function Target(page: nat, offset: nat): nat {
    NV_BASE / 4 + page * 512 + offset / 4
  }

  /** A byte of the reserved pages, counted from their start. */
  function Cell(page: nat, offset: nat): nat {
    page * PAGE_SIZE + offset
  }

  /** Reader and executor name the same bytes, and neither 16-bit address computation overflows. */
  lemma AddressesAgree(page: nat, offset: nat, i: nat)
    requires page < PAGES && offset < PAGE_SIZE && offset % 4 == 0 && i < 4
    ensures 0x8000 <= WindowAddress(page, offset + i) < 0x1_0000 && Target(page, offset) < 0x1_0000
    ensures Physical(NV_BANK, WindowAddress(page, offset + i)) == 4 * Target(page, offset) + i == NV_BASE + Cell(page, offset + i)
  {
  }

  // ---------- the chip ----------

  /** The cells of the two pages and the bank register; its answers are its own. */
  class Chip {
    const cells: array<byte>
    var bank: nat

    constructor ()
      ensures cells.Length == SIZE && fresh(cells)
    {
      cells := new byte[SIZE];
      bank := *;
    }

    /** A byte through the data window, with the reserved bank selected. */
    method WindowRead(address: nat) returns (b: byte)
      requires cells.Length == SIZE && bank == NV_BANK && NV_WINDOW <= address < NV_WINDOW + SIZE
      ensures b == cells[Physical(bank, address) - NV_BASE]
    {
      b := cells[Physical(bank, address) - NV_BASE];
    }

    /** A command may leave anything in the bytes it names and touches no others. */
    method Disturb(from: nat, count: nat)
      requires from + count <= cells.Length
      modifies cells
      ensures forall k :: 0 <= k < cells.Length && !(from <= k < from + count) ==> cells[k] == old(cells[k])
    {
      for i := from to from + count
        invariant forall k :: 0 <= k < cells.Length && !(from <= k < from + count) ==> cells[k] == old(cells[k])
      {
        var b: byte := *;
        cells[i] := b;
      }
    }
  }

  // ---------- the reader ----------

  datatype ReadResult = ReadOk | ReadArgument | ReadRange | ReadChip | ReadState | ReadController | ReadMapping

  class Reader {
    const chip: Chip
    const staging: array<byte>
    var fault: ReadResult

    constructor (c: Chip)
      ensures chip == c && fresh(staging) && staging.Length == READ_MAX && fault == ReadOk
    {
      chip := c;
      staging := new byte[READ_MAX](_ => 0);
      fault := ReadOk;
    }

    /** The state of interrupts, clock, cache and DMA is the hardware's; the mapping is the bank register. */
    method Observe(bank: nat) returns (r: ReadResult)
      ensures r == ReadOk ==> chip.bank == bank
      ensures r != ReadArgument && r != ReadRange
    {
      r := *;
      if r == ReadArgument || r == ReadRange { r := ReadState; }
      if r == ReadOk && chip.bank != bank { r := ReadMapping; }
    }

    /** The fault is retained: every later read returns it and touches nothing. */
    method Fail(why: ReadResult) returns (r: ReadResult)
      requires why != ReadOk
      modifies `fault
      ensures r == why && fault == why
    {
      fault := why;
      r := why;
    }

    /**
     Reads up to 32 bytes of one page. Only a complete read with the caller's bank verified back is
     published; on any error the output is untouched.
     */
    method Read(page: nat, offset: nat, output: array<byte>, length: nat) returns (r: ReadResult)
      requires chip.cells.Length == SIZE && staging.Length == READ_MAX
      requires output != staging && output != chip.cells && staging != chip.cells && length <= output.Length
      modifies this, staging, output, chip`bank
      ensures old(fault) != ReadOk ==> r == fault == old(fault) && chip.bank == old(chip.bank)
      ensures r != ReadOk ==> output[..] == old(output[..])
      ensures r == ReadOk ==> page < PAGES && 0 < length <= READ_MAX && offset + length <= PAGE_SIZE
      ensures r == ReadOk ==> output[..length] == chip.cells[Cell(page, offset)..Cell(page, offset) + length]
                              && output[length..] == old(output[length..])
      ensures r == ReadOk ==> chip.bank == old(chip.bank) && fault == ReadOk == old(fault)
      ensures r != ReadOk && r != ReadArgument && r != ReadRange ==> fault == r
      ensures old(fault) == ReadOk ==>
                && (r == ReadArgument <==> length == 0 || length > 32)
                && (r == ReadRange <==> 1 <= length <= 32 && (page >= 2 || offset + length > 2048))
                && (old(chip.bank) >= 8 && 1 <= length <= 32 && page < 2 && offset + length <= 2048 ==> r == ReadState)
    {
      if fault != ReadOk { return fault; }
      if length == 0 || length > READ_MAX { return ReadArgument; }
      if page >= PAGES || offset >= PAGE_SIZE || length > PAGE_SIZE - offset { return ReadRange; }
      var saved := chip.bank;
      if saved >= 8 {
        r := Fail(ReadState);
        return;
      }
      r := Observe(saved);
      if r != ReadOk {
        r := Fail(r);
        return;
      }
      var known: bool := *;
      if !known {
        r := Fail(ReadChip);
        return;
      }
      chip.bank := NV_BANK;
      r := Observe(NV_BANK);
      if r != ReadOk {
        r := Fail(r);
        return;
      }
      Stage(page, offset, length);
      r := Observe(NV_BANK);
      if r != ReadOk {
        r := Fail(r);
        return;
      }
      chip.bank := saved;
      r := Observe(saved);
      if r != ReadOk {
        r := Fail(r);
        return;
      }
      Publish(output, length);
    }

    /** Fills the staging buffer through the window. */
    method Stage(page: nat, offset: nat, length: nat)
      requires chip.cells.Length == SIZE && staging.Length == READ_MAX && staging != chip.cells && chip.bank == NV_BANK
      requires page < PAGES && length <= READ_MAX && offset + length <= PAGE_SIZE
      modifies staging
      ensures staging[..length] == chip.cells[Cell(page, offset)..Cell(page, offset) + length]
    {
      var source := WindowAddress(page, offset);
      for i := 0 to length
        invariant forall k :: 0 <= k < i ==> staging[k] == chip.cells[Cell(page, offset) + k]
      {
        staging[i] := chip.WindowRead(source + i);
      }
    }

    method Publish(output: array<byte>, length: nat)
      requires output != staging && length <= output.Length && length <= staging.Length
      modifies output
      ensures output[..length] == staging[..length] && output[length..] == old(output[length..])
    {
      for i := 0 to length
        invariant output[..i] == staging[..i] && output[length..] == old(output[length..])
      {
        output[i] := staging[i];
      }
    }
  }

  // ---------- the executor ----------

  const BUSY_MASK: byte := 0x83
  const ABORT_BIT: byte := 0x20

  datatype ExecResult = ExecIdle | ExecArgument | ExecState | ExecMapping | ExecCode | ExecAbort | ExecController | RamStop

  /** The controller has neither a command nor a write in progress. */
  predicate Quiet(status: byte) {
    status & BUSY_MASK == 0
  }

  /**
   The countdown that runs from RAM: two bytes, the high one borrowed when the low one is zero, tested for
   zero together after each decrement. It polls until quiet, and otherwise exactly as often as the limit says.
   */
  method PollDown(limitLow: nat, limitHigh: nat) returns (quiet: bool, seen: seq<byte>)
    requires limitLow < 0x100 && limitHigh < 0x100 && limitLow + 0x100 * limitHigh > 0
    ensures 1 <= |seen| <= limitLow + 0x100 * limitHigh
    ensures quiet == Quiet(seen[|seen| - 1]) && forall k :: 0 <= k < |seen| - 1 ==> !Quiet(seen[k])
    ensures !quiet ==> |seen| == limitLow + 0x100 * limitHigh
  {
    var low, high := limitLow, limitHigh;
    seen := [];
    quiet := false;
    while true
      invariant low < 0x100 && high < 0x100 && !quiet
      invariant |seen| + low + 0x100 * high == limitLow + 0x100 * limitHigh
      invariant low + 0x100 * high > 0
      invariant forall k :: 0 <= k < |seen| ==> !Quiet(seen[k])
      decreases low + 0x100 * high
    {
      var status: byte := *;
      seen := seen + [status];
      if Quiet(status) { return true, seen; }
      if low == 0 { high := if high == 0 then 0xff else high - 1; }
      low := if low == 0 then 0xff else low - 1;
      if low == 0 && high == 0 { return false, seen; }
    }
  }

  /** What the RAM code reports for the last status, given the command byte and whether the controller took it. */
  function Verdict(command: byte, taken: bool, last: byte): ExecResult {
    if last & ABORT_BIT != 0 then ExecAbort
    else if !taken || command & 0x0c != last then ExecController
    else ExecIdle
  }

  /**
   The verdict in the status register's bits: bit 5 is an abort; otherwise success is the command taken and the register back
   to the two cache bits it was given with, nothing busy, nothing else set. Busy is bit 7, bit 1 or bit 0.
   */
  lemma VerdictBits(command: byte, taken: bool, last: byte)
    ensures Verdict(command, taken, last) == ExecAbort <==> last & 0x20 == 0x20
    ensures Verdict(command, taken, last) == ExecIdle <==> taken && last == command & 0x0c
    ensures Verdict(command, taken, last) == ExecIdle ==> Quiet(last)
    ensures Quiet(last) <==> last & 0x80 == 0 && last & 2 == 0 && last & 1 == 0
  {
    assert last & 0x20 != 0 <==> last & 0x20 == 0x20;
    assert last == command & 0x0c ==> last & 0x20 == 0;
  }

  /** The two pages are the 4096 bytes from 3E800 on, 2048 to a page; the reader sees page 0 at E800 and page 1 at F000. */
  lemma PagesPlaced(page: nat, offset: nat)
    requires page < 2 && offset < 2048
    ensures WindowAddress(page, offset) == (if page == 0 then 0xe800 else 0xf000) + offset
    ensures Physical(7, WindowAddress(page, offset)) == 0x3e800 + 2048 * page + offset
    ensures offset % 4 == 0 ==> 4 * Target(page, offset) == 0x3e800 + 2048 * page + offset
    ensures Cell(page, offset) == 2048 * page + offset < SIZE == 4096
  {
  }

  /** A command given to the controller: what and where, the octet written, whether it was taken, and the last status seen. */
  datatype Given = Given(program: bool, target: nat, command: byte, taken: bool, quiet: bool, last: byte)

  /** The two operations: 2 programs, 1 erases; the cache bits are kept. */
  predicate Commands(g: Given, program: bool, page: nat, offset: nat) {
    g.program == program && g.command & 0xf3 == (if program then 2 else 1) && 4 * g.target == 0x3e800 + 2048 * page + offset
  }

  lemma CommandBits(cache: byte, program: bool)
    ensures ((cache & 0x0c) | (if program then 2 else 1)) & 0xf3 == if program then 2 else 1
  {
  }

  class Executor {
    const chip: Chip
    var latch: ExecResult
    /** Every command given so far. */
    ghost var given: seq<Given>

    constructor (c: Chip)
      ensures chip == c && latch == ExecIdle && given == []
    {
      chip := c;
      latch := ExecIdle;
      given := [];
    }

    /**
     One command. `issued` says whether the controller was given it; only then may cells change, and only the
     page or word it names. A countdown that runs out never returns to flash: the call reports RamStop for it.
     */
    method Command(program: bool, page: nat, offset: nat, limit: nat) returns (r: ExecResult, issued: bool)
      requires chip.cells.Length == SIZE
      modifies this, chip.cells, chip`bank
      ensures old(latch) != ExecIdle ==> r == latch == old(latch) && !issued
      ensures !issued ==> chip.cells[..] == old(chip.cells[..])
      ensures issued ==> page < PAGES && offset < PAGE_SIZE && offset % 4 == 0 && 0 < limit < 0x1_0000 && (!program ==> offset == 0)
      ensures issued ==> var from, count := Cell(page, offset), if program then 4 else PAGE_SIZE;
                         from + count <= SIZE
                         && forall k :: 0 <= k < SIZE && !(from <= k < from + count) ==> chip.cells[k] == old(chip.cells[k])
      ensures r == ExecIdle ==> issued && chip.bank == old(chip.bank) && latch == ExecIdle
      ensures r != ExecIdle && r != ExecArgument ==> latch == r
      ensures old(latch) == ExecIdle ==>
                (r == ExecArgument <==> page >= 2 || limit == 0 || limit >= 0x1_0000 || offset >= 2048 || offset % 4 != 0
                                        || (!program && offset != 0))
      ensures r == ExecArgument && old(latch) == ExecIdle ==> latch == ExecIdle && !issued
      ensures !issued ==> given == old(given)
      ensures issued ==> |given| == |old(given)| + 1 && given[..|old(given)|] == old(given)
                         && Commands(given[|old(given)|], program, page, offset)
                         && (r == ExecIdle ==> given[|old(given)|].quiet && given[|old(given)|].taken
                                               && given[|old(given)|].last == given[|old(given)|].command & 0x0c)
                         && (r == RamStop ==> !given[|old(given)|].quiet)
    {
      issued := false;
      if latch != ExecIdle { return latch, false; }
      if page >= PAGES || limit == 0 || limit >= 0x1_0000 || offset >= PAGE_SIZE || offset % 4 != 0 || (!program && offset != 0) {
        return ExecArgument, false;
      }
      var mapping := chip.bank;
      var ready: ExecResult := *;
      if ready != ExecIdle {
        latch := if ready == ExecArgument || ready == RamStop then ExecState else ready;
        return latch, false;
      }
      r, issued := Enter(program, page, offset, limit);
      ghost var g := given[|old(given)|];
      VerdictBits(g.command, g.taken, g.last);
      if r != ExecIdle {
        latch := r;
        return;
      }
      var settled: bool := *;
      if !settled {
        latch := ExecState;
        return ExecState, issued;
      }
      chip.bank := mapping;
    }

    /** From loading the address registers to the last poll. */
    method Enter(program: bool, page: nat, offset: nat, limit: nat) returns (r: ExecResult, issued: bool)
      requires chip.cells.Length == SIZE && page < PAGES && 0 < limit < 0x1_0000
      requires offset < PAGE_SIZE && offset % 4 == 0 && (!program ==> offset == 0)
      modifies chip.cells, `given
      ensures issued && r != ExecArgument
      ensures |given| == |old(given)| + 1 && given[..|old(given)|] == old(given)
      ensures var g := given[|old(given)|];
              Commands(g, program, page, offset) && r == if g.quiet then Verdict(g.command, g.taken, g.last) else RamStop
      ensures var from, count := Cell(page, offset), if program then 4 else PAGE_SIZE;
              from + count <= SIZE
              && forall k :: 0 <= k < SIZE && !(from <= k < from + count) ==> chip.cells[k] == old(chip.cells[k])
    {
      var target := Target(page, offset);
      AddressesAgree(page, offset, 0);
      var cache: byte := *;
      var command: byte := (cache & 0x0c) | (if program then 2 else 1);
      issued := true;
      chip.Disturb(4 * target - NV_BASE, if program then 4 else PAGE_SIZE);
      var taken: bool := *;
      var quiet, seen := PollDown(limit % 0x100, limit / 0x100);
      r := if quiet then Verdict(command, taken, seen[|seen| - 1]) else RamStop;
      CommandBits(cache, program);
      given := given + [Given(program, target, command, taken, quiet, seen[|seen| - 1])];
    }
  }

  // ---------- the write history ----------

  /** What matters about the past: verified erases, and program commands handed to the executor. */
  datatype Deed = Verified(page: nat) | Programmed(page: nat, word: nat)

  /** Words of a page programmed since it was last verified erased. */
  function Attempts(trace: seq<Deed>, page: nat): set<nat> {
    if trace == [] then {}
    else
      var before := Attempts(trace[..|trace| - 1], page);
      match trace[|trace| - 1]
      case Verified(p) => if p == page then {} else before
      case Programmed(p, w) => if p == page then before + {w} else before
  }

  /** Between any two program commands for one word lies a verified erase of its page. */
  predicate OnceOnly(trace: seq<Deed>) {
    forall i, j :: 0 <= i < j < |trace| && trace[i].Programmed? && trace[j] == trace[i] ==>
      exists k :: i < k < j && trace[k] == Verified(trace[i].page)
  }

  lemma AttemptsGrow(trace: seq<Deed>, d: Deed, page: nat)
    ensures Attempts(trace + [d], page)
         == if d.Verified? then (if d.page == page then {} else Attempts(trace, page))
            else if d.page == page then Attempts(trace, page) + {d.word} else Attempts(trace, page)
  {
    assert (trace + [d])[..|trace + [d]| - 1] == trace;
  }

  /** A word not attempted since the last verified erase has no unpaired attempt. */
  lemma {:induction false} NotAttempted(trace: seq<Deed>, page: nat, word: nat, i: nat)
    requires word !in Attempts(trace, page) && i < |trace| && trace[i] == Programmed(page, word)
    ensures exists k :: i < k < |trace| && trace[k] == Verified(page)
  {
    var before := trace[..|trace| - 1];
    if i < |trace| - 1 && trace[|trace| - 1] != Verified(page) {
      NotAttempted(before, page, word, i);
      var k :| i < k < |before| && before[k] == Verified(page);
      assert trace[k] == Verified(page);
    }
  }

  lemma OnceGrows(trace: seq<Deed>, d: Deed)
    requires OnceOnly(trace) && (d.Programmed? ==> d.word !in Attempts(trace, d.page))
    ensures OnceOnly(trace + [d])
  {
    var t := trace + [d];
    forall i, j | 0 <= i < j < |t| && t[i].Programmed? && t[j] == t[i]
      ensures exists k :: i < k < j && t[k] == Verified(t[i].page)
    {
      if j < |trace| {
        assert trace[i].Programmed? && trace[j] == trace[i];
        var k :| i < k < j && trace[k] == Verified(trace[i].page);
        assert t[k] == trace[k];
      } else {
        NotAttempted(trace, d.page, d.word, i);
        var k :| i < k < |trace| && trace[k] == Verified(d.page);
        assert t[k] == trace[k];
      }
    }
  }

  // ---------- the bitmap ----------

  function Bit(k: nat): byte
    requires k < 8
  {
    if k == 0 then 1 else if k == 1 then 2 else if k == 2 then 4 else if k == 3 then 8
    else if k == 4 then 16 else if k == 5 then 32 else if k == 6 then 64 else 128
  }

  /** Setting one bit of a byte sets that bit and no other. */
  predicate IsSet(b: byte, k: nat)
    requires k < 8
  {
    b & Bit(k) != 0
  }

  lemma SetBit(b: byte, k: nat, j: nat)
    requires k < 8 && j < 8
    ensures IsSet(b | Bit(k), j) <==> j == k || IsSet(b, j)
  {
    Powers(b, Bit(k), Bit(j));
  }

  lemma Powers(b: byte, m: byte, n: byte)
    ensures (b | m) & n == (b & n) | (m & n)
  {
  }

  /** The word a bitmap position stands for is marked. */
  predicate Marked(used: seq<byte>, page: nat, word: nat)
    requires |used| == 128 && page < PAGES && word < WORDS
  {
    IsSet(used[page * 64 + word / 8], word % 8)
  }

  lemma MarkOne(used: seq<byte>, page: nat, word: nat)
    requires |used| == 128 && page < PAGES && word < WORDS
    ensures var index := page * 64 + word / 8; var after := used[index := used[index] | Bit(word % 8)];
            forall p, w :: 0 <= p < PAGES && 0 <= w < WORDS ==>
              (Marked(after, p, w) <==> (p == page && w == word) || Marked(used, p, w))
  {
    var index := page * 64 + word / 8;
    var after := used[index := used[index] | Bit(word % 8)];
    forall p, w | 0 <= p < PAGES && 0 <= w < WORDS
      ensures Marked(after, p, w) <==> (p == page && w == word) || Marked(used, p, w)
    {
      MarkAt(used, page, word, p, w);
    }
  }

  lemma MarkAt(used: seq<byte>, page: nat, word: nat, p: nat, w: nat)
    requires |used| == 128 && page < PAGES && word < WORDS && p < PAGES && w < WORDS
    ensures var index := page * 64 + word / 8; var after := used[index := used[index] | Bit(word % 8)];
            Marked(after, p, w) <==> (p == page && w == word) || Marked(used, p, w)
  {
    var index := page * 64 + word / 8;
    hide Bit, IsSet;
    assert word == 8 * (word / 8) + word % 8 && w == 8 * (w / 8) + w % 8;
    if p == page && w / 8 == word / 8 {
      SetBit(used[index], word % 8, w % 8);
    } else {
      assert p * 64 + w / 8 != index;
    }
  }

  /** Words are marked from the least significant bit of their octet on. */
  lemma BitDoubles(k: nat)
    requires k < 7
    ensures Bit(0) == 1 && Bit(k + 1) == Bit(k) << 1
  {
  }
}

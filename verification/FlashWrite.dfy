/** The writer: one attempt per word and verified erase, and a page image the flash provably holds. */
module FlashWrite {
  import opened Bytes
  import opened Flash

  datatype WriteResult =
    | WriteOk | WriteArgument | WriteRange | HistoryUnknown | WordUsed | ExecutorFailed | ReaderFailed | VerifyFailed
    | NotErased | Pending

  datatype Progress = NotStarted | Preflight | Commanding | Verifying | Finished

  /** The last admitted operation. */
  datatype Status = Status(result: WriteResult, program: bool, page: nat, offset: nat, phase: Progress)

  /** How an operation that was admitted can end. */
  predicate Admitted(r: WriteResult) {
    r == WriteOk || r == ExecutorFailed || r == ReaderFailed || r == VerifyFailed || r == NotErased || r == Pending
  }

  const ERASED: byte := 0xff

  predicate AllErased(s: seq<byte>, from: nat, until: nat) {
    forall k :: from <= k < until && k < |s| ==> s[k] == ERASED
  }

  /** The page has been erased, completely verified, and not erased again since. */
  predicate KnownIn(known: nat, page: nat) {
    if page == 0 then known % 2 == 1 else known / 2 % 2 == 1
  }

  /** The bitmap covers every attempt, and no word was attempted twice. */
  ghost predicate History(known: nat, trace: seq<Deed>, used: seq<byte>)
    requires |used| == 128
  {
    && known < 4 && OnceOnly(trace)
    && forall p, w :: 0 <= p < PAGES && w in Attempts(trace, p) ==> 0 <= w < WORDS && Marked(used, p, w)
  }

  /** A known page holds its image, and every unused word of it is still erased. */
  predicate PageFaithful(image: seq<byte>, cells: seq<byte>, used: seq<byte>, page: nat)
    requires |image| == |cells| == SIZE && |used| == 128 && page < PAGES
  {
    && (forall k :: page * PAGE_SIZE <= k < (page + 1) * PAGE_SIZE ==> cells[k] == image[k])
    && (forall w :: 0 <= w < WORDS && !Marked(used, page, w) ==> WordErased(image, page, w))
  }

  predicate WordErased(image: seq<byte>, page: nat, word: nat)
    requires |image| == SIZE && page < PAGES && word < WORDS
  {
    AllErased(image, Cell(page, 4 * word), Cell(page, 4 * word) + 4)
  }

  predicate Faithful(known: nat, image: seq<byte>, cells: seq<byte>, used: seq<byte>)
    requires |cells| == SIZE && |used| == 128
  {
    && |image| == SIZE
    && (KnownIn(known, 0) ==> PageFaithful(image, cells, used, 0))
    && (KnownIn(known, 1) ==> PageFaithful(image, cells, used, 1))
  }

  /** The first place where two words differ. */
  predicate FirstWrong(read: seq<byte>, word: seq<byte>, k: nat)
    requires |read| == |word|
  {
    k < |read| && read[k] != word[k] && read[..k] == word[..k]
  }

  /** The first cell from `from` on that is not erased. */
  predicate FirstUnerased(cells: seq<byte>, from: nat, k: nat) {
    k < |cells| && cells[k] != ERASED && AllErased(cells, from, k)
  }

  /** Each failure has its source: the reader's or the executor's retained fault, or a command that never returned. */
  predicate Explained(r: WriteResult, latch: ExecResult, fault: ReadResult, limit: nat) {
    && (r == ReaderFailed ==> fault != ReadOk) && (r == Pending ==> latch == RamStop)
    && (r == ExecutorFailed ==> latch != ExecIdle || limit == 0 || limit >= 0x1_0000)
  }

  /** At most one more command was given to the controller, and it names this operation, page and word. */
  predicate Ordered(program: bool, page: nat, offset: nat, before: seq<Given>, after: seq<Given>, issued: bool) {
    if issued then |after| == |before| + 1 && after[..|before|] == before && Commands(after[|before|], program, page, offset)
    else after == before
  }

  class Writer {
    const chip: Chip
    const reader: Reader
    const executor: Executor
    const used: array<byte>
    const check: array<byte>
    const staged: array<byte>
    var known: nat
    var status: Status
    /** Verified erases and program commands so far. */
    ghost var trace: seq<Deed>
    /** What the two pages hold as far as the caller was told. */
    ghost var image: seq<byte>

    ghost predicate Wired()
      reads this
    {
      && chip.cells.Length == SIZE && reader.chip == chip && executor.chip == chip
      && used.Length == 128 && check.Length == READ_MAX && staged.Length == 4 && reader.staging.Length == READ_MAX
      && used != check && used != staged && check != staged
      && used != chip.cells && check != chip.cells && staged != chip.cells
      && reader.staging != used && reader.staging != check && reader.staging != staged && reader.staging != chip.cells
    }

    ghost predicate Valid()
      reads this, used, chip.cells
    {
      Wired() && |image| == SIZE && History(known, trace, used[..]) && (status.result == WriteOk ==> Faithful(known, image, chip.cells[..], used[..]))
    }

    constructor ()
      ensures Valid() && known == 0 && trace == [] && status.result == WriteOk
      ensures fresh(used) && fresh(check) && fresh(staged) && fresh(chip) && fresh(chip.cells) && fresh(reader)
              && fresh(reader.staging) && fresh(executor)
    {
      var c := new Chip();
      var r := new Reader(c);
      var x := new Executor(c);
      chip, reader, executor := c, r, x;
      used := new byte[128](_ => 0);
      check := new byte[READ_MAX](_ => 0);
      staged := new byte[4](_ => 0);
      known, trace := 0, [];
      status := Status(WriteOk, false, 0, 0, NotStarted);
      image := seq(SIZE, _ => ERASED);
    }

    method Fail(why: WriteResult) returns (r: WriteResult)
      modifies `status
      ensures r == why && status == old(status).(result := why)
    {
      status := status.(result := why);
      r := why;
    }

    /** Marks a word as attempted, before the command is given. */
    method Consume(page: nat, word: nat)
      requires Wired() && page < PAGES && word < WORDS
      modifies used
      ensures forall p, w :: 0 <= p < PAGES && 0 <= w < WORDS ==>
                (Marked(used[..], p, w) <==> (p == page && w == word) || old(Marked(used[..], p, w)))
    {
      MarkOne(used[..], page, word);
      var index := page * 64 + word / 8;
      ghost var before := used[..];
      used[index] := used[index] | Bit(word % 8);
      assert used[..] == before[index := before[index] | Bit(word % 8)];
    }

    /** Reads the bytes just commanded and compares them; the whole page after an erase, four bytes after a program. */
    method Verify(program: bool, page: nat, offset: nat) returns (r: WriteResult, ghost wrong: nat)
      requires Wired() && page < PAGES && offset < PAGE_SIZE && offset % 4 == 0 && (!program ==> offset == 0)
      modifies check, reader, reader.staging, chip`bank
      ensures r == WriteOk || r == ReaderFailed || r == VerifyFailed
      ensures (r == ReaderFailed ==> reader.fault != ReadOk) && executor.latch == old(executor.latch)
      ensures r == WriteOk && program ==> chip.cells[Cell(page, offset)..Cell(page, offset) + 4] == staged[..]
      ensures r == WriteOk && !program ==> AllErased(chip.cells[..], page * PAGE_SIZE, (page + 1) * PAGE_SIZE)
      ensures r == VerifyFailed && program ==>
                FirstWrong(chip.cells[Cell(page, offset)..Cell(page, offset) + 4], staged[..], wrong)
      ensures r == VerifyFailed && !program ==>
                Cell(page, 0) <= wrong < Cell(page, PAGE_SIZE) && FirstUnerased(chip.cells[..], Cell(page, 0), wrong)
    {
      wrong := 0;
      var position := offset;
      var length := if program then 4 else READ_MAX;
      while true
        invariant offset <= position < PAGE_SIZE && position + length <= PAGE_SIZE && (program ==> position == offset)
        invariant !program ==> position % READ_MAX == 0 && AllErased(chip.cells[..], page * PAGE_SIZE, Cell(page, position))
        decreases PAGE_SIZE - position
      {
        var read := reader.Read(page, position, check, length);
        if read != ReadOk { return ReaderFailed, 0; }
        var same, at := Compare(program, length);
        if !same {
          if program {
            assert chip.cells[Cell(page, offset)..Cell(page, offset) + 4] == check[..4];
            assert FirstWrong(check[..4], staged[..], at);
          } else {
            Wrong(chip.cells[..], check[..length], page, position, at);
          }
          return VerifyFailed, if program then at else Cell(page, position) + at;
        }
        if program {
          assert chip.cells[Cell(page, offset)..Cell(page, offset) + 4] == check[..4] == staged[..4] == staged[..];
          return WriteOk, 0;
        }
        Chunk(chip.cells[..], check[..length], page, position);
        position := position + length;
        if position >= PAGE_SIZE { return WriteOk, 0; }
      }
    }

    /** The bytes read against the staged word, or against erased flash, up to the first that differs. */
    method Compare(program: bool, length: nat) returns (same: bool, at: nat)
      requires Wired() && length == if program then 4 else READ_MAX
      ensures at <= length && (same <==> at == length)
      ensures forall k :: 0 <= k < at ==> check[k] == if program then staged[k] else ERASED
      ensures !same ==> check[at] != if program then staged[at] else ERASED
      ensures same && program ==> check[..4] == staged[..]
    {
      same := true;
      for i := 0 to length
        invariant forall k :: 0 <= k < i ==> check[k] == if program then staged[k] else ERASED
      {
        if check[i] != if program then staged[i] else ERASED { return false, i; }
      }
      at := length;
    }

    /** The bit of a page in the set of pages with a known history. */
    method Know(page: nat, on: bool)
      requires page < PAGES && known < 4
      modifies `known
      ensures known < 4 && KnownIn(known, page) == on && KnownIn(known, 1 - page) == old(KnownIn(known, 1 - page))
    {
      var other := if page == 0 then known / 2 % 2 else known % 2;
      var this_ := if on then 1 else 0;
      known := if page == 0 then this_ + 2 * other else other + 2 * this_;
    }

    /** Forgets the attempts of a page that has just been verified erased. */
    method Forget(page: nat)
      requires Wired() && page < PAGES
      modifies used
      ensures Cleared(old(used[..]), used[..], page)
    {
      for i := 0 to 64
        invariant forall k :: page * 64 <= k < page * 64 + i ==> used[k] == 0
        invariant forall k :: 0 <= k < 128 && !(page * 64 <= k < (page + 1) * 64) ==> used[k] == old(used[k])
      {
        used[page * 64 + i] := 0;
      }
    }

    /** The command of an admitted operation; running out of polls leaves the operation pending for good. */
    method Give(program: bool, page: nat, offset: nat, limit: nat) returns (r: WriteResult, issued: bool)
      requires Wired() && page < PAGES && offset < PAGE_SIZE && offset % 4 == 0 && (!program ==> offset == 0)
      modifies `status, executor, chip.cells, chip`bank
      ensures r == WriteOk || r == ExecutorFailed || r == Pending
      ensures status == old(status).(phase := Commanding, result := status.result)
      ensures status.result == if r == ExecutorFailed then ExecutorFailed else old(status.result)
      ensures r == WriteOk ==> issued
      ensures Ordered(program, page, offset, old(executor.given), executor.given, issued)
      ensures (r == Pending ==> executor.latch == RamStop) && (r == ExecutorFailed ==> executor.latch != ExecIdle || limit == 0 || limit >= 0x1_0000)
      ensures !issued ==> chip.cells[..] == old(chip.cells[..])
      ensures var from, count := Cell(page, offset), if program then 4 else PAGE_SIZE;
              from + count <= SIZE
              && forall k :: 0 <= k < SIZE && !(from <= k < from + count) ==> chip.cells[k] == old(chip.cells[k])
    {
      status := status.(phase := Commanding);
      var x;
      x, issued := executor.Command(program, page, offset, limit);
      if x == RamStop { return Pending, issued; }
      if x != ExecIdle {
        r := Fail(ExecutorFailed);
        return;
      }
      r := WriteOk;
    }

    /** One attempt on a word of a known page that has not been attempted since the page was verified erased. */
    method ProgramWord(page: nat, offset: nat, limit: nat) returns (r: WriteResult)
      requires Valid() && status.result == WriteOk && page < PAGES && offset < PAGE_SIZE && offset % 4 == 0
      requires KnownIn(known, page) && !Marked(used[..], page, offset / 4)
      modifies this, used, check, reader, reader.staging, executor, chip.cells, chip`bank
      ensures Valid() && r == status.result && Admitted(r) && known == old(known)
      ensures trace == old(trace) || trace == old(trace) + [Programmed(page, offset / 4)]
      ensures r == WriteOk ==> trace == old(trace) + [Programmed(page, offset / 4)] && |executor.given| == |old(executor.given)| + 1
                               && image == Written(old(image), Cell(page, offset), staged[..])
      ensures r != WriteOk ==> image == old(image)
      ensures staged[..] == old(staged[..])
      ensures Explained(r, executor.latch, reader.fault, limit)
      ensures r == NotErased ==> old(chip.cells[Cell(page, offset)..Cell(page, offset) + 4]) != [ERASED, ERASED, ERASED, ERASED]
      ensures Ordered(true, page, offset, old(executor.given), executor.given, |executor.given| > |old(executor.given)|)
      ensures r == VerifyFailed ==> chip.cells[Cell(page, offset)..Cell(page, offset) + 4] != staged[..]
      ensures r == WriteOk ==> forall p, w :: 0 <= p < PAGES && 0 <= w < WORDS ==>
                                 (Marked(used[..], p, w) <==> (p == page && w == offset / 4) || old(Marked(used[..], p, w)))
    {
      hide History, Faithful, Marked, Attempts, OnceOnly, AllErased;
      ghost var trace0, used0, cells0 := trace, used[..], chip.cells[..];
      status := Status(Pending, true, page, offset, Preflight);
      var read := reader.Read(page, offset, check, 4);
      if read != ReadOk {
        r := Fail(ReaderFailed);
        return;
      }
      assert check[..4] == [check[0], check[1], check[2], check[3]];
      if check[0] != ERASED || check[1] != ERASED || check[2] != ERASED || check[3] != ERASED {
        r := Fail(NotErased);
        return;
      }
      Consume(page, offset / 4);
      HistoryMarks(known, trace0, used0, used[..], page, offset / 4);
      r := Attempt(page, offset, limit);
      if r != WriteOk { return; }
      FaithfulWritten(known, image, cells0, chip.cells[..], used0, used[..], page, offset, staged[..]);
      image := Written(image, Cell(page, offset), staged[..]);
      status := status.(phase := Finished, result := WriteOk);
    }

    /** The command and its verification; the attempt stays on record whatever comes of it. */
    method Attempt(page: nat, offset: nat, limit: nat) returns (r: WriteResult)
      requires Wired() && page < PAGES && offset < PAGE_SIZE && offset % 4 == 0 && status.result == Pending
      requires History(known, trace, used[..]) && History(known, trace + [Programmed(page, offset / 4)], used[..])
      modifies `status, `trace, check, reader, reader.staging, executor, chip.cells, chip`bank
      ensures History(known, trace, used[..])
      ensures trace == old(trace) || trace == old(trace) + [Programmed(page, offset / 4)]
      ensures r == WriteOk ==> |executor.given| == |old(executor.given)| + 1
      ensures r == WriteOk ==> trace == old(trace) + [Programmed(page, offset / 4)] && status.result == Pending
                               && chip.cells[Cell(page, offset)..Cell(page, offset) + 4] == staged[..]
      ensures Admitted(r) && (r != WriteOk ==> r == status.result)
      ensures r != NotErased && Explained(r, executor.latch, reader.fault, limit)
      ensures Ordered(true, page, offset, old(executor.given), executor.given, |executor.given| > |old(executor.given)|)
      ensures r == VerifyFailed ==> chip.cells[Cell(page, offset)..Cell(page, offset) + 4] != staged[..]
      ensures forall k :: 0 <= k < SIZE && !(Cell(page, offset) <= k < Cell(page, offset) + 4) ==> chip.cells[k] == old(chip.cells[k])
    {
      hide History, Marked, Attempts, OnceOnly, AllErased;
      var issued;
      r, issued := Give(true, page, offset, limit);
      if issued { trace := trace + [Programmed(page, offset / 4)]; }
      if r != WriteOk { return; }
      status := status.(phase := Verifying);
      ghost var wrong;
      r, wrong := Verify(true, page, offset);
      if r != WriteOk { r := Fail(r); }
    }

    /** The page's history is unknown from before the command until every byte has been read back erased. */
    method ErasePage(page: nat, limit: nat) returns (r: WriteResult)
      requires Valid() && status.result == WriteOk && page < PAGES
      modifies this, used, check, reader, reader.staging, executor, chip.cells, chip`bank
      ensures Valid() && r == status.result && Admitted(r) && KnownIn(known, 1 - page) == old(KnownIn(known, 1 - page))
      ensures trace == if r == WriteOk then old(trace) + [Verified(page)] else old(trace)
      ensures image == if r == WriteOk then Blanked(old(image), page) else old(image)
      ensures KnownIn(known, page) ==> r == WriteOk || old(KnownIn(known, page))
      ensures r == WriteOk ==> KnownIn(known, page) && |executor.given| == |old(executor.given)| + 1
      ensures r != NotErased && Explained(r, executor.latch, reader.fault, limit)
      ensures Ordered(false, page, 0, old(executor.given), executor.given, |executor.given| > |old(executor.given)|)
      ensures r == VerifyFailed ==> !AllErased(chip.cells[..], page * PAGE_SIZE, (page + 1) * PAGE_SIZE)
      ensures r == WriteOk ==> Cleared(old(used[..]), used[..], page)
    {
      hide Faithful, Marked, Attempts, OnceOnly, Blanked, Cleared, AllErased;
      ghost var known0, trace0, used0, cells0 := known, trace, used[..], chip.cells[..];
      status := Status(Pending, false, page, 0, Preflight);
      var read := reader.Read(page, 0, check, 1);
      if read != ReadOk {
        r := Fail(ReaderFailed);
        return;
      }
      Know(page, false);
      r := Erase(page, limit);
      if r != WriteOk { return; }
      Forget(page);
      Know(page, true);
      HistoryCleared(known0, known, trace0, used0, used[..], page);
      FaithfulBlanked(known0, known, image, cells0, chip.cells[..], used0, used[..], page);
      trace := trace + [Verified(page)];
      image := Blanked(image, page);
      status := status.(phase := Finished, result := WriteOk);
    }

    method Erase(page: nat, limit: nat) returns (r: WriteResult)
      requires Wired() && page < PAGES && status.result == Pending
      modifies `status, check, reader, reader.staging, executor, chip.cells, chip`bank
      ensures r == WriteOk ==> |executor.given| == |old(executor.given)| + 1
      ensures r == WriteOk ==> status.result == Pending && AllErased(chip.cells[..], page * PAGE_SIZE, (page + 1) * PAGE_SIZE)
      ensures r != NotErased && Explained(r, executor.latch, reader.fault, limit)
      ensures Ordered(false, page, 0, old(executor.given), executor.given, |executor.given| > |old(executor.given)|)
      ensures r == VerifyFailed ==> !AllErased(chip.cells[..], page * PAGE_SIZE, (page + 1) * PAGE_SIZE)
      ensures Admitted(r) && (r != WriteOk ==> r == status.result)
      ensures forall k :: 0 <= k < SIZE && !(page * PAGE_SIZE <= k < (page + 1) * PAGE_SIZE) ==> chip.cells[k] == old(chip.cells[k])
    {
      hide AllErased;
      var issued;
      r, issued := Give(false, page, 0, limit);
      if r != WriteOk { return; }
      status := status.(phase := Verifying);
      ghost var wrong;
      r, wrong := Verify(false, page, 0);
      if r == VerifyFailed { NotErasedAt(chip.cells[..], page * PAGE_SIZE, (page + 1) * PAGE_SIZE, wrong); }
      if r != WriteOk { r := Fail(r); }
    }

    /** Copies the caller's word into the writer's own buffer. */
    method Stage(word: seq<byte>)
      requires Wired() && |word| == 4
      modifies staged
      ensures staged[..] == word
    {
      for i := 0 to 4
        invariant staged[..i] == word[..i]
      {
        staged[i] := word[i];
      }
      assert staged[..] == staged[..4];
    }

    /**
     Any operation. A retained failure, a bad argument, an unknown history and a used word change nothing;
     an admitted operation either succeeds completely or leaves its failure retained.
     */
    method Operate(program: bool, page: nat, offset: nat, word: seq<byte>, limit: nat) returns (r: WriteResult)
      requires Valid() && |word| == 4 && (!program ==> offset == 0)
      modifies this, used, check, staged, reader, reader.staging, executor, chip.cells, chip`bank
      ensures Valid()
      ensures r == if old(status.result) != WriteOk then old(status.result)
                   else if limit == 0 then WriteArgument
                   else if page >= PAGES || offset >= PAGE_SIZE || offset % 4 != 0 then WriteRange
                   else if program && !old(KnownIn(known, page)) then HistoryUnknown
                   else if program && old(Marked(used[..], page, offset / 4)) then WordUsed
                   else status.result
      ensures old(status.result) != WriteOk ==> status == old(status)
      ensures r == WriteArgument || r == WriteRange || r == HistoryUnknown || r == WordUsed || old(status.result) != WriteOk ==>
                known == old(known) && trace == old(trace) && image == old(image) && used[..] == old(used[..])
                && chip.cells[..] == old(chip.cells[..])
      ensures old(trace) <= trace && |trace| <= |old(trace)| + 1
      ensures r == WriteOk && program ==> trace == old(trace) + [Programmed(page, offset / 4)]
                                          && image == Written(old(image), Cell(page, offset), word)
      ensures r == WriteOk && !program ==> trace == old(trace) + [Verified(page)] && image == Blanked(old(image), page)
                                           && KnownIn(known, page)
      ensures r != WriteOk ==> image == old(image) && (!program ==> trace == old(trace))
      ensures old(status.result) == WriteOk ==>
                && r != NotErased && Explained(r, executor.latch, reader.fault, limit)
                && (r == VerifyFailed && program ==> chip.cells[Cell(page, offset)..Cell(page, offset) + 4] != word)
                && (r == VerifyFailed && !program ==> !AllErased(chip.cells[..], page * PAGE_SIZE, (page + 1) * PAGE_SIZE))
                && (r == WriteOk && program ==> known == old(known))
                && (r == WriteOk && program ==> forall p, w :: 0 <= p < PAGES && 0 <= w < WORDS ==>
                      (Marked(used[..], p, w) <==> (p == page && w == offset / 4) || old(Marked(used[..], p, w))))
                && (r == WriteOk && !program ==> Cleared(old(used[..]), used[..], page)
                                                 && KnownIn(known, 1 - page) == old(KnownIn(known, 1 - page)))
      ensures Ordered(program, page, offset, old(executor.given), executor.given, |executor.given| > |old(executor.given)|)
      ensures r == WriteOk ==> |executor.given| == |old(executor.given)| + 1
    {
      hide History, Faithful, Marked, Attempts, OnceOnly, Blanked, AllErased, KnownIn;
      if status.result != WriteOk { return status.result; }
      if limit == 0 { return WriteArgument; }
      if page >= PAGES || offset >= PAGE_SIZE || offset % 4 != 0 { return WriteRange; }
      if program {
        if !KnownIn(known, page) { return HistoryUnknown; }
        if Marked(used[..], page, offset / 4) { return WordUsed; }
        UnusedReads(known, image, chip.cells[..], used[..], page, offset);
        Stage(word);
        r := ProgramWord(page, offset, limit);
      } else {
        r := ErasePage(page, limit);
      }
    }

    /** Erases one page. */
    method NvErase(page: nat, limit: nat) returns (r: WriteResult)
      requires Valid()
      modifies this, used, check, staged, reader, reader.staging, executor, chip.cells, chip`bank
      ensures Valid()
      ensures r == WriteOk ==> old(status.result) == WriteOk && page < PAGES && KnownIn(known, page)
                               && image == Blanked(old(image), page) && trace == old(trace) + [Verified(page)]
      ensures r != WriteOk ==> trace == old(trace) && image == old(image)
    {
      r := Operate(false, page, 0, [0, 0, 0, 0], limit);
    }

    /** Programs one word, at most once between verified erases of its page. */
    method NvProgram(page: nat, offset: nat, word: seq<byte>, limit: nat) returns (r: WriteResult)
      requires Valid() && |word| == 4
      modifies this, used, check, staged, reader, reader.staging, executor, chip.cells, chip`bank
      ensures Valid()
      ensures r == WriteOk ==> old(status.result) == WriteOk && page < PAGES && offset < PAGE_SIZE && offset % 4 == 0
                               && old(KnownIn(known, page)) && !old(Marked(used[..], page, offset / 4))
                               && image == Written(old(image), Cell(page, offset), word)
                               && trace == old(trace) + [Programmed(page, offset / 4)]
      ensures r != WriteOk ==> image == old(image)
    {
      r := Operate(true, page, offset, word, limit);
    }
  }

  /** A word of a known page that was never attempted is still erased: the preflight of a program cannot find it otherwise. */
  lemma UnusedReads(known: nat, image: seq<byte>, cells: seq<byte>, used: seq<byte>, page: nat, offset: nat)
    requires |cells| == SIZE && |used| == 128 && Faithful(known, image, cells, used) && KnownIn(known, page)
    requires page < PAGES && offset < PAGE_SIZE && offset % 4 == 0 && !Marked(used, page, offset / 4)
    ensures cells[Cell(page, offset)..Cell(page, offset) + 4] == [ERASED, ERASED, ERASED, ERASED]
  {
    assert PageFaithful(image, cells, used, page);
    assert WordErased(image, page, offset / 4);
    hide Marked, Faithful;
    var at := Cell(page, offset);
    assert cells[at] == image[at] == ERASED && cells[at + 1] == image[at + 1] == ERASED;
    assert cells[at + 2] == image[at + 2] == ERASED && cells[at + 3] == image[at + 3] == ERASED;
  }

  lemma NotErasedAt(cells: seq<byte>, from: nat, until: nat, k: nat)
    requires from <= k < until && FirstUnerased(cells, from, k)
    ensures !AllErased(cells, from, until)
  {
  }

  lemma Chunk(cells: seq<byte>, read: seq<byte>, page: nat, position: nat)
    requires |cells| == SIZE && page < PAGES && position + READ_MAX <= PAGE_SIZE && |read| == READ_MAX
    requires read == cells[Cell(page, position)..Cell(page, position) + READ_MAX]
    requires AllErased(cells, page * PAGE_SIZE, Cell(page, position)) && AllErased(read, 0, READ_MAX)
    ensures AllErased(cells, page * PAGE_SIZE, Cell(page, position + READ_MAX))
  {
    var at := Cell(page, position);
    forall k | page * PAGE_SIZE <= k < at + READ_MAX && k < |cells|
      ensures cells[k] == ERASED
    {
      if k >= at {
        assert cells[k] == read[k - at];
      }
    }
  }

  /** The first wrong byte of a chunk is the first wrong cell of the page, everything before the chunk being erased. */
  lemma Wrong(cells: seq<byte>, read: seq<byte>, page: nat, position: nat, at: nat)
    requires |cells| == SIZE && page < PAGES && position + READ_MAX <= PAGE_SIZE && |read| == READ_MAX && at < READ_MAX
    requires read == cells[Cell(page, position)..Cell(page, position) + READ_MAX]
    requires AllErased(cells, page * PAGE_SIZE, Cell(page, position)) && AllErased(read, 0, at) && read[at] != ERASED
    ensures Cell(page, 0) <= Cell(page, position) + at < Cell(page, PAGE_SIZE)
    ensures FirstUnerased(cells, Cell(page, 0), Cell(page, position) + at)
  {
    var first := Cell(page, position);
    forall k | page * PAGE_SIZE <= k < first + at && k < |cells|
      ensures cells[k] == ERASED
    {
      if k >= first {
        assert cells[k] == read[k - first];
      }
    }
  }

  lemma Nothing(b: byte)
    ensures 0 & b == 0
  {
  }

  /** The image after a verified program. */
  function Written(image: seq<byte>, at: nat, word: seq<byte>): (s: seq<byte>)
    requires at + |word| <= |image|
    ensures |s| == |image|
  {
    image[..at] + word + image[at + |word|..]
  }

  /** The image after a verified erase. */
  function Blanked(image: seq<byte>, page: nat): (s: seq<byte>)
    requires |image| == SIZE && page < PAGES
    ensures |s| == SIZE
  {
    seq(SIZE, k requires 0 <= k < SIZE => if page * PAGE_SIZE <= k < (page + 1) * PAGE_SIZE then ERASED else image[k])
  }

  /** One page's half of the bitmap zeroed, the other untouched. */
  predicate Cleared(before: seq<byte>, after: seq<byte>, page: nat)
    requires |before| == |after| == 128 && page < PAGES
  {
    && (forall k :: page * 64 <= k < (page + 1) * 64 ==> after[k] == 0)
    && (forall k :: 0 <= k < 128 && !(page * 64 <= k < (page + 1) * 64) ==> after[k] == before[k])
  }

  lemma ClearedMarks(before: seq<byte>, after: seq<byte>, page: nat, p: nat, w: nat)
    requires |before| == |after| == 128 && page < PAGES && p < PAGES && w < WORDS && Cleared(before, after, page)
    ensures Marked(after, p, w) <==> p != page && Marked(before, p, w)
  {
    Nothing(Bit(w % 8));
  }

  /** Marking a fresh word keeps the history, with or without its attempt. */
  lemma HistoryMarks(known: nat, trace: seq<Deed>, before: seq<byte>, after: seq<byte>, page: nat, word: nat)
    requires |before| == |after| == 128 && page < PAGES && word < WORDS
    requires History(known, trace, before) && !Marked(before, page, word)
    requires forall p, w :: 0 <= p < PAGES && 0 <= w < WORDS ==>
               (Marked(after, p, w) <==> (p == page && w == word) || Marked(before, p, w))
    ensures History(known, trace, after) && History(known, trace + [Programmed(page, word)], after)
  {
    var d := Programmed(page, word);
    assert word !in Attempts(trace, page);
    OnceGrows(trace, d);
    AttemptsGrow(trace, d, 0);
    AttemptsGrow(trace, d, 1);
    hide Marked, Attempts, OnceOnly;
  }

  lemma HistoryCleared(known: nat, knownAfter: nat, trace: seq<Deed>, before: seq<byte>, after: seq<byte>, page: nat)
    requires |before| == |after| == 128 && page < PAGES && knownAfter < 4
    requires History(known, trace, before) && Cleared(before, after, page)
    ensures History(knownAfter, trace + [Verified(page)], after)
  {
    var d := Verified(page);
    OnceGrows(trace, d);
    AttemptsGrow(trace, d, 0);
    AttemptsGrow(trace, d, 1);
    hide Marked, Attempts, OnceOnly, Cleared;
    forall p, w | 0 <= p < PAGES && w in Attempts(trace + [d], p)
      ensures 0 <= w < WORDS && Marked(after, p, w)
    {
      assert p != page && w in Attempts(trace, p);
      ClearedMarks(before, after, page, p, w);
    }
  }

  /** A verified program keeps every known page faithful. */
  lemma FaithfulWritten(known: nat, image: seq<byte>, before: seq<byte>, after: seq<byte>, used: seq<byte>, marked: seq<byte>,
                        page: nat, offset: nat, word: seq<byte>)
    requires |before| == |after| == SIZE && |used| == |marked| == 128 && page < PAGES
    requires offset < PAGE_SIZE && offset % 4 == 0 && |word| == 4 && Faithful(known, image, before, used)
    requires forall k :: 0 <= k < SIZE && !(Cell(page, offset) <= k < Cell(page, offset) + 4) ==> after[k] == before[k]
    requires after[Cell(page, offset)..Cell(page, offset) + 4] == word
    requires forall p, w :: 0 <= p < PAGES && 0 <= w < WORDS ==>
               (Marked(marked, p, w) <==> (p == page && w == offset / 4) || Marked(used, p, w))
    ensures Faithful(known, Written(image, Cell(page, offset), word), after, marked)
  {
    var at := Cell(page, offset);
    var next := Written(image, at, word);
    hide Marked;
    forall k | 0 <= k < SIZE
      ensures next[k] == if at <= k < at + 4 then after[k] else image[k]
    {
      if at <= k < at + 4 {
        assert after[at..at + 4][k - at] == after[k];
      }
    }
    hide Written;
    forall p, w | 0 <= p < PAGES && KnownIn(known, p) && 0 <= w < WORDS && !Marked(marked, p, w)
      ensures WordErased(next, p, w)
    {
      assert !Marked(used, p, w) && !(p == page && w == offset / 4);
      assert PageFaithful(image, before, used, p);
      assert WordErased(image, p, w);
    }
  }

  /** A verified erase makes its page known and faithful and leaves the other as it was. */
  lemma FaithfulBlanked(known: nat, knownAfter: nat, image: seq<byte>, before: seq<byte>, after: seq<byte>, used: seq<byte>,
                        cleared: seq<byte>, page: nat)
    requires |before| == |after| == SIZE && |used| == |cleared| == 128 && page < PAGES
    requires Faithful(known, image, before, used) && Cleared(used, cleared, page)
    requires KnownIn(knownAfter, 1 - page) ==> KnownIn(known, 1 - page)
    requires forall k :: 0 <= k < SIZE && !(page * PAGE_SIZE <= k < (page + 1) * PAGE_SIZE) ==> after[k] == before[k]
    requires AllErased(after, page * PAGE_SIZE, (page + 1) * PAGE_SIZE)
    ensures Faithful(knownAfter, Blanked(image, page), after, cleared)
  {
    var next := Blanked(image, page);
    hide Cleared;
    assert PageFaithful(next, after, cleared, page);
    var other: nat := 1 - page;
    if KnownIn(knownAfter, other) {
      assert PageFaithful(image, before, used, other);
      forall w | 0 <= w < WORDS && !Marked(cleared, other, w)
        ensures WordErased(next, other, w)
      {
        ClearedMarks(used, cleared, page, other, w);
        assert WordErased(image, other, w);
      }
      assert PageFaithful(next, after, cleared, other);
    }
  }

  /** Every word of a known page reads as erased if it was not used and as the image says otherwise. */
  lemma ReadsBack(known: nat, image: seq<byte>, cells: seq<byte>, used: seq<byte>, page: nat, offset: nat, length: nat)
    requires |cells| == SIZE && |used| == 128 && Faithful(known, image, cells, used)
    requires page < PAGES && KnownIn(known, page) && offset + length <= PAGE_SIZE
    ensures cells[Cell(page, offset)..Cell(page, offset) + length] == image[Cell(page, offset)..Cell(page, offset) + length]
    ensures forall w :: 0 <= w < WORDS && !Marked(used, page, w) ==>
              AllErased(cells, Cell(page, 4 * w), Cell(page, 4 * w) + 4)
  {
    assert PageFaithful(image, cells, used, page);
    forall w | 0 <= w < WORDS && !Marked(used, page, w)
      ensures AllErased(cells, Cell(page, 4 * w), Cell(page, 4 * w) + 4)
    {
      assert WordErased(image, page, w);
    }
  }
}
/** BuildImage: boot code, load table and padded programs in one image. */
module BuildImage {
  import opened Disk

  const N_INFO: nat := 256
  const MEMORY_TOP: int := 0x9FFFF

  /** A program file and its numeric load address. */
  datatype Program = Program(contents: seq<byte>, address: int)

  datatype Complaint = Usage | InvalidAddress | TooLarge | TooManyPrograms | BootTooShort | TableOverlap

  datatype Option<T> = None | Some(value: T)

  datatype Result = Built(image: seq<byte>) | Rejected(why: Complaint)

  /** The three words of a program, in the order in which they lie in the table. */
  function Entry(p: Program): (ws: seq<word>)
    ensures |ws| == 3
  {
    [p.address % 16, p.address / 16 % 0x1_0000, Sectors(p.contents) % 0x1_0000]
  }

  /** The table grows downwards: the first program's entry is the last. */
  function Table(ps: seq<Program>): (ws: seq<word>)
    ensures |ws| == 3 * |ps|
  {
    if ps == [] then [] else Entry(ps[|ps| - 1]) + Table(ps[..|ps| - 1])
  }

  /** The programs, each padded to full sectors. */
  function Body(ps: seq<Program>): (s: seq<byte>)
    ensures |s| == TotalSectors(ps) * SECTOR
  {
    if ps == [] then [] else Body(ps[..|ps| - 1]) + Padded(ps[|ps| - 1].contents)
  }

  function TotalSectors(ps: seq<Program>): nat {
    if ps == [] then 0 else TotalSectors(ps[..|ps| - 1]) + Sectors(ps[|ps| - 1].contents)
  }

  /** The image: the table ends where the boot code ends. */
  function Image(boot: seq<byte>, ps: seq<Program>): (s: seq<byte>)
    requires 6 * |ps| <= |Padded(boot)|
    ensures |s| == (Sectors(boot) + TotalSectors(ps)) * SECTOR
  {
    Deposit(Padded(boot), |Padded(boot)| - 6 * |ps|, Bytes(Table(ps))) + Body(ps)
  }

  /** The complaint about program number `n`. */
  function Fault(p: Program, n: nat): Option<Complaint> {
    if p.address > MEMORY_TOP then Some(InvalidAddress)
    else if p.address + Sectors(p.contents) * SECTOR > MEMORY_TOP then Some(TooLarge)
    else if n >= N_INFO / 3 then Some(TooManyPrograms)
    else None
  }

  /** The first complaint about the programs from number `n` on. */
  function FirstFault(ps: seq<Program>, n: nat): Option<Complaint>
    requires n <= |ps|
    decreases |ps| - n
  {
    if n == |ps| then None
    else if Fault(ps[n], n).Some? then Fault(ps[n], n)
    else FirstFault(ps, n + 1)
  }

  /** Programs are accepted exactly when there are at most 85 and each one ends at or below the top of memory. */
  lemma {:induction false} AcceptedIff(ps: seq<Program>, n: nat)
    requires n <= |ps|
    ensures FirstFault(ps, n) == None <==>
            (n == |ps| || |ps| <= N_INFO / 3)
            && forall i :: n <= i < |ps| ==> ps[i].address + Sectors(ps[i].contents) * SECTOR <= MEMORY_TOP
    decreases |ps| - n
  {
    if n < |ps| {
      AcceptedIff(ps, n + 1);
    }
  }

  /** Nothing but zeros from here to the end. */
  predicate BlankFrom(s: seq<byte>, start: nat) {
    forall k :: start <= k < |s| ==> s[k] == 0
  }

  /** What comes of a build. */
  function BuildResult(boot: seq<byte>, ps: seq<Program>): Result {
    if ps == [] then Rejected(Usage)
    else if FirstFault(ps, 0).Some? then Rejected(FirstFault(ps, 0).value)
    else if |Padded(boot)| < 6 * |ps| then Rejected(BootTooShort)
    else if !BlankFrom(Padded(boot), |Padded(boot)| - 6 * |ps|) then Rejected(TableOverlap)
    else Built(Image(boot, ps))
  }

  class Builder {
    var out: seq<byte>  // the output file
    const info: array<word>
    var nInfo: nat

    ghost predicate Valid()
      reads this
    {
      info.Length == N_INFO && nInfo <= N_INFO
    }

    constructor ()
      ensures Valid() && out == [] && nInfo == N_INFO && fresh(info)
    {
      out := [];
      info := new word[N_INFO](_ => 0);
      nInfo := N_INFO;
    }

    /** copy_file: whole sectors, the last one filled up with nulls. */
    method CopyFile(contents: seq<byte>) returns (sectors: nat)
      modifies `out
      ensures out == old(out) + Padded(contents) && sectors == Sectors(contents)
    {
      sectors := 0;
      var at := 0;
      while at < |contents|
        invariant at <= |contents| && sectors == Sectors(contents[..at])
        invariant at % SECTOR == 0 || at == |contents|
        invariant out == old(out) + Padded(contents[..at])
      {
        var next := if at + SECTOR <= |contents| then at + SECTOR else |contents|;
        var buf := Fill(contents[at..next]);
        NextBlock(contents, at, next);
        out := out + buf;
        sectors := sectors + 1;
        at := next;
      }
      assert contents[..at] == contents;
    }

    /** One buffer, filled up with nulls. */
    method Fill(part: seq<byte>) returns (buf: seq<byte>)
      requires |part| <= SECTOR
      ensures buf == part + Zeros(SECTOR - |part|)
    {
      buf := part;
      while |buf| < SECTOR
        invariant |part| <= |buf| <= SECTOR && buf == part + Zeros(|buf| - |part|)
      {
        buf := buf + [0];
      }
    }

    /** process_file, for a numeric address. */
    method ProcessFile(p: Program, ghost done: seq<Program>) returns (fault: Option<Complaint>)
      requires Valid() && nInfo == N_INFO - 3 * |done| && info[nInfo..] == Table(done)
      modifies this, info
      ensures Valid() && fault == Fault(p, |done|) && out == old(out) + Padded(p.contents)
      ensures fault == None ==> nInfo == N_INFO - 3 * |done + [p]| && info[nInfo..] == Table(done + [p])
    {
      assert (done + [p])[|done|] == p && (done + [p])[..|done|] == done;
      var n := CopyFile(p.contents);
      if p.address > MEMORY_TOP {
        return Some(InvalidAddress);
      }
      if p.address + n * SECTOR > MEMORY_TOP {
        return Some(TooLarge);
      }
      if nInfo < 3 {
        return Some(TooManyPrograms);
      }
      var segment: word := p.address / 16 % 0x1_0000;
      Record(n % 0x1_0000, segment, p.address % 16);
      return None;
    }

    /** The three stores into the table. */
    method Record(count: word, segment: word, offset: word)
      requires Valid() && nInfo >= 3
      modifies `nInfo, info
      ensures Valid() && nInfo == old(nInfo) - 3
      ensures info[nInfo..] == [offset, segment, count] + old(info[nInfo..])
    {
      nInfo := nInfo - 1;
      info[nInfo] := count;
      nInfo := nInfo - 1;
      info[nInfo] := segment;
      nInfo := nInfo - 1;
      info[nInfo] := offset;
    }

    /** main, after the arguments have been split up; errors of the file system are left out. */
    method Build(boot: seq<byte>, programs: seq<Program>) returns (r: Result)
      requires Valid() && out == [] && nInfo == N_INFO
      modifies this, info
      ensures r == BuildResult(boot, programs)
    {
      hide Fault, Table, Body, Padded, Sectors, Image;
      if programs == [] {
        return Rejected(Usage);
      }
      var bootSectors := CopyFile(boot);
      EmptyLayout();
      var n := 0;
      while n < |programs|
        invariant n <= |programs| && Valid() && FirstFault(programs, 0) == FirstFault(programs, n)
        invariant nInfo == N_INFO - 3 * n && info[nInfo..] == Table(programs[..n])
        invariant out == Padded(boot) + Body(programs[..n])
      {
        Grown(boot, programs, n);
        var fault := ProcessFile(programs[n], programs[..n]);
        if fault.Some? {
          return Rejected(fault.value);
        }
        n := n + 1;
      }
      assert programs[..n] == programs;
      r := Patch(bootSectors * SECTOR, boot, programs);
    }

    /** The end of main: the table goes into the boot code, where there must be nothing but zeros so far. */
    method Patch(bootSize: nat, ghost boot: seq<byte>, ghost programs: seq<Program>) returns (r: Result)
      requires Valid() && nInfo == N_INFO - 3 * |programs| && info[nInfo..] == Table(programs)
      requires bootSize == |Padded(boot)| && out == Padded(boot) + Body(programs)
      requires programs != [] && FirstFault(programs, 0) == None
      modifies `out
      ensures r == BuildResult(boot, programs)
    {
      hide Fault, Table, Body, Padded, Sectors, Bytes, Deposit, FirstFault;
      var bytes := 2 * (N_INFO - nInfo);
      if bootSize < bytes {
        return Rejected(BootTooShort);
      }
      var start := bootSize - bytes;
      var blank := IsBlank(start, bootSize);
      if !blank {
        return Rejected(TableOverlap);
      }
      DepositInFront(Padded(boot), Body(programs), start, Bytes(Table(programs)));
      out := Deposit(out, start, Bytes(info[nInfo..]));
      return Built(out);
    }

    /** The check that there are only zero words where the table will be. */
    method IsBlank(start: nat, end: nat) returns (blank: bool)
      requires start <= end <= |out| && (end - start) % 2 == 0
      ensures blank <==> BlankFrom(out[..end], start)
    {
      hide WordAt;
      var at := start;
      while at < end
        invariant start <= at <= end && (end - at) % 2 == 0
        invariant forall k :: start <= k < at ==> out[k] == 0
      {
        ZeroWord(out, at);
        if WordAt(out, at) != 0 {
          assert out[..end][at] == out[at] && out[..end][at + 1] == out[at + 1];
          return false;
        }
        at := at + 2;
      }
      return true;
    }
  }

  lemma ZeroWord(s: seq<byte>, at: nat)
    requires at + 2 <= |s|
    ensures WordAt(s, at) == 0 <==> s[at] == 0 && s[at + 1] == 0
  {
  }

  lemma EmptyLayout()
    ensures Table([]) == [] && Body([]) == []
  {
  }

  /** The image body after one more program. */
  lemma Grown(boot: seq<byte>, ps: seq<Program>, n: nat)
    requires n < |ps|
    ensures ps[..n] + [ps[n]] == ps[..n + 1]
    ensures Padded(boot) + Body(ps[..n + 1]) == (Padded(boot) + Body(ps[..n])) + Padded(ps[n].contents)
  {
    assert ps[..n + 1][..n] == ps[..n];
  }

  /** One more block of a file that has been copied up to `at`. */
  lemma NextBlock(contents: seq<byte>, at: nat, next: nat)
    requires at < next <= |contents| && at % SECTOR == 0
    requires next == if at + SECTOR <= |contents| then at + SECTOR else |contents|
    ensures Sectors(contents[..next]) == Sectors(contents[..at]) + 1
    ensures Padded(contents[..next]) == Padded(contents[..at]) + (contents[at..next] + Zeros(SECTOR - (next - at)))
    ensures next % SECTOR == 0 || next == |contents|
  {
    assert Sectors(contents[..at]) * SECTOR == at;
    assert Padded(contents[..at]) == contents[..at];
    assert contents[..next] == contents[..at] + contents[at..next];
  }

  // -------- What a build promises --------

  /** A program lies within memory. */
  predicate EndsInMemory(p: Program) {
    p.address + Sectors(p.contents) * SECTOR <= 0x9FFFF
  }

  /**
   * An image is built if and only if there are 1 to 85 programs, all of them end within memory, and the boot code has
   * zeros for six bytes a program at its end.
   */
  lemma BuiltIff(boot: seq<byte>, ps: seq<Program>)
    ensures var code := Padded(boot);
            BuildResult(boot, ps).Built? <==>
              && 1 <= |ps| <= 85 && (forall i :: 0 <= i < |ps| ==> EndsInMemory(ps[i]))
              && 6 * |ps| <= |code| && (forall k :: |code| - 6 * |ps| <= k < |code| ==> code[k] == 0)
  {
    hide Padded, Sectors;
    AcceptedIff(ps, 0);
  }

  lemma FaultMeans(p: Program, n: nat)
    ensures Fault(p, n) ==
            if n < 85 && EndsInMemory(p) then None
            else Some(if p.address > 0x9FFFF then InvalidAddress
                      else if !EndsInMemory(p) then TooLarge else TooManyPrograms)
  {
  }

  lemma {:induction false} StopsAtFirst(ps: seq<Program>, n: nat, i: nat)
    requires n <= i < |ps| && Fault(ps[i], i).Some? && forall j :: n <= j < i ==> Fault(ps[j], j) == None
    ensures FirstFault(ps, n) == Fault(ps[i], i)
    decreases i - n
  {
    hide Fault;
    if n < i {
      StopsAtFirst(ps, n + 1, i);
    }
  }

  /** The build stops at the first program that is out of memory or one too many, and says which. */
  lemma FirstComplaint(boot: seq<byte>, ps: seq<Program>, i: nat)
    requires i < |ps| && !(i < 85 && EndsInMemory(ps[i]))
    requires forall j :: 0 <= j < i ==> j < 85 && EndsInMemory(ps[j])
    ensures BuildResult(boot, ps) ==
            Rejected(if ps[i].address > 0x9FFFF then InvalidAddress
                     else if !EndsInMemory(ps[i]) then TooLarge else TooManyPrograms)
  {
    hide FirstFault, Padded;
    StopsAtFirst(ps, 0, i);
  }

  /** With all programs accepted, the build fails if the boot code is too short for the table or not empty there. */
  lemma TableComplaint(boot: seq<byte>, ps: seq<Program>)
    requires 1 <= |ps| <= 85 && forall i :: 0 <= i < |ps| ==> EndsInMemory(ps[i])
    ensures var code := Padded(boot);
            && (BuildResult(boot, ps) == Rejected(BootTooShort) <==> |code| < 6 * |ps|)
            && (BuildResult(boot, ps) == Rejected(TableOverlap) <==>
                6 * |ps| <= |code| && exists k :: |code| - 6 * |ps| <= k < |code| && code[k] != 0)
  {
    hide Padded, Sectors;
    AcceptedIff(ps, 0);
  }

  /** The table only replaces zeros: every other byte of the boot code is in the image as it was. */
  lemma BootCodeKept(boot: seq<byte>, ps: seq<Program>, k: nat)
    requires BuildResult(boot, ps).Built? && k < |Padded(boot)|
    ensures k < |BuildResult(boot, ps).image|
    ensures Padded(boot)[k] != 0 || k < |Padded(boot)| - 6 * |ps| ==>
              BuildResult(boot, ps).image[k] == Padded(boot)[k]
  {
    hide Padded, Sectors, Table, Body;
  }

  lemma {:induction false} TableAt(ps: seq<Program>, i: nat)
    requires i < |ps|
    ensures forall k :: 0 <= k < 3 ==> Table(ps)[3 * (|ps| - 1 - i) + k] == Entry(ps[i])[k]
  {
    if i < |ps| - 1 {
      TableAt(ps[..|ps| - 1], i);
    }
  }

  /** The entry of program `i` ends six bytes a program below the end of the boot code: offset, segment, sectors. */
  lemma TableFormat(boot: seq<byte>, ps: seq<Program>, i: nat)
    requires BuildResult(boot, ps).Built? && i < |ps|
    ensures var image, end := BuildResult(boot, ps).image, |Padded(boot)| - 6 * i;
            && 6 <= end <= |image|
            && WordAt(image, end - 6) == ps[i].address % 16
            && WordAt(image, end - 4) == ps[i].address / 16 % 0x1_0000
            && WordAt(image, end - 2) == Sectors(ps[i].contents) % 0x1_0000
  {
    hide Padded, Sectors, Table, Body, Bytes, FirstFault, Deposit;
    TableAt(ps, i);
    var j := 3 * (|ps| - 1 - i);
    TableWordAt(boot, ps, j);
    TableWordAt(boot, ps, j + 1);
    TableWordAt(boot, ps, j + 2);
    assert Table(ps)[j + 0] == Entry(ps[i])[0] && Table(ps)[j + 1] == Entry(ps[i])[1];
    assert Table(ps)[j + 2] == Entry(ps[i])[2];
  }

  lemma TableWordAt(boot: seq<byte>, ps: seq<Program>, j: nat)
    requires 6 * |ps| <= |Padded(boot)| && j < 3 * |ps|
    ensures WordAt(Image(boot, ps), |Padded(boot)| - 6 * |ps| + 2 * j) == Table(ps)[j]
  {
    hide Padded, Sectors, Table, Body, Bytes, Deposit, WordAt;
    var code, bytes := Padded(boot), Bytes(Table(ps));
    BytesReadBack(Table(ps), j);
    WordDeposited(code, |code| - 6 * |ps|, bytes, 2 * j);
    WordInFront(Deposit(code, |code| - 6 * |ps|, bytes), Body(ps), |code| - 6 * |ps| + 2 * j);
  }
}

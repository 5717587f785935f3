/** From BuildImage to memory: what the loader leaves behind when it runs on an image. */
module BootRoundTrip {
  import opened Disk
  import opened BuildImage
  import opened Bootstrap

  const BOOT_SIZE: nat := 1024
  const BOOT_END: int := 0xBC00  // the top of the loader's stack

  // -------- Reading one program --------

  lemma DepositTwice(mem: seq<byte>, at: nat, front: seq<byte>, back: seq<byte>)
    requires at + |front| + |back| <= |mem|
    ensures Deposit(Deposit(mem, at, front), at + |front|, back) == Deposit(mem, at, front + back)
  {
  }

  function Stretch(f: Floppy, from: nat, n: nat): (data: seq<byte>)
    requires Formatted(f) && from + n <= DISK_SECTORS
    ensures |data| == n * SECTOR
  {
    f.content[from * SECTOR..(from + n) * SECTOR]
  }

  /** On a straight pointer the sectors of a program arrive as one piece, whatever is retried on the way. */
  lemma {:induction false} ReadStraight(m: Machine, f: Floppy, es: word, bx: word, count: word)
    requires Sane(m) && Formatted(f) && 0 < count < 0x8000 && m.next + count < DISK_SECTORS
    requires Straight(bx, count) && Physical(es, bx) + SECTOR * count <= 0x10_0000
    ensures var r := ReadProg(m, f, es, bx, count);
            && r != TooBig
            && (r.Done? ==> r.m.next == m.next + count
                            && r.m.mem == Deposit(m.mem, Physical(es, bx), Stretch(f, m.next, count)))
    decreases count
  {
    hide Deposit, NextPointer, Attempts, Physical, Straight;
    var one := ReadSector(m, f, es, bx);
    assert SectorData(f, m.next) == Stretch(f, m.next, 1);
    if one.Done? && count > 1 {
      var p := NextPointer(es, bx);
      StepLinear(es, bx, count);
      ReadStraight(one.m, f, p.0, p.1, count - 1);
      DepositTwice(m.mem, Physical(es, bx), Stretch(f, m.next, 1), Stretch(f, m.next + 1, count - 1));
      assert Stretch(f, m.next, 1) + Stretch(f, m.next + 1, count - 1) == Stretch(f, m.next, count);
    }
  }

  /** A program that reaches the end of the last cylinder is never finished, although its last sector can be read. */
  lemma {:induction false} ReadTooFar(m: Machine, f: Floppy, es: word, bx: word, count: word)
    requires Sane(m) && Formatted(f) && 0 < count < 0x8000 && m.next + count >= DISK_SECTORS
    ensures !ReadProg(m, f, es, bx, count).Done?
    decreases count
  {
    var one := ReadSector(m, f, es, bx);
    if one.Done? && count > 1 {
      var p := NextPointer(es, bx);
      ReadTooFar(one.m, f, p.0, p.1, count - 1);
    }
  }

  /** On a pointer that is askew nothing is written behind the end of the segment. */
  lemma {:induction false} StaysInSegment(m: Machine, f: Floppy, es: word, bx: word, count: word)
    requires Sane(m) && Formatted(f) && bx % 512 != 0
    ensures var r := ReadProg(m, f, es, bx, count);
            r.Done? ==> forall a :: Physical(es, 0) + 0x1_0000 + bx % 512 <= a < MEMORY ==> r.m.mem[a] == m.mem[a]
    decreases DISK_SECTORS - m.next
  {
    hide ReadSector, NextPointer, Physical;
    var one := ReadSector(m, f, es, bx);
    AskewStep(m, f, es, bx);
    if one.Done? && More(count) {
      var p := NextPointer(es, bx);
      StaysInSegment(one.m, f, p.0, p.1, count - 1);
    }
  }

  lemma AskewStep(m: Machine, f: Floppy, es: word, bx: word)
    requires Sane(m) && Formatted(f) && bx % 512 != 0
    ensures var r := ReadSector(m, f, es, bx);
            r.Done? ==> forall a :: Physical(es, 0) + 0x1_0000 + bx % 512 <= a < MEMORY ==> r.m.mem[a] == m.mem[a]
    ensures var p := NextPointer(es, bx); p.0 == es && p.1 % 512 == bx % 512
  {
    assert bx + 512 - bx % 512 <= 0x1_0000;
  }

  /** The program read from sector `next` on is in memory, in one piece, whatever was there before. */
  ghost predicate ReadsIntact(f: Floppy, es: word, bx: word, count: word, next: nat, tries: nat)
    requires Formatted(f) && next + count < DISK_SECTORS
  {
    forall mem: seq<byte> :: |mem| == MEMORY ==>
      var r := ReadProg(Machine(mem, next, tries), f, es, bx, count);
      r.Done? && Present(r.m.mem, Physical(es, bx), Stretch(f, next, count))
  }

  /** A program arrives as one piece exactly when its pointer is straight; otherwise its last sector goes astray. */
  lemma ReadsIntactIff(f: Floppy, es: word, bx: word, count: word, next: nat, tries: nat)
    requires Formatted(f) && Reliable(f) && 0 < count < 0x8000 && next + count < DISK_SECTORS
    requires Physical(es, bx) + SECTOR * count <= 0x10_0000
    ensures ReadsIntact(f, es, bx, count, next, tries) <==> Straight(bx, count)
  {
    if Straight(bx, count) {
      forall mem: seq<byte> | |mem| == MEMORY
        ensures var r := ReadProg(Machine(mem, next, tries), f, es, bx, count);
                r.Done? && Present(r.m.mem, Physical(es, bx), Stretch(f, next, count))
      {
        StraightIsIntact(f, es, bx, count, mem, next, tries);
      }
    } else {
      AskewIsNot(f, es, bx, count, next, tries);
    }
  }

  lemma StraightIsIntact(f: Floppy, es: word, bx: word, count: word, mem: seq<byte>, next: nat, tries: nat)
    requires Formatted(f) && Reliable(f) && 0 < count < 0x8000 && next + count < DISK_SECTORS && |mem| == MEMORY
    requires Physical(es, bx) + SECTOR * count <= 0x10_0000 && Straight(bx, count)
    ensures var r := ReadProg(Machine(mem, next, tries), f, es, bx, count);
            r.Done? && Present(r.m.mem, Physical(es, bx), Stretch(f, next, count))
  {
    hide Deposit, ReadProg, Stretch, Reliable, Physical, Straight;
    ReadStraight(Machine(mem, next, tries), f, es, bx, count);
    ReliableProg(Machine(mem, next, tries), f, es, bx, count);
    NowPresent(mem, Physical(es, bx), Stretch(f, next, count));
  }

  /** Where the last byte of an askew program should be, some other byte may stay. */
  lemma AskewIsNot(f: Floppy, es: word, bx: word, count: word, next: nat, tries: nat)
    requires Formatted(f) && Reliable(f) && 0 < count < 0x8000 && next + count < DISK_SECTORS
    requires Physical(es, bx) + SECTOR * count <= 0x10_0000 && !Straight(bx, count)
    ensures !ReadsIntact(f, es, bx, count, next, tries)
  {
    hide ReadProg, Stretch, Reliable;
    var at, data, k := Physical(es, bx), Stretch(f, next, count), SECTOR * count - 1;
    var other: byte := if data[k] == 0 then 1 else 0;
    var mem: seq<byte> := seq(MEMORY, _ => other);
    StaysInSegment(Machine(mem, next, tries), f, es, bx, count);
    assert mem[at + k] != data[k];
  }

  // -------- The image on the disk --------

  ghost predicate OnDisk(image: seq<byte>, f: Floppy) {
    Formatted(f) && |image| <= |f.content| && f.content[..|image|] == image
  }

  /** The last bytes of a program's range. */
  function End(p: Program): int {
    p.address + Sectors(p.contents) * SECTOR
  }

  ghost predicate Apart(p: Program, q: Program) {
    End(p) <= q.address || End(q) <= p.address
  }

  /** The first `n` programs are straight to load, apart from one another and clear of the loader's code and stack. */
  ghost predicate WellPlaced(ps: seq<Program>, n: nat)
    requires n <= |ps|
  {
    && (forall i :: 0 <= i < n ==>
          && 0 <= ps[i].address && Straight(ps[i].address % 16, Sectors(ps[i].contents))
          && (End(ps[i]) <= BOOT_ADDRESS || BOOT_END <= ps[i].address))
    && forall i, j :: 0 <= i < j < n ==> Apart(ps[i], ps[j])
  }

  ghost predicate Placed(ps: seq<Program>, n: nat)
    requires n <= |ps|
  {
    WellPlaced(ps, n) && forall i :: 0 <= i < n ==> ps[i].contents != [] && End(ps[i]) <= MEMORY_TOP
  }

  /** The number of programs in front of the first empty one at `n` or behind it. */
  ghost function LiveFrom(ps: seq<Program>, n: nat): (live: nat)
    requires n <= |ps|
    ensures n <= live <= |ps| && (live < |ps| ==> ps[live].contents == [])
    ensures forall i :: n <= i < live ==> ps[i].contents != []
    decreases |ps| - n
  {
    if n == |ps| || ps[n].contents == [] then n else LiveFrom(ps, n + 1)
  }

  /** The number of programs in front of the first empty one. */
  ghost function Live(ps: seq<Program>): (live: nat)
    ensures live <= |ps| && (live < |ps| ==> ps[live].contents == [])
    ensures forall i :: 0 <= i < live ==> ps[i].contents != []
  {
    LiveFrom(ps, 0)
  }

  /** What the builder is given: boot code of two sectors, and a zero word in front of a table read to its end. */
  ghost predicate Buildable(boot: seq<byte>, ps: seq<Program>) {
    && BuildResult(boot, ps).Built? && |Padded(boot)| == BOOT_SIZE && 6 * |ps| + 2 <= BOOT_SIZE
    && (Live(ps) == |ps| ==> WordAt(Padded(boot), BOOT_SIZE - 6 * |ps| - 2) == 0)
  }

  lemma PlacedPrefix(ps: seq<Program>, n: nat, m: nat)
    requires n <= m <= |ps| && Placed(ps, m)
    ensures Placed(ps, n)
  {
  }

  /** The builder has made sure that the programs end below the top of memory. */
  lemma BuiltIsPlaced(boot: seq<byte>, ps: seq<Program>)
    requires WellPlaced(ps, Live(ps)) && BuildResult(boot, ps).Built?
    ensures Placed(ps, Live(ps))
  {
    AcceptedIff(ps, 0);
  }

  lemma {:induction false} SectorsGrow(ps: seq<Program>, i: nat)
    requires i < |ps|
    ensures TotalSectors(ps[..i + 1]) == TotalSectors(ps[..i]) + Sectors(ps[i].contents)
    ensures TotalSectors(ps[..i + 1]) <= TotalSectors(ps)
    decreases |ps| - i
  {
    assert ps[..i + 1][..i] == ps[..i];
    if i + 1 < |ps| {
      SectorsGrow(ps, i + 1);
    } else {
      assert ps[..i + 1] == ps;
    }
  }

  lemma {:induction false} SectorsUpTo(ps: seq<Program>, n: nat, m: nat)
    requires n <= m <= |ps|
    ensures TotalSectors(ps[..n]) <= TotalSectors(ps[..m]) <= TotalSectors(ps)
    decreases m - n
  {
    if n < m {
      SectorsGrow(ps, n);
      SectorsUpTo(ps, n + 1, m);
    } else if m < |ps| {
      SectorsGrow(ps, m);
    } else {
      assert ps[..m] == ps;
    }
  }

  lemma SliceInFront(a: seq<byte>, b: seq<byte>, i: nat, j: nat)
    requires i <= j <= |a|
    ensures (a + b)[i..j] == a[i..j]
  {
  }

  lemma SliceBehind(a: seq<byte>, b: seq<byte>, i: nat, j: nat)
    requires i <= j <= |b|
    ensures (a + b)[|a| + i..|a| + j] == b[i..j]
  {
  }

  /** Where a program lies in the body. */
  lemma {:induction false} BodyAt(ps: seq<Program>, i: nat)
    requires i < |ps|
    ensures TotalSectors(ps[..i + 1]) == TotalSectors(ps[..i]) + Sectors(ps[i].contents) <= TotalSectors(ps)
    ensures Body(ps)[TotalSectors(ps[..i]) * SECTOR..TotalSectors(ps[..i + 1]) * SECTOR] == Padded(ps[i].contents)
  {
    hide Padded, Sectors, TotalSectors;
    SectorsGrow(ps, i);
    var last := |ps| - 1;
    var front, back := Body(ps[..last]), Padded(ps[last].contents);
    var from, to := TotalSectors(ps[..i]) * SECTOR, TotalSectors(ps[..i + 1]) * SECTOR;
    if i < last {
      BodyAt(ps[..last], i);
      assert ps[..last][..i] == ps[..i] && ps[..last][..i + 1] == ps[..i + 1];
      SliceInFront(front, back, from, to);
    } else {
      assert ps[..i + 1] == ps && ps[..i] == ps[..last];
      SliceBehind(front, back, 0, |back|);
    }
  }

  /** The two sectors of boot code, as patched. */
  ghost function BootCode(boot: seq<byte>, ps: seq<Program>): (s: seq<byte>)
    requires |Padded(boot)| == BOOT_SIZE && 6 * |ps| <= BOOT_SIZE
    ensures |s| == BOOT_SIZE
  {
    Deposit(Padded(boot), BOOT_SIZE - 6 * |ps|, Bytes(Table(ps)))
  }

  /** What the loader finds in the table for program `i`. */
  lemma EntryInMemory(boot: seq<byte>, ps: seq<Program>, mem: seq<byte>, i: nat)
    requires Buildable(boot, ps) && i < |ps| && |mem| == MEMORY
    requires Present(mem, BOOT_ADDRESS, BootCode(boot, ps))
    ensures var di := FIRST_COUNT - 6 * i;
            && Below(di, 2) == di - 2 && Below(di, 4) == di - 4 && Below(di, 6) == di - 6
            && [TableWord(mem, di - 4), TableWord(mem, di - 2), TableWord(mem, di)] == Entry(ps[i])
  {
    hide BuildResult, Padded, Table, Bytes, Present, TableWord, Deposit, Entry;
    TableAt(ps, i);
    forall k | 0 <= k < 3 ensures TableWord(mem, FIRST_COUNT - 6 * i - 4 + 2 * k) == Entry(ps[i])[k] {
      var j := 3 * (|ps| - 1 - i) + k;
      BytesReadBack(Table(ps), j);
      WordFound(mem, BootCode(boot, ps), BOOT_SIZE - 6 * |ps| + 2 * j);
      WordDeposited(Padded(boot), BOOT_SIZE - 6 * |ps|, Bytes(Table(ps)), 2 * j);
    }
  }

  lemma WordFound(mem: seq<byte>, data: seq<byte>, k: nat)
    requires |mem| == MEMORY && Present(mem, BOOT_ADDRESS, data) && k + 2 <= |data| <= BOOT_SIZE
    ensures TableWord(mem, k) == WordAt(data, k)
  {
    assert mem[BOOT_ADDRESS + k] == data[k] && mem[BOOT_ADDRESS + (k + 1)] == data[k + 1];
  }

  /** The word in front of the table, where the loader stops. */
  lemma StopInMemory(boot: seq<byte>, ps: seq<Program>, mem: seq<byte>)
    requires Buildable(boot, ps) && Live(ps) == |ps| && |mem| == MEMORY
    requires Present(mem, BOOT_ADDRESS, BootCode(boot, ps))
    ensures TableWord(mem, FIRST_COUNT - 6 * |ps|) == 0
  {
    var k := BOOT_SIZE - 6 * |ps| - 2;
    WordFound(mem, BootCode(boot, ps), k);
  }

  // -------- The loader's progress --------

  ghost predicate Within(p: Program, a: int) {
    p.address <= a < End(p)
  }

  ghost predicate OutsideAll(ps: seq<Program>, n: nat, a: int)
    requires n <= |ps|
  {
    !(BOOT_ADDRESS <= a < BOOT_ADDRESS + BOOT_SIZE) && forall j :: 0 <= j < n ==> !Within(ps[j], a)
  }

  /** Nothing but the boot sectors and the ranges of the first `n` programs has changed. */
  ghost predicate Untouched(before: seq<byte>, after: seq<byte>, ps: seq<Program>, n: nat)
    requires |before| == |after| == MEMORY && n <= |ps|
  {
    forall a :: 0 <= a < MEMORY && OutsideAll(ps, n, a) ==> after[a] == before[a]
  }

  ghost predicate AllPresent(mem: seq<byte>, ps: seq<Program>, n: nat)
    requires n <= |ps|
  {
    forall j :: 0 <= j < n ==> ps[j].address >= 0 && Present(mem, ps[j].address, Padded(ps[j].contents))
  }

  /** The loader with the first `n` programs in memory. */
  ghost predicate Under(boot: seq<byte>, ps: seq<Program>, before: seq<byte>, m: Machine, n: nat)
    requires |before| == MEMORY && |Padded(boot)| == BOOT_SIZE && 6 * |ps| <= BOOT_SIZE && n <= |ps|
  {
    && Sane(m) && m.next == 2 + TotalSectors(ps[..n]) && Present(m.mem, BOOT_ADDRESS, BootCode(boot, ps))
    && AllPresent(m.mem, ps, n) && Untouched(before, m.mem, ps, n)
  }

  /** A deposit clear of some data leaves the data where it is. */
  lemma StillPresent(mem: seq<byte>, at: nat, data: seq<byte>, to: nat, more: seq<byte>)
    requires Present(mem, at, data) && to + |more| <= |mem|
    requires to + |more| <= at || at + |data| <= to
    ensures Present(Deposit(mem, to, more), at, data)
  {
  }

  lemma NowPresent(mem: seq<byte>, at: nat, data: seq<byte>)
    requires at + |data| <= |mem|
    ensures Present(Deposit(mem, at, data), at, data)
  {
  }

  /** Program `n` arrives. */
  lemma Arrives(boot: seq<byte>, ps: seq<Program>, before: seq<byte>, m: Machine, n: nat, m': Machine)
    requires |before| == MEMORY && Buildable(boot, ps) && n < |ps| && Placed(ps, n + 1) && Under(boot, ps, before, m, n)
    requires Sane(m') && m'.next == m.next + Sectors(ps[n].contents)
    requires m'.mem == Deposit(m.mem, ps[n].address, Padded(ps[n].contents))
    ensures Under(boot, ps, before, m', n + 1)
  {
    hide Deposit, Padded;
    SectorsGrow(ps, n);
    var data := Padded(ps[n].contents);
    StillPresent(m.mem, BOOT_ADDRESS, BootCode(boot, ps), ps[n].address, data);
    NowPresent(m.mem, ps[n].address, data);
    forall j | 0 <= j < n ensures Present(m'.mem, ps[j].address, Padded(ps[j].contents)) {
      assert Apart(ps[j], ps[n]);
      StillPresent(m.mem, ps[j].address, Padded(ps[j].contents), ps[n].address, data);
    }
  }

  /** The place and the size of a well-placed program, as the table gives them. */
  lemma EntryMeans(p: Program)
    requires p.contents != [] && 0 <= p.address && End(p) <= MEMORY_TOP && Straight(p.address % 16, Sectors(p.contents))
    ensures var e := Entry(p);
            && e[2] == Sectors(p.contents) > 0 && e[2] < 0x8000
            && Physical(e[1], e[0]) == p.address && Straight(e[0], e[2])
            && Physical(e[1], e[0]) + SECTOR * e[2] <= 0x10_0000
  {
  }

  /** The disk holds program `n` where the loader's counter will be. */
  lemma ProgramOnDisk(boot: seq<byte>, ps: seq<Program>, f: Floppy, n: nat)
    requires Buildable(boot, ps) && n < |ps| && OnDisk(Image(boot, ps), f)
    ensures 2 + TotalSectors(ps[..n]) + Sectors(ps[n].contents) <= 2 + TotalSectors(ps) <= DISK_SECTORS
    ensures Stretch(f, 2 + TotalSectors(ps[..n]), Sectors(ps[n].contents)) == Padded(ps[n].contents)
  {
    hide BuildResult, Padded, Body, Sectors, TotalSectors, Image, OnDisk, BootCode, Stretch;
    BodyAt(ps, n);
    ImageParts(boot, ps, f);
    var from, to := TotalSectors(ps[..n]), TotalSectors(ps[..n + 1]);
    var lo, hi := (2 + from) * SECTOR, (2 + to) * SECTOR;
    var image, code := Image(boot, ps), BootCode(boot, ps);
    StretchIs(f, 2 + from, to - from);
    SliceInFront(image, f.content[|image|..], lo, hi);
    SliceBehind(code, Body(ps), from * SECTOR, to * SECTOR);
    assert |code| + from * SECTOR == lo && |code| + to * SECTOR == hi;
  }

  lemma ImageParts(boot: seq<byte>, ps: seq<Program>, f: Floppy)
    requires Buildable(boot, ps) && OnDisk(Image(boot, ps), f)
    ensures var image := Image(boot, ps);
            && image == BootCode(boot, ps) + Body(ps) && f.content == image + f.content[|image|..]
            && |image| == BOOT_SIZE + |Body(ps)| && Formatted(f) && |f.content| == DISK_SECTORS * SECTOR
  {
  }

  lemma StretchIs(f: Floppy, from: nat, n: nat)
    requires Formatted(f) && from + n <= DISK_SECTORS
    ensures |f.content| == DISK_SECTORS * SECTOR
    ensures Stretch(f, from, n) == f.content[from * SECTOR..(from + n) * SECTOR]
  {
  }

  /** From program `n` on, if the disk is long enough and no read fails: all up to the first empty one come in. */
  lemma {:induction false} LoadsFrom(
    boot: seq<byte>, ps: seq<Program>, f: Floppy, before: seq<byte>, m: Machine, n: nat)
    requires |before| == MEMORY && Buildable(boot, ps) && Placed(ps, Live(ps)) && n <= Live(ps)
    requires OnDisk(Image(boot, ps), f) && 2 + TotalSectors(ps[..Live(ps)]) < DISK_SECTORS
    requires Under(boot, ps, before, m, n)
    ensures var r := LoadTable(m, f, FIRST_COUNT - 6 * n);
            r != TooBig && (r.Done? ==> Under(boot, ps, before, r.m, Live(ps)))
    decreases Live(ps) - n
  {
    hide Deposit, Padded, Under, BuildResult, Image, BootCode, ReadProg, TableWord, Live, Placed;
    if n == Live(ps) {
      LoadingEnds(boot, ps, f, before, m, n);
    } else {
      SectorsUpTo(ps, n + 1, Live(ps));
      PlacedPrefix(ps, n + 1, Live(ps));
      OneProgram(boot, ps, f, before, m, n);
      var r := ReadEntry(m, f, FIRST_COUNT - 6 * n);
      if r.Done? {
        LoadsFrom(boot, ps, f, before, r.m, n + 1);
      }
    }
  }

  /** The zero word in front of the table ends the loading, and so does the entry of an empty program. */
  lemma LoadingEnds(boot: seq<byte>, ps: seq<Program>, f: Floppy, before: seq<byte>, m: Machine, n: nat)
    requires |before| == MEMORY && Buildable(boot, ps) && Formatted(f) && n == Live(ps)
    requires Under(boot, ps, before, m, n)
    ensures Sane(m) && LoadTable(m, f, FIRST_COUNT - 6 * n) == Done(m)
  {
    hide BuildResult, Padded, BootCode, Under, TableWord, ReadProg;
    UnderMeans(boot, ps, before, m, n);
    if n == |ps| {
      StopInMemory(boot, ps, m.mem);
    } else {
      EntryInMemory(boot, ps, m.mem, n);
    }
  }

  lemma UnderMeans(boot: seq<byte>, ps: seq<Program>, before: seq<byte>, m: Machine, n: nat)
    requires |before| == MEMORY && |Padded(boot)| == BOOT_SIZE && 6 * |ps| <= BOOT_SIZE && n <= |ps|
    requires Under(boot, ps, before, m, n)
    ensures Sane(m) && m.next == 2 + TotalSectors(ps[..n]) && Present(m.mem, BOOT_ADDRESS, BootCode(boot, ps))
  {
  }

  /** The call of readprog for the table entry at `di`. */
  ghost function ReadEntry(m: Machine, f: Floppy, di: word): (r: Outcome)
    requires Sane(m) && Formatted(f)
    ensures r.Done? ==> Sane(r.m) && r.m.next > m.next
  {
    ReadProg(m, f, TableWord(m.mem, Below(di, 2)), TableWord(m.mem, Below(di, 4)), TableWord(m.mem, di))
  }

  lemma OneProgram(boot: seq<byte>, ps: seq<Program>, f: Floppy, before: seq<byte>, m: Machine, n: nat)
    requires |before| == MEMORY && Buildable(boot, ps) && n < |ps| && Placed(ps, n + 1)
    requires OnDisk(Image(boot, ps), f) && 2 + TotalSectors(ps[..n + 1]) < DISK_SECTORS
    requires Under(boot, ps, before, m, n)
    ensures Sane(m) && Formatted(f) && TableWord(m.mem, FIRST_COUNT - 6 * n) != 0
    ensures Below(FIRST_COUNT - 6 * n, 6) == FIRST_COUNT - 6 * (n + 1)
    ensures var r := ReadEntry(m, f, FIRST_COUNT - 6 * n);
            r != TooBig && (r.Done? ==> Under(boot, ps, before, r.m, n + 1))
  {
    hide Deposit, Padded, BuildResult, Image, BootCode, Entry, ReadProg;
    UnderMeans(boot, ps, before, m, n);
    EntryInMemory(boot, ps, m.mem, n);
    EntryMeans(ps[n]);
    SectorsGrow(ps, n);
    ProgramOnDisk(boot, ps, f, n);
    var e := Entry(ps[n]);
    ReadStraight(m, f, e[1], e[0], e[2]);
    var r := ReadProg(m, f, e[1], e[0], e[2]);
    if r.Done? {
      Arrives(boot, ps, before, m, n, r.m);
    }
  }

  // -------- The whole way --------

  /** The machine after the second boot sector. */
  lemma SecondSector(boot: seq<byte>, ps: seq<Program>, f: Floppy, mem: seq<byte>)
    requires |mem| == MEMORY && Buildable(boot, ps) && OnDisk(Image(boot, ps), f)
    ensures var r := ReadProg(Started(mem, f), f, 0, START_OFFSET, 1);
            r != TooBig && (r.Done? ==> Under(boot, ps, mem, r.m, 0))
  {
    hide BuildResult, Deposit, Padded, Body, ReadProg, Present, BootCode;
    var m := Started(mem, f);
    ReadStraight(m, f, 0, START_OFFSET, 1);
    var code := BootCode(boot, ps);
    FirstSectors(boot, ps, f);
    DepositTwice(mem, BOOT_ADDRESS, code[..SECTOR], code[SECTOR..]);
    assert code[..SECTOR] + code[SECTOR..] == code;
    NowPresent(mem, BOOT_ADDRESS, code);
  }

  lemma FirstSectors(boot: seq<byte>, ps: seq<Program>, f: Floppy)
    requires Buildable(boot, ps) && OnDisk(Image(boot, ps), f)
    ensures SectorData(f, 0) == BootCode(boot, ps)[..SECTOR] && Stretch(f, 1, 1) == BootCode(boot, ps)[SECTOR..]
  {
    hide BuildResult, Deposit, Padded, Body, BootCode, Image, OnDisk;
    ImageParts(boot, ps, f);
    var image := Image(boot, ps);
    SliceInFront(image, f.content[|image|..], 0, SECTOR);
    SliceInFront(image, f.content[|image|..], SECTOR, BOOT_SIZE);
    SliceInFront(BootCode(boot, ps), Body(ps), 0, SECTOR);
    SliceInFront(BootCode(boot, ps), Body(ps), SECTOR, BOOT_SIZE);
  }

  /**
   * The boot round trip. While the disk's last sector is not reached the loader either stops at a read that fails, or
   * every program in front of the first empty one, padded to full sectors, is at its load address, and the rest of
   * memory is as it was.
   */
  lemma BootLoadsImage(boot: seq<byte>, ps: seq<Program>, f: Floppy, mem: seq<byte>)
    requires |mem| == MEMORY && Buildable(boot, ps) && WellPlaced(ps, Live(ps)) && OnDisk(Image(boot, ps), f)
    requires 2 + TotalSectors(ps[..Live(ps)]) < DISK_SECTORS
    ensures var r := Boot(mem, f);
            && r != TooBig
            && (r.Done? ==> && r.m.next == 2 + TotalSectors(ps[..Live(ps)])
                            && AllPresent(r.m.mem, ps, Live(ps)) && Untouched(mem, r.m.mem, ps, Live(ps)))
  {
    hide Padded, Deposit, LoadTable, ReadProg, Live;
    BuiltIsPlaced(boot, ps);
    SecondSector(boot, ps, f, mem);
    var r := ReadProg(Started(mem, f), f, 0, START_OFFSET, 1);
    if r.Done? {
      LoadsFrom(boot, ps, f, mem, r.m, 0);
    }
  }

  /** No sector fails three times running. */
  ghost predicate Reliable(f: Floppy) {
    forall n :: Attempts(f, n) > 0
  }

  lemma {:induction false} ReliableProg(m: Machine, f: Floppy, es: word, bx: word, count: word)
    requires Sane(m) && Formatted(f) && Reliable(f)
    ensures ReadProg(m, f, es, bx, count) != ReadFailed
    decreases DISK_SECTORS - m.next
  {
    var one := ReadSector(m, f, es, bx);
    if one.Done? && More(count) {
      var p := NextPointer(es, bx);
      ReliableProg(one.m, f, p.0, p.1, count - 1);
    }
  }

  lemma {:induction false} ReliableTable(m: Machine, f: Floppy, di: word)
    requires Sane(m) && Formatted(f) && Reliable(f)
    ensures LoadTable(m, f, di) != ReadFailed
    decreases DISK_SECTORS - m.next
  {
    if TableWord(m.mem, di) != 0 {
      var es, bx, count := TableWord(m.mem, Below(di, 2)), TableWord(m.mem, Below(di, 4)), TableWord(m.mem, di);
      ReliableProg(m, f, es, bx, count);
      var r := ReadProg(m, f, es, bx, count);
      if r.Done? {
        ReliableTable(r.m, f, Below(di, 6));
      }
    }
  }

  /** From program `n` on, on a disk that the programs to load fill to the last sector. */
  lemma {:induction false} NeverLoads(
    boot: seq<byte>, ps: seq<Program>, f: Floppy, before: seq<byte>, m: Machine, n: nat)
    requires |before| == MEMORY && Buildable(boot, ps) && Placed(ps, Live(ps)) && n < Live(ps)
    requires OnDisk(Image(boot, ps), f) && 2 + TotalSectors(ps[..Live(ps)]) == DISK_SECTORS
    requires Under(boot, ps, before, m, n)
    ensures !LoadTable(m, f, FIRST_COUNT - 6 * n).Done?
    decreases Live(ps) - n
  {
    hide Deposit, Padded, BuildResult, Image, BootCode, ReadProg, Under, TableWord, Live, Placed;
    UnderMeans(boot, ps, before, m, n);
    PlacedPrefix(ps, n + 1, Live(ps));
    SectorsGrow(ps, n);
    if n + 1 == Live(ps) {
      LastProgram(boot, ps, f, before, m, n);
    } else {
      LaterTakeRoom(ps, n, Live(ps));
      OneProgram(boot, ps, f, before, m, n);
      var r := ReadEntry(m, f, FIRST_COUNT - 6 * n);
      if r.Done? {
        NeverLoads(boot, ps, f, before, r.m, n + 1);
      }
    }
  }

  lemma LaterTakeRoom(ps: seq<Program>, n: nat, m: nat)
    requires n + 1 < m <= |ps| && ps[n + 1].contents != []
    ensures TotalSectors(ps[..n + 1]) < TotalSectors(ps[..m])
  {
    SectorsGrow(ps, n + 1);
    SectorsUpTo(ps, n + 2, m);
  }

  lemma LastProgram(boot: seq<byte>, ps: seq<Program>, f: Floppy, before: seq<byte>, m: Machine, n: nat)
    requires |before| == MEMORY && Buildable(boot, ps) && n < |ps| && Placed(ps, n + 1) && Formatted(f)
    requires Under(boot, ps, before, m, n) && m.next + Sectors(ps[n].contents) == DISK_SECTORS
    ensures Sane(m) && TableWord(m.mem, FIRST_COUNT - 6 * n) != 0
    ensures !ReadEntry(m, f, FIRST_COUNT - 6 * n).Done?
  {
    hide Deposit, Padded, BuildResult, BootCode, Entry, ReadProg, Under;
    UnderMeans(boot, ps, before, m, n);
    EntryInMemory(boot, ps, m.mem, n);
    EntryMeans(ps[n]);
    var e := Entry(ps[n]);
    ReadTooFar(m, f, e[1], e[0], e[2]);
  }

  /** Without lasting faults the loader finishes exactly when the disk's last sector is not among those to load. */
  lemma BootsIffRoom(boot: seq<byte>, ps: seq<Program>, f: Floppy, mem: seq<byte>)
    requires |mem| == MEMORY && Buildable(boot, ps) && WellPlaced(ps, Live(ps)) && OnDisk(Image(boot, ps), f)
    requires Reliable(f)
    ensures Boot(mem, f).Done? <==> 2 + TotalSectors(ps[..Live(ps)]) < DISK_SECTORS
    ensures !Boot(mem, f).Done? ==> Boot(mem, f) == TooBig
  {
    hide Padded, Deposit, LoadTable, ReadProg, Attempts, Live;
    BuiltIsPlaced(boot, ps);
    SecondSector(boot, ps, f, mem);
    ReliableProg(Started(mem, f), f, 0, START_OFFSET, 1);
    var m := ReadProg(Started(mem, f), f, 0, START_OFFSET, 1).m;
    ReliableTable(m, f, FIRST_COUNT);
    if 2 + TotalSectors(ps[..Live(ps)]) < DISK_SECTORS {
      BootLoadsImage(boot, ps, f, mem);
    } else {
      SectorsUpTo(ps, Live(ps), |ps|);
      NeverLoads(boot, ps, f, mem, m, 0);
    }
  }

  lemma {:induction false} TailSectors(ps: seq<Program>, n: nat)
    requires n <= |ps|
    ensures TotalSectors(ps[..n]) == TotalSectors(ps) <==> forall j :: n <= j < |ps| ==> ps[j].contents == []
    decreases |ps| - n
  {
    if n < |ps| {
      SectorsGrow(ps, n);
      TailSectors(ps, n + 1);
    } else {
      assert ps[..n] == ps;
    }
  }

  /** The loader reads the whole image exactly when there is nothing but empty programs behind an empty one. */
  lemma WholeImageIff(boot: seq<byte>, ps: seq<Program>, f: Floppy, mem: seq<byte>)
    requires |mem| == MEMORY && Buildable(boot, ps) && WellPlaced(ps, Live(ps)) && OnDisk(Image(boot, ps), f)
    requires Reliable(f) && 2 + TotalSectors(ps[..Live(ps)]) < DISK_SECTORS
    ensures Boot(mem, f).Done?
    ensures Boot(mem, f).m.next * SECTOR == |Image(boot, ps)| <==>
            forall i, j :: 0 <= i < j < |ps| && ps[i].contents == [] ==> ps[j].contents == []
  {
    hide Padded, Deposit, Boot, Attempts;
    BootsIffRoom(boot, ps, f, mem);
    BootLoadsImage(boot, ps, f, mem);
    TailSectors(ps, Live(ps));
  }

  // -------- The builder and the loader themselves --------

  /**
   * An image is built, put on a floppy that holds anything else behind it, and booted: the loader does not run out of
   * disk, and when it is done the programs are in memory and nothing else has changed.
   */
  method BuildAndBoot(boot: seq<byte>, programs: seq<Program>, rest: seq<byte>, failures: iset<nat>, mem: array<byte>)
    returns (fate: Fate)
    requires Buildable(boot, programs) && WellPlaced(programs, Live(programs)) && mem.Length == MEMORY
    requires |Image(boot, programs)| + |rest| == DISK_SECTORS * SECTOR
    requires 2 + TotalSectors(programs[..Live(programs)]) < DISK_SECTORS
    modifies mem
    ensures fate != OutOfDisk
    ensures fate == Loaded ==>
              && AllPresent(mem[..], programs, Live(programs))
              && Untouched(old(mem[..]), mem[..], programs, Live(programs))
  {
    hide BuildResult, Image, Padded, Live, Boot, WellPlaced;
    var builder := new Builder();
    var built := builder.Build(boot, programs);
    BuiltImage(boot, programs);
    var floppy := Floppy(built.image + rest, failures);
    assert floppy.content[..|built.image|] == built.image;
    BootLoadsImage(boot, programs, floppy, mem[..]);
    var loader;
    fate, loader := PowerUp(floppy, mem);
  }

  lemma BuiltImage(boot: seq<byte>, ps: seq<Program>)
    requires Buildable(boot, ps)
    ensures BuildResult(boot, ps) == Built(Image(boot, ps))
  {
  }
}

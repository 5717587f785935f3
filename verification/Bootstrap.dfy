/** The boot loader: it walks the load table and reads sectors through a CHS counter and a segmented pointer. */
module Bootstrap {
  import opened Disk

  const DISK_SECTORS: nat := 2880  // 80 cylinders, 2 heads, 18 sectors
  const BOOT_ADDRESS: nat := 0x7C00
  const START_OFFSET: word := 0x7E00
  const FIRST_COUNT: word := 1022
  const LAST_BLOCK: word := 65024
  const MEMORY: nat := 0x11_0200  // all that a segment and an offset can reach

  /** The floppy, and the read attempts that fail. */
  datatype Floppy = Floppy(content: seq<byte>, failures: iset<nat>)
  {
    predicate Works(attempt: nat) {
      attempt !in failures
    }
  }

  ghost predicate Formatted(f: Floppy) {
    |f.content| == DISK_SECTORS * SECTOR
  }

  // -------- The loader on values, with a linear sector number --------

  /** `next` is the linear number of the next sector, `tries` counts the read attempts so far. */
  datatype Machine = Machine(mem: seq<byte>, next: nat, tries: nat)

  datatype Outcome = Done(m: Machine) | ReadFailed | TooBig

  ghost predicate Sane(m: Machine) {
    |m.mem| == MEMORY && m.next < DISK_SECTORS
  }

  function Physical(es: word, bx: word): nat {
    es * 16 + bx
  }

  /** Addition in a 16-bit register. */
  function Plus(a: int, b: int): word {
    (a + b) % 0x1_0000
  }

  /** Where the pointer goes after a sector. */
  function NextPointer(es: word, bx: word): (word, word) {
    if bx == LAST_BLOCK then (Plus(es, 0x1000), 0) else (es, Plus(bx, 512))
  }

  /** The count loop goes on while the decremented count is positive as a signed word. */
  predicate More(count: word) {
    1 < count < 0x8000
  }

  function SectorData(f: Floppy, n: nat): (data: seq<byte>)
    requires Formatted(f) && n < DISK_SECTORS
    ensures |data| == SECTOR
  {
    f.content[n * SECTOR..(n + 1) * SECTOR]
  }

  /** The number of attempts a sector takes; 0 if three in a row fail. */
  function Attempts(f: Floppy, tries: nat): (n: nat)
    ensures n <= 3
  {
    if f.Works(tries) then 1 else if f.Works(tries + 1) then 2 else if f.Works(tries + 2) then 3 else 0
  }

  function ReadSector(m: Machine, f: Floppy, es: word, bx: word): (r: Outcome)
    requires Sane(m) && Formatted(f)
    ensures r.Done? ==> Sane(r.m) && r.m.next == m.next + 1
  {
    var n := Attempts(f, m.tries);
    if n == 0 then ReadFailed
    else if m.next + 1 == DISK_SECTORS then TooBig
    else Done(Machine(Deposit(m.mem, Physical(es, bx), SectorData(f, m.next)), m.next + 1, m.tries + n))
  }

  ghost function ReadProg(m: Machine, f: Floppy, es: word, bx: word, count: word): (r: Outcome)
    requires Sane(m) && Formatted(f)
    ensures r.Done? ==> Sane(r.m) && r.m.next > m.next
    decreases DISK_SECTORS - m.next
  {
    match ReadSector(m, f, es, bx)
    case Done(m') =>
      if More(count) then
        var p := NextPointer(es, bx);
        ReadProg(m', f, p.0, p.1, count - 1)
      else Done(m')
    case fail => fail
  }

  function Below(di: word, n: int): word {
    Plus(di, -n)
  }

  function TableWord(mem: seq<byte>, di: word): word
    requires |mem| == MEMORY
  {
    WordAt(mem, BOOT_ADDRESS + di)
  }

  ghost function LoadTable(m: Machine, f: Floppy, di: word): (r: Outcome)
    requires Sane(m) && Formatted(f)
    ensures r.Done? ==> Sane(r.m)
    decreases DISK_SECTORS - m.next
  {
    var count := TableWord(m.mem, di);
    if count == 0 then Done(m)
    else
      match ReadProg(m, f, TableWord(m.mem, Below(di, 2)), TableWord(m.mem, Below(di, 4)), count)
      case Done(m') => LoadTable(m', f, Below(di, 6))
      case fail => fail
  }

  /** The machine as the BIOS starts the loader: the first sector is in memory. */
  ghost function Started(mem: seq<byte>, f: Floppy): (m: Machine)
    requires |mem| == MEMORY && Formatted(f)
    ensures Sane(m)
  {
    Machine(Deposit(mem, BOOT_ADDRESS, SectorData(f, 0)), 1, 0)
  }

  ghost function Boot(mem: seq<byte>, f: Floppy): (r: Outcome)
    requires |mem| == MEMORY && Formatted(f)
    ensures r.Done? ==> Sane(r.m)
  {
    match ReadProg(Started(mem, f), f, 0, START_OFFSET, 1)
    case Done(m) => LoadTable(m, f, FIRST_COUNT)
    case fail => fail
  }

  // -------- Attempts and counts --------

  /** A sector is read if and only if one of three attempts in a row works; the first that works is the last made. */
  lemma ThreeAttempts(m: Machine, f: Floppy, es: word, bx: word)
    requires Sane(m) && Formatted(f)
    ensures var r := ReadSector(m, f, es, bx);
            && (r == ReadFailed <==> forall n :: m.tries <= n < m.tries + 3 ==> n in f.failures)
            && (r.Done? ==> && m.tries < r.m.tries <= m.tries + 3 && r.m.tries - 1 !in f.failures
                            && forall n :: m.tries <= n < r.m.tries - 1 ==> n in f.failures)
  {
    assert m.tries + 1 < m.tries + 3;
  }

  /** readprog reads as many sectors as the count says, or one if the count is 0 or negative as a signed word. */
  lemma {:induction false} SectorsRead(m: Machine, f: Floppy, es: word, bx: word, count: word)
    requires Sane(m) && Formatted(f)
    ensures ReadProg(m, f, es, bx, count).Done? ==>
              ReadProg(m, f, es, bx, count).m.next == m.next + if 0 < count < 0x8000 then count else 1
    ensures !(0 < count < 0x8000) ==> ReadProg(m, f, es, bx, count) == ReadSector(m, f, es, bx)
    decreases DISK_SECTORS - m.next
  {
    hide ReadSector, NextPointer;
    var one := ReadSector(m, f, es, bx);
    if one.Done? && More(count) {
      var p := NextPointer(es, bx);
      SectorsRead(one.m, f, p.0, p.1, count - 1);
    }
  }

  // -------- Segment stepping --------

  /** The pointer before sector `i` of a program. */
  ghost function Pointer(es: word, bx: word, i: nat): (word, word)
    decreases i
  {
    if i == 0 then (es, bx) else var p := NextPointer(es, bx); Pointer(p.0, p.1, i - 1)
  }

  /** No 64K boundary is crossed askew in `n` sectors. */
  predicate Straight(bx: word, n: nat) {
    bx % 512 == 0 || bx + 512 * n < 0x1_0000 + 512
  }

  /** The pointer is linear exactly when it starts on a multiple of 512 or never reaches the segment's end. */
  lemma {:induction false} LinearIff(es: word, bx: word, n: nat)
    requires n > 0 && Physical(es, bx) + 512 * n <= 0x10_0000
    ensures Straight(bx, n) <==>
            forall i :: 0 <= i < n ==>
              var p := Pointer(es, bx, i); Physical(p.0, p.1) == Physical(es, bx) + 512 * i
  {
    if Straight(bx, n) {
      forall i | 0 <= i < n ensures var p := Pointer(es, bx, i); Physical(p.0, p.1) == Physical(es, bx) + 512 * i {
        StaysLinear(es, bx, n, i);
      }
    } else {
      var i := LeavesLine(es, bx, n);
    }
  }

  lemma {:induction false} StaysLinear(es: word, bx: word, n: nat, i: nat)
    requires i < n && Straight(bx, n) && Physical(es, bx) + 512 * n <= 0x10_0000
    ensures var p := Pointer(es, bx, i); Physical(p.0, p.1) == Physical(es, bx) + 512 * i
    decreases i
  {
    if i > 0 {
      StepLinear(es, bx, n);
      var p := NextPointer(es, bx);
      StaysLinear(p.0, p.1, n - 1, i - 1);
    }
  }

  lemma StepLinear(es: word, bx: word, n: nat)
    requires n > 1 && Straight(bx, n) && Physical(es, bx) + 512 * n <= 0x10_0000
    ensures var p := NextPointer(es, bx); Physical(p.0, p.1) == Physical(es, bx) + 512 && Straight(p.1, n - 1)
  {
  }

  lemma {:induction false} LeavesLine(es: word, bx: word, n: nat) returns (i: nat)
    requires !Straight(bx, n) && Physical(es, bx) + 512 * n <= 0x10_0000
    ensures 0 < i < n && var p := Pointer(es, bx, i); Physical(p.0, p.1) != Physical(es, bx) + 512 * i
    decreases n
  {
    var p := NextPointer(es, bx);
    if bx + 512 > 0xFFFF {
      i := 1;
      assert Pointer(p.0, p.1, 0) == p;
    } else {
      i := LeavesLine(p.0, p.1, n - 1);
      i := i + 1;
    }
  }

  // -------- The loader itself --------

  datatype Fate = Loaded | ReadError | OutOfDisk

  class Loader {
    const floppy: Floppy
    const mem: array<byte>
    var cylinder: nat
    var head: nat
    var sector: nat
    var tries: nat

    ghost predicate Valid()
      reads this
    {
      Formatted(floppy) && mem.Length == MEMORY && cylinder < 80 && head < 2 && 1 <= sector <= 18
    }

    /** The counter as a linear sector number in the 80x2x18 geometry. */
    function Linear(): (n: nat)
      requires Valid()
      reads this
      ensures n < DISK_SECTORS
    {
      (cylinder * 2 + head) * 18 + sector - 1
    }

    ghost function View(): (m: Machine)
      requires Valid()
      reads this, mem
      ensures Sane(m)
    {
      Machine(mem[..], Linear(), tries)
    }

    /** The loader's fate agrees with an outcome on values. */
    ghost predicate Shows(fate: Fate, o: Outcome)
      requires Valid()
      reads this, mem
    {
      match fate
      case Loaded => o == Done(View())
      case ReadError => o == ReadFailed
      case OutOfDisk => o == TooBig
    }

    /** The loader with the first sector in memory, where the BIOS put it. */
    constructor (floppy: Floppy, mem: array<byte>)
      requires Formatted(floppy) && mem.Length == MEMORY
      requires Present(mem[..], BOOT_ADDRESS, SectorData(floppy, 0))
      ensures Valid() && this.floppy == floppy && this.mem == mem && View() == Machine(mem[..], 1, 0)
    {
      this.floppy, this.mem := floppy, mem;
      cylinder, head, sector, tries := 0, 0, 2, 0;
    }

    /** Interrupt 0x13 for the sector the counter says: on success its bytes are at `at`. */
    method BiosRead(at: nat) returns (ok: bool)
      requires Valid() && at + SECTOR <= MEMORY
      modifies `tries, mem
      ensures Valid() && tries == old(tries) + 1 && ok == floppy.Works(old(tries))
      ensures mem[..] == if ok then Deposit(old(mem[..]), at, SectorData(floppy, Linear())) else old(mem[..])
    {
      ok := floppy.Works(tries);
      tries := tries + 1;
      if ok {
        ghost var data, was := SectorData(floppy, Linear()), mem[..];
        var from := Linear() * SECTOR;
        for k := 0 to SECTOR
          invariant tries == old(tries) + 1
          invariant forall j :: 0 <= j < MEMORY ==> mem[j] == if at <= j < at + k then data[j - at] else was[j]
        {
          mem[at + k] := floppy.content[from + k];
        }
        assert mem[..] == Deposit(was, at, data);
      }
    }

    /** At most three attempts at one sector. */
    method Retry(at: nat) returns (ok: bool)
      requires Valid() && at + SECTOR <= MEMORY
      modifies `tries, mem
      ensures Valid() && var n := Attempts(floppy, old(tries)); (ok <==> n > 0) && (ok ==> tries == old(tries) + n)
      ensures ok ==> mem[..] == Deposit(old(mem[..]), at, SectorData(floppy, Linear()))
    {
      var cx := 3;
      ok := false;
      while cx > 0 && !ok
        invariant 0 <= cx <= 3 && tries == old(tries) + 3 - cx
        invariant ok ==> cx < 3 && tries == old(tries) + Attempts(floppy, old(tries))
        invariant ok ==> mem[..] == Deposit(old(mem[..]), at, SectorData(floppy, Linear()))
        invariant !ok ==> mem[..] == old(mem[..]) && forall n :: old(tries) <= n < tries ==> !floppy.Works(n)
      {
        ok := BiosRead(at);
        cx := cx - 1;
      }
    }

    /** From readcont2 on: the counter's next place, unless the disk ends there. */
    method Advance() returns (more: bool)
      requires Valid()
      modifies `cylinder, `head, `sector
      ensures more <==> old(Linear()) + 1 < DISK_SECTORS
      ensures more ==> Valid() && Linear() == old(Linear()) + 1
      ensures !more ==> Valid() && Linear() == old(Linear())
    {
      var cl, dh, ch := sector + 1, head, cylinder;
      if cl == 19 {
        cl := 1;
        dh := dh + 1;
        if dh == 2 {
          dh := 0;
          ch := ch + 1;
          if ch == 80 {
            return false;
          }
        }
      }
      sector, head, cylinder := cl, dh, ch;
      return true;
    }

    /** One turn of readprog. */
    method ReadOne(es: word, bx: word) returns (fate: Fate)
      requires Valid()
      modifies this, mem
      ensures Valid() && Shows(fate, ReadSector(old(View()), floppy, es, bx))
    {
      var ok := Retry(Physical(es, bx));
      if !ok {
        return ReadError;
      }
      var more := Advance();
      return if more then Loaded else OutOfDisk;
    }

    /** readprog */
    method ReadBlocks(es0: word, bx0: word, count: word) returns (fate: Fate)
      requires Valid()
      modifies this, mem
      ensures Valid() && Shows(fate, ReadProg(old(View()), floppy, es0, bx0, count))
    {
      hide ReadSector, Physical, Formatted;
      var es, bx, ax, going := es0, bx0, count, true;
      fate := Loaded;
      while going
        invariant Valid()
        invariant if going then ReadProg(View(), floppy, es, bx, ax) == ReadProg(old(View()), floppy, es0, bx0, count)
                  else Shows(fate, ReadProg(old(View()), floppy, es0, bx0, count))
        decreases going, DISK_SECTORS - Linear()
      {
        fate := ReadOne(es, bx);
        going := fate == Loaded && More(ax);
        if going {
          if bx == LAST_BLOCK {
            bx, es := 0, Plus(es, 0x1000);
          } else {
            bx := Plus(bx, 512);
          }
          ax := ax - 1;
        }
      }
    }

    /** A word of the loader's own data segment. */
    method Word(di: word) returns (w: word)
      requires Valid()
      ensures w == TableWord(mem[..], di)
    {
      var low: int, high: int := mem[BOOT_ADDRESS + di], mem[BOOT_ADDRESS + di + 1];
      w := low + 0x100 * high;
    }

    /** The loop at nextblock. */
    method LoadPrograms() returns (fate: Fate)
      requires Valid()
      modifies this, mem
      ensures Valid() && Shows(fate, LoadTable(old(View()), floppy, FIRST_COUNT))
    {
      var di: word := FIRST_COUNT;
      var ax := Word(di);
      fate := Loaded;
      while fate == Loaded && ax != 0
        invariant Valid() && (fate == Loaded ==> ax == TableWord(View().mem, di))
        invariant if fate == Loaded
                  then LoadTable(View(), floppy, di) == LoadTable(old(View()), floppy, FIRST_COUNT)
                  else Shows(fate, LoadTable(old(View()), floppy, FIRST_COUNT))
        decreases fate == Loaded, DISK_SECTORS - Linear()
      {
        var es := Word(Below(di, 2));
        var bx := Word(Below(di, 4));
        fate := ReadBlocks(es, bx, ax);
        di := Below(di, 6);
        if fate == Loaded {
          ax := Word(di);
        }
      }
    }
  }

  /** From power-up: the BIOS reads the first sector, the loader the second one and then the programs. */
  method PowerUp(floppy: Floppy, mem: array<byte>) returns (fate: Fate, loader: Loader)
    requires Formatted(floppy) && mem.Length == MEMORY
    modifies mem
    ensures loader.Valid() && loader.mem == mem && loader.floppy == floppy
    ensures loader.Shows(fate, Boot(old(mem[..]), floppy))
  {
    BiosStart(floppy, mem);
    loader := new Loader(floppy, mem);
    fate := loader.ReadBlocks(0, START_OFFSET, 1);
    if fate == Loaded {
      fate := loader.LoadPrograms();
    }
  }

  method BiosStart(floppy: Floppy, mem: array<byte>)
    requires Formatted(floppy) && mem.Length == MEMORY
    modifies mem
    ensures mem[..] == Started(old(mem[..]), floppy).mem
  {
    for k := 0 to SECTOR
      invariant forall j :: 0 <= j < MEMORY ==>
                  mem[j] == if BOOT_ADDRESS <= j < BOOT_ADDRESS + k then floppy.content[j - BOOT_ADDRESS]
                            else old(mem[j])
    {
      mem[BOOT_ADDRESS + k] := floppy.content[k];
    }
    assert mem[..] == Started(old(mem[..]), floppy).mem;
  }
}

/** Bytes, words and sectors, as the image builder and the boot loader share them. */
module Disk {

  type byte = b: int | 0 <= b < 0x100
  type word = w: int | 0 <= w < 0x1_0000

  const SECTOR: nat := 512

  /** The little-endian word at a place. */
  function WordAt(s: seq<byte>, at: nat): word
    requires at + 2 <= |s|
  {
    var low: int, high: int := s[at], s[at + 1];
    low + 0x100 * high
  }

  function Zeros(n: nat): seq<byte> {
    seq(n, _ => 0)
  }

  /** How many sectors a file takes. */
  function Sectors(s: seq<byte>): (n: nat)
    ensures (n as int - 1) * SECTOR < |s| <= n * SECTOR
  {
    (|s| + SECTOR - 1) / SECTOR
  }

  /** A file with null bytes up to the end of its last sector. */
  function Padded(s: seq<byte>): (r: seq<byte>)
    ensures |r| == Sectors(s) * SECTOR && r[..|s|] == s && forall k :: |s| <= k < |r| ==> r[k] == 0
  {
    s + Zeros(Sectors(s) * SECTOR - |s|)
  }

  /** `mem` with `data` written over it. */
  function Deposit(mem: seq<byte>, at: nat, data: seq<byte>): (r: seq<byte>)
    requires at + |data| <= |mem|
    ensures |r| == |mem|
    ensures forall k :: 0 <= k < |mem| ==> r[k] == if at <= k < at + |data| then data[k - at] else mem[k]
  {
    mem[..at] + data + mem[at + |data|..]
  }

  lemma DepositInFront(front: seq<byte>, rest: seq<byte>, at: nat, data: seq<byte>)
    requires at + |data| <= |front|
    ensures Deposit(front + rest, at, data) == Deposit(front, at, data) + rest
  {
  }

  lemma WordDeposited(s: seq<byte>, at: nat, data: seq<byte>, k: nat)
    requires at + |data| <= |s| && k + 2 <= |data|
    ensures WordAt(Deposit(s, at, data), at + k) == WordAt(data, k)
  {
  }

  lemma WordInFront(front: seq<byte>, rest: seq<byte>, k: nat)
    requires k + 2 <= |front|
    ensures WordAt(front + rest, k) == WordAt(front, k)
  {
  }

  /** The data is in memory at `at`. */
  predicate Present(mem: seq<byte>, at: nat, data: seq<byte>) {
    at + |data| <= |mem| && forall k :: 0 <= k < |data| ==> mem[at + k] == data[k]
  }

  /** Words as bytes, low byte first. */
  function Bytes(ws: seq<word>): (s: seq<byte>)
    ensures |s| == 2 * |ws|
  {
    if ws == [] then [] else [ws[0] % 0x100, ws[0] / 0x100] + Bytes(ws[1..])
  }

  lemma {:induction false} BytesReadBack(ws: seq<word>, j: nat)
    requires j < |ws|
    ensures WordAt(Bytes(ws), 2 * j) == ws[j]
  {
    if j > 0 {
      BytesReadBack(ws[1..], j - 1);
    }
  }
}

/** The keyboard: scan codes in, characters out of a ring buffer. */
module Keyboard {

  const C_BUFSIZE: nat := 200
  const UNDEFINED: CharCode := 255  // what the tables hold for a key without a character
  const EOT: int := 4

  type CharCode = c: nat | c < 0x100

  /** The scan code tables of unsigned characters, plain and shifted, are a parameter. */
  type Table = (bool, nat) -> CharCode

  /** A character code as the machine's signed char; so the literal '\377' means -1. */
  function Signed(c: CharCode): int {
    if c < 0x80 then c else c - 0x100
  }

  /** What the driver remembers: the characters waiting, and which modifier keys are down. */
  datatype Keys = Keys(waiting: seq<CharCode>, shift: bool, ctrl: bool)

  const CAPACITY: nat := C_BUFSIZE - 1

  datatype Key = None | Some(c: int, echo: bool)

  datatype KeyEvent = Scan(code: nat) | Get

  /** The byte that a scan code types, if any: a key without a character types one too. */
  function Typed(k: Keys, code: nat, table: Table): (r: seq<CharCode>)
    ensures |r| <= 1
  {
    var scan := code % 256;
    if scan in {0x2A, 0x36, 0xAA, 0xB6, 0x1D, 0x9D} || scan >= 0x80 then []
    else [table(k.shift, scan) % (if k.ctrl then 0x20 else 0x100)]
  }

  predicate IsModifier(scan: nat) {
    scan in {0x2A, 0x36, 0x1D}
  }

  predicate IsRelease(scan: nat) {
    0x80 <= scan < 0x100
  }

  /** The test against the literal for an undefined key never holds, so only modifiers and releases type nothing. */
  lemma TypesNothingIff(k: Keys, code: nat, table: Table)
    ensures Typed(k, code, table) == [] <==> IsModifier(code % 256) || IsRelease(code % 256)
    ensures table(k.shift, code % 256) != Signed(UNDEFINED) == -1
  {
  }

  /** A key without a character is queued, and reads as -1, or as a control character while Ctrl is down. */
  lemma UndefinedKeyReads(k: Keys, code: nat, table: Table)
    requires code % 256 < 0x80 && !IsModifier(code % 256) && table(k.shift, code % 256) == UNDEFINED
    requires |k.waiting| < CAPACITY
    ensures var t := KeyStep(k, Scan(code), table);
            && |t.waiting| == |k.waiting| + 1 && t.waiting[..|k.waiting|] == k.waiting
            && Signed(t.waiting[|k.waiting|]) == if k.ctrl then 0x1F else -1
  {
  }

  function Modify(k: Keys, code: nat): Keys {
    match code % 256
    case 0x2A => k.(shift := true)
    case 0x36 => k.(shift := true)
    case 0xAA => k.(shift := false)
    case 0xB6 => k.(shift := false)
    case 0x1D => k.(ctrl := true)
    case 0x9D => k.(ctrl := false)
    case _ => k
  }

  /** The typed character, if it finds room. */
  function Accepted(k: Keys, code: nat, table: Table): seq<CharCode> {
    if |k.waiting| < CAPACITY then Typed(k, code, table) else []
  }

  function Fetched(k: Keys): seq<CharCode> {
    if k.waiting == [] then [] else [k.waiting[0]]
  }

  function Taken(k: Keys): Keys {
    if k.waiting == [] then k else k.(waiting := k.waiting[1..])
  }

  /** One event of a keyboard with a queue of 199 characters that drops what does not fit. */
  function KeyStep(k: Keys, e: KeyEvent, table: Table): Keys {
    match e
    case Scan(code) => Modify(k, code).(waiting := k.waiting + Accepted(k, code, table))
    case Get => Taken(k)
  }

  ghost function KeyRun(k: Keys, es: seq<KeyEvent>, table: Table): Keys
    decreases |es|
  {
    if es == [] then k else KeyRun(KeyStep(k, es[0], table), es[1..], table)
  }

  /** All characters typed during a run, whether or not they find room. */
  ghost function AllTyped(k: Keys, es: seq<KeyEvent>, table: Table): seq<CharCode>
    decreases |es|
  {
    if es == [] then []
    else (if es[0].Scan? then Typed(k, es[0].code, table) else []) + AllTyped(KeyStep(k, es[0], table), es[1..], table)
  }

  ghost function AllAccepted(k: Keys, es: seq<KeyEvent>, table: Table): seq<CharCode>
    decreases |es|
  {
    if es == [] then []
    else
      (if es[0].Scan? then Accepted(k, es[0].code, table) else [])
      + AllAccepted(KeyStep(k, es[0], table), es[1..], table)
  }

  ghost function AllFetched(k: Keys, es: seq<KeyEvent>, table: Table): seq<CharCode>
    decreases |es|
  {
    if es == [] then []
    else (if es[0].Get? then Fetched(k) else []) + AllFetched(KeyStep(k, es[0], table), es[1..], table)
  }

  lemma StepConserves(k: Keys, e: KeyEvent, table: Table)
    requires |k.waiting| <= CAPACITY
    ensures var t := KeyStep(k, e, table);
            && |t.waiting| <= CAPACITY
            && k.waiting + (if e.Scan? then Accepted(k, e.code, table) else [])
               == (if e.Get? then Fetched(k) else []) + t.waiting
  {
  }

  /** First in, first out, each accepted character exactly once, and never more than 199 of them. */
  lemma {:induction false} KeysConserved(k: Keys, es: seq<KeyEvent>, table: Table)
    requires |k.waiting| <= CAPACITY
    ensures k.waiting + AllAccepted(k, es, table) == AllFetched(k, es, table) + KeyRun(k, es, table).waiting
    ensures |KeyRun(k, es, table).waiting| <= CAPACITY
    decreases |es|
  {
    hide KeyStep, Accepted, Fetched;
    if es != [] {
      var e, t := es[0], KeyStep(k, es[0], table);
      StepConserves(k, e, table);
      KeysConserved(t, es[1..], table);
      var arrived := if e.Scan? then Accepted(k, e.code, table) else [];
      var left := if e.Get? then Fetched(k) else [];
      assert k.waiting + (arrived + AllAccepted(t, es[1..], table))
          == (k.waiting + arrived) + AllAccepted(t, es[1..], table);
      assert (left + t.waiting) + AllAccepted(t, es[1..], table)
          == left + (t.waiting + AllAccepted(t, es[1..], table));
    }
  }

  /** No character is typed while the buffer is full. */
  ghost predicate NeverFull(k: Keys, es: seq<KeyEvent>, table: Table)
    decreases |es|
  {
    es == []
    || ((es[0].Scan? && Typed(k, es[0].code, table) != [] ==> |k.waiting| < CAPACITY)
        && NeverFull(KeyStep(k, es[0], table), es[1..], table))
  }

  /** Characters are lost exactly when one is typed while 199 are waiting. */
  lemma {:induction false} LostIffFull(k: Keys, es: seq<KeyEvent>, table: Table)
    requires |k.waiting| <= CAPACITY
    ensures |AllAccepted(k, es, table)| <= |AllTyped(k, es, table)|
    ensures AllAccepted(k, es, table) == AllTyped(k, es, table) <==> NeverFull(k, es, table)
    decreases |es|
  {
    hide KeyStep, Accepted, Typed;
    if es != [] {
      var e, t := es[0], KeyStep(k, es[0], table);
      StepConserves(k, e, table);
      LostIffFull(t, es[1..], table);
      if e.Scan? {
        StepLoses(k, e.code, table);
        TogetherIff(Accepted(k, e.code, table), AllAccepted(t, es[1..], table),
                    Typed(k, e.code, table), AllTyped(t, es[1..], table));
      } else {
        TogetherIff([], AllAccepted(t, es[1..], table), [], AllTyped(t, es[1..], table));
      }
    }
  }

  lemma StepLoses(k: Keys, code: nat, table: Table)
    requires |k.waiting| <= CAPACITY
    ensures var a, b := Accepted(k, code, table), Typed(k, code, table);
            && (a == b || (a == [] && b != []))
            && (a == b <==> (b != [] ==> |k.waiting| < CAPACITY))
  {
  }

  lemma TogetherIff<T>(a: seq<T>, rest: seq<T>, b: seq<T>, all: seq<T>)
    requires (a == b || (a == [] && b != [])) && |rest| <= |all|
    ensures |a + rest| <= |b + all| && (a + rest == b + all <==> a == b && rest == all)
  {
    if a == b {
      assert (a + rest)[|a|..] == rest && (b + all)[|a|..] == all;
    }
  }

  // -------- The modifier keys --------

  datatype Modifier = Shift | Ctrl

  /** The event presses this modifier; there are two Shift keys. */
  predicate Presses(e: KeyEvent, key: Modifier) {
    e.Scan? && e.code % 256 in if key == Shift then {0x2A, 0x36} else {0x1D}
  }

  predicate Releases(e: KeyEvent, key: Modifier) {
    e.Scan? && e.code % 256 in if key == Shift then {0xAA, 0xB6} else {0x9D}
  }

  predicate IsDown(k: Keys, key: Modifier) {
    if key == Shift then k.shift else k.ctrl
  }

  /** Pressed at `i`, and not released after that. */
  ghost predicate HeldFrom(es: seq<KeyEvent>, i: nat, key: Modifier) {
    i < |es| && Presses(es[i], key) && NotReleased(es, i + 1, key)
  }

  ghost predicate NotReleased(es: seq<KeyEvent>, from: nat, key: Modifier) {
    forall j :: from <= j < |es| ==> !Releases(es[j], key)
  }

  lemma ModifierStep(k: Keys, e: KeyEvent, table: Table, key: Modifier)
    ensures IsDown(KeyStep(k, e, table), key) <==> Presses(e, key) || (IsDown(k, key) && !Releases(e, key))
  {
  }

  /** Shift and Ctrl are down exactly between a press and the next release. */
  lemma {:induction false} ModifierDownIff(k: Keys, es: seq<KeyEvent>, table: Table, key: Modifier)
    ensures IsDown(KeyRun(k, es, table), key) <==>
            (IsDown(k, key) && NotReleased(es, 0, key)) || exists i: nat :: HeldFrom(es, i, key)
    decreases |es|
  {
    hide KeyStep, Presses, Releases, IsDown;
    if es == [] {
      assert forall i: nat :: !HeldFrom(es, i, key);
    } else {
      var t, rest := KeyStep(k, es[0], table), es[1..];
      ModifierStep(k, es[0], table, key);
      ModifierDownIff(t, rest, table, key);
      NotBoth(es[0], key);
      HeldLater(es, key);
    }
  }

  lemma NotBoth(e: KeyEvent, key: Modifier)
    ensures !(Presses(e, key) && Releases(e, key))
  {
  }

  /** A press in a run is its first event or one of the others. */
  lemma HeldLater(es: seq<KeyEvent>, key: Modifier)
    requires es != []
    ensures NotReleased(es, 1, key) <==> NotReleased(es[1..], 0, key)
    ensures NotReleased(es, 0, key) <==> !Releases(es[0], key) && NotReleased(es[1..], 0, key)
    ensures (exists i: nat :: HeldFrom(es, i, key)) <==>
            HeldFrom(es, 0, key) || exists i: nat :: HeldFrom(es[1..], i, key)
  {
    hide Presses, Releases;
    var rest := es[1..];
    assert forall j :: 1 <= j < |es| ==> es[j] == rest[j - 1];
    forall i: nat ensures HeldFrom(es, i + 1, key) <==> HeldFrom(rest, i, key) {
      Shifted(es, i + 2, key);
    }
    Shifted(es, 1, key);
    if i: nat :| HeldFrom(es, i, key) {
      if i > 0 {
        assert HeldFrom(rest, i - 1, key);
      }
    }
    if i: nat :| HeldFrom(rest, i, key) {
      assert HeldFrom(es, i + 1, key);
    }
  }

  lemma Shifted(es: seq<KeyEvent>, from: nat, key: Modifier)
    requires es != [] && from > 0
    ensures NotReleased(es, from, key) <==> NotReleased(es[1..], from - 1, key)
  {
    hide Releases;
    var rest := es[1..];
    assert forall j :: 0 <= j < |rest| ==> rest[j] == es[j + 1];
    if NotReleased(rest, from - 1, key) {
      forall j | from <= j < |es| ensures !Releases(es[j], key) {
        assert !Releases(rest[j - 1], key);
      }
    }
  }

  /** Any other press types the table's character: the shifted one under Shift, its low five bits under Ctrl. */
  lemma OrdinaryKeyTypes(k: Keys, code: nat, table: Table)
    requires code % 256 < 0x80 && !IsModifier(code % 256)
    ensures var c := table(IsDown(k, Shift), code % 256);
            Typed(k, code, table) == [if IsDown(k, Ctrl) then c % 32 else c]
  {
  }

  /** A ring read from one place up to another. */
  ghost function Ring(b: seq<CharCode>, from: nat, to: nat): seq<CharCode>
    requires from < |b| && to < |b|
  {
    if from <= to then b[from..to] else b[from..] + b[..to]
  }

  lemma RingGrows(b: seq<CharCode>, from: nat, to: nat, c: CharCode)
    requires from < |b| && to < |b| && from != if to + 1 == |b| then 0 else to + 1
    ensures Ring(b[to := c], from, if to + 1 == |b| then 0 else to + 1) == Ring(b, from, to) + [c]
  {
    if from <= to {
      assert to + 1 < |b| ==> b[to := c][from..to + 1] == b[from..to] + [c];
    } else {
      assert b[to := c][from..] == b[from..] && b[to := c][..to + 1] == b[..to] + [c];
    }
  }

  // -------- The driver --------

  class Driver {
    const buffer: array<CharCode>
    var nextChar: nat
    var nextSpace: nat
    var shift: bool
    var ctrlMask: nat

    ghost predicate Valid()
      reads this
    {
      buffer.Length == C_BUFSIZE && nextChar < C_BUFSIZE && nextSpace < C_BUFSIZE && ctrlMask in {0xFF, 0x1F}
    }

    /** The ring read from the next character up to the next space. */
    ghost function Waiting(): (s: seq<CharCode>)
      requires Valid()
      reads this, buffer
      ensures |s| <= CAPACITY
    {
      Ring(buffer[..], nextChar, nextSpace)
    }

    ghost function View(): Keys
      requires Valid()
      reads this, buffer
    {
      Keys(Waiting(), shift, ctrlMask == 0x1F)
    }

    constructor ()
      ensures Valid() && View() == Keys([], false, false)
    {
      buffer := new CharCode[C_BUFSIZE](_ => 0);
      nextChar, nextSpace, shift, ctrlMask := 0, 0, false, 0xFF;
    }

    /** __c_increment */
    function Increment(pointer: nat): (r: nat)
      requires pointer < C_BUFSIZE
      ensures r < C_BUFSIZE && r == (pointer + 1) % C_BUFSIZE
    {
      if pointer + 1 >= C_BUFSIZE then 0 else pointer + 1
    }

    /** __c_input_scan_code */
    method InputScanCode(code: nat, table: Table)
      requires Valid()
      modifies this, buffer
      ensures Valid() && View() == KeyStep(old(View()), Scan(code), table)
    {
      var scan := code % 256;
      match scan
      case 0x2A => shift := true;
      case 0x36 => shift := true;
      case 0xAA => shift := false;
      case 0xB6 => shift := false;
      case 0x1D => ctrlMask := 0x1F;
      case 0x9D => ctrlMask := 0xFF;
      case _ =>
        if scan < 0x80 {
          var c := table(shift, scan);
          if c != Signed(UNDEFINED) {
            Store(c % (ctrlMask + 1));
          }
        }
    }

    /** The character is stored only if there is room. */
    method Store(c: CharCode)
      requires Valid()
      modifies `nextSpace, buffer
      ensures Valid()
      ensures Waiting() == old(Waiting()) + if |old(Waiting())| < CAPACITY then [c] else []
    {
      var next := Increment(nextSpace);
      if next != nextChar {
        RingGrows(buffer[..], nextChar, nextSpace, c);
        buffer[nextSpace] := c;
        nextSpace := next;
      }
    }

    /** c_getchar: the next character as a signed char, and whether it is echoed; None where the source waits. */
    method GetChar() returns (key: Key)
      requires Valid()
      modifies `nextChar
      ensures Valid() && View() == Taken(old(View()))
      ensures var w := old(Waiting());
              key == if w == [] then None else Some(Signed(w[0]), Signed(w[0]) != EOT)
    {
      if nextChar == nextSpace {
        return None;
      }
      var c := Signed(buffer[nextChar]);
      nextChar := Increment(nextChar);
      return Some(c, c != EOT);
    }

    /** c_input_queue */
    method InputQueue() returns (n: int)
      requires Valid()
      ensures n == |View().waiting| <= CAPACITY
    {
      n := nextSpace - nextChar;
      if n < 0 {
        n := n + C_BUFSIZE;
      }
    }
  }
}

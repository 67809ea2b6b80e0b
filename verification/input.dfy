/**
 * Controller input: two gamepads read serially through the ports at 0x4016
 * and 0x4017, a strobe write that rewinds both, and the keyboard table that
 * sets the first gamepad's buttons.
 */
module Input {
  import opened Base

  // The strobe order: the position at which each button is read.
  const STROBE_A: byte := 0
  const STROBE_B: byte := 1
  const STROBE_SELECT: byte := 2
  const STROBE_START: byte := 3
  const STROBE_UP: byte := 4
  const STROBE_DOWN: byte := 5
  const STROBE_LEFT: byte := 6
  const STROBE_RIGHT: byte := 7

  /** The two controller ports on the CPU bus. */
  const PORT_1: bv16 := 0x4016
  const PORT_2: bv16 := 0x4017

  /** `state as u8`. */
  function BitOf(pressed: bool): (bit: byte)
    ensures bit <= 1 && (bit == 1 <==> pressed)
  {
    if pressed then 1 else 0
  }

  /** The strobe position after one read: `(s + 1) & 7`, wrapping after Right. */
  function Advance(s: byte): (next: byte)
    requires s < 8
    ensures next < 8
    ensures next as int == (s as int + 1) % 8
  {
    (s + 1) & 7
  }

  /** The bits that `n` consecutive reads return when the first read is at position `s`. */
  function Strobe(buttons: seq<bool>, s: byte, n: nat): (bits: seq<byte>)
    requires |buttons| == 8 && s < 8
    ensures |bits| == n
    decreases n
  {
    if n == 0 then [] else [BitOf(buttons[s])] + Strobe(buttons, Advance(s), n - 1)
  }

  /** The strobe position after `n` consecutive reads from position `s`. */
  function PositionAfter(s: byte, n: nat): (p: byte)
    requires s < 8
    ensures p < 8
    decreases n
  {
    if n == 0 then s else PositionAfter(Advance(s), n - 1)
  }

  /** The `k`-th of `n` consecutive reads returns the button at position `s + k` (mod 8). */
  lemma {:induction false} StrobeReads(buttons: seq<bool>, s: byte, n: nat)
    requires |buttons| == 8 && s < 8
    ensures |Strobe(buttons, s, n)| == n
    ensures forall k :: 0 <= k < n ==> Strobe(buttons, s, n)[k] == BitOf(buttons[(s as int + k) % 8])
    ensures PositionAfter(s, n) as int == (s as int + n) % 8
    decreases n
  {
    if n > 0 {
      StrobeReads(buttons, Advance(s), n - 1);
    }
  }

  /**
   * One more read extends the bits by the button at the position the first
   * `n` reads reached, and advances that position once: `n + 1` calls of
   * `NextState` compose from `n` calls and one more.
   */
  lemma {:induction false} StrobeStep(buttons: seq<bool>, s: byte, n: nat)
    requires |buttons| == 8 && s < 8
    ensures PositionAfter(s, n + 1) == Advance(PositionAfter(s, n))
    ensures Strobe(buttons, s, n + 1) == Strobe(buttons, s, n) + [BitOf(buttons[PositionAfter(s, n)])]
    decreases n
  {
    if n > 0 {
      StrobeStep(buttons, Advance(s), n - 1);
    }
  }

  /** Eight reads from any position come back to that position. */
  lemma EightReadsReturn(s: byte)
    requires s < 8
    ensures PositionAfter(s, 8) == s
  {
    StrobeReads([false, false, false, false, false, false, false, false], s, 8);
  }

  /**
   * Eight reads from position 0 return every button once, in the order
   * A, B, Select, Start, Up, Down, Left, Right.
   */
  lemma EightReadsInStrobeOrder(buttons: seq<bool>)
    requires |buttons| == 8
    ensures |Strobe(buttons, STROBE_A, 8)| == 8
    ensures forall k :: 0 <= k < 8 ==> Strobe(buttons, STROBE_A, 8)[k] == BitOf(buttons[k])
  {
    StrobeReads(buttons, STROBE_A, 8);
    forall k | 0 <= k < 8
      ensures Strobe(buttons, STROBE_A, 8)[k] == BitOf(buttons[k])
    {
      assert (STROBE_A as int + k) % 8 == k;
    }
  }

  /** One standard controller: eight buttons and the strobe position of the next read. */
  class Gamepad {
    var left: bool
    var right: bool
    var up: bool
    var down: bool
    var a: bool
    var b: bool
    var select: bool
    var start: bool
    var strobeState: byte

    /** The strobe position always names a button. */
    ghost predicate Valid()
      reads this
    {
      strobeState < 8
    }

    /** The buttons in strobe order: `Buttons()[STROBE_X]` is button X. */
    function Buttons(): (bs: seq<bool>)
      reads this
      ensures |bs| == 8
    {
      [a, b, select, start, up, down, left, right]
    }

    /** `Gamepad::default()`: nothing pressed, strobe at A. */
    constructor ()
      ensures Valid()
      ensures strobeState == STROBE_A
      ensures Buttons() == [false, false, false, false, false, false, false, false]
    {
      left, right, up, down := false, false, false, false;
      a, b, select, start := false, false, false, false;
      strobeState := STROBE_A;
    }

    /** Returns the bit of the button at the current strobe position and moves to the next one. */
    method NextState() returns (bit: byte)
      requires Valid()
      modifies this`strobeState
      ensures Valid()
      ensures bit == BitOf(Buttons()[old(strobeState)])
      ensures strobeState == Advance(old(strobeState))
      ensures [bit] == Strobe(Buttons(), old(strobeState), 1)
    {
      var state: bool;
      if strobeState == STROBE_A {
        state := a;
      } else if strobeState == STROBE_B {
        state := b;
      } else if strobeState == STROBE_SELECT {
        state := select;
      } else if strobeState == STROBE_START {
        state := start;
      } else if strobeState == STROBE_UP {
        state := up;
      } else if strobeState == STROBE_DOWN {
        state := down;
      } else if strobeState == STROBE_LEFT {
        state := left;
      } else if strobeState == STROBE_RIGHT {
        state := right;
      } else {
        // the `panic!` arm: no valid strobe position reaches it
        assert false;
        state := false;
      }
      strobeState := (strobeState + 1) & 7;
      bit := BitOf(state);
    }

    /** Rewinds the strobe to A. */
    method Reset()
      modifies this`strobeState
      ensures Valid()
      ensures strobeState == STROBE_A
    {
      strobeState := STROBE_A;
    }
  }

  /** The keys the input layer distinguishes; every other key is `Other`. */
  datatype Keycode = Z | X | A | S | RShift | Return | Up | Down | Left | Right | Other(sym: int)

  /** What the emulator loop should do after an input event. */
  datatype InputResult =
    | Continue | Quit | Open | Menu | ResetConsole | PowerCycle | IncSpeed | DecSpeed
    | FastForward(on: bool) | SetState(slot: byte) | Save | LoadState | ToggleSound
    | ToggleDebug | Screenshot | ToggleRecord | ToggleFullscreen | CycleLogLevel

  /** Slots of the controls a key can set: gamepad 1's buttons in strobe order, then the two turbo switches. */
  const TURBO_A: nat := 8
  const TURBO_B: nat := 9

  /** The keyboard binding: the control slot a key sets, if any. */
  function KeyBinding(key: Keycode): (slot: Option<nat>)
    ensures slot.Some? ==> slot.value < 10
  {
    match key
    case Z => Some(STROBE_A as nat)
    case X => Some(STROBE_B as nat)
    case A => Some(TURBO_A)
    case S => Some(TURBO_B)
    case RShift => Some(STROBE_SELECT as nat)
    case Return => Some(STROBE_START as nat)
    case Up => Some(STROBE_UP as nat)
    case Down => Some(STROBE_DOWN as nat)
    case Left => Some(STROBE_LEFT as nat)
    case Right => Some(STROBE_RIGHT as nat)
    case Other(_) => None
  }

  /** Distinct keys set distinct controls, and every control has a key. */
  lemma KeyBindingIsOneToOne(k1: Keycode, k2: Keycode, slot: nat)
    ensures KeyBinding(k1).Some? && KeyBinding(k1) == KeyBinding(k2) ==> k1 == k2
    ensures slot < 10 ==> exists k :: KeyBinding(k) == Some(slot)
  {
    if slot < 10 {
      var k :=
        if slot == 0 then Z else if slot == 1 then X else if slot == 2 then RShift
        else if slot == 3 then Return else if slot == 4 then Up else if slot == 5 then Down
        else if slot == 6 then Left else if slot == 7 then Right else if slot == 8 then A else S;
      assert KeyBinding(k) == Some(slot);
    }
  }

  /** The controller ports and the keyboard state behind them. */
  class Input {
    const gamepad1: Gamepad
    const gamepad2: Gamepad
    var turboa: bool
    var turbob: bool
    var lctrl: bool
    var lshift: bool

    ghost predicate Valid()
      reads this, gamepad1, gamepad2
    {
      gamepad1 != gamepad2 && gamepad1.Valid() && gamepad2.Valid()
    }

    /** What the keyboard sets: gamepad 1's buttons in strobe order, then turbo A and turbo B. */
    function Controls(): (c: seq<bool>)
      reads this, gamepad1
      ensures |c| == 10
    {
      gamepad1.Buttons() + [turboa, turbob]
    }

    /** `Input::new()`: two idle gamepads, no modifier or turbo held. */
    constructor ()
      ensures Valid() && fresh(gamepad1) && fresh(gamepad2)
      ensures gamepad1.strobeState == STROBE_A && gamepad2.strobeState == STROBE_A
      ensures Controls() == [false, false, false, false, false, false, false, false, false, false]
      ensures gamepad2.Buttons() == [false, false, false, false, false, false, false, false]
      ensures !lctrl && !lshift
    {
      gamepad1 := new Gamepad();
      gamepad2 := new Gamepad();
      turboa, turbob := false, false;
      lctrl, lshift := false, false;
    }

    /**
     * A CPU read of a controller port: 0x4016 reads gamepad 1, 0x4017
     * gamepad 2, one button bit per read; any other address reads 0.
     */
    method ReadB(addr: bv16) returns (val: byte)
      requires Valid()
      modifies gamepad1`strobeState, gamepad2`strobeState
      ensures Valid()
      ensures addr == PORT_1 ==>
                && val == BitOf(gamepad1.Buttons()[old(gamepad1.strobeState)])
                && gamepad1.strobeState == Advance(old(gamepad1.strobeState))
                && gamepad2.strobeState == old(gamepad2.strobeState)
      ensures addr == PORT_2 ==>
                && val == BitOf(gamepad2.Buttons()[old(gamepad2.strobeState)])
                && gamepad2.strobeState == Advance(old(gamepad2.strobeState))
                && gamepad1.strobeState == old(gamepad1.strobeState)
      ensures addr != PORT_1 && addr != PORT_2 ==>
                val == 0 && unchanged(gamepad1) && unchanged(gamepad2)
    {
      if addr == PORT_1 {
        val := gamepad1.NextState();
      } else if addr == PORT_2 {
        val := gamepad2.NextState();
      } else {
        val := 0;
      }
    }

    /** A CPU write: a write to 0x4016, whatever its value, rewinds both gamepads. */
    method WriteB(addr: bv16, val: byte)
      requires Valid()
      modifies gamepad1`strobeState, gamepad2`strobeState
      ensures Valid()
      ensures addr == PORT_1 ==> gamepad1.strobeState == STROBE_A && gamepad2.strobeState == STROBE_A
      ensures addr != PORT_1 ==> unchanged(gamepad1) && unchanged(gamepad2)
    {
      if addr == PORT_1 {
        gamepad1.Reset();
        gamepad2.Reset();
      }
    }

    /** Turbo: while a turbo switch is held, the turbo clock drives gamepad 1's A (or B) button. */
    method ApplyTurbo(turbo: bool)
      requires Valid()
      modifies gamepad1`a, gamepad1`b
      ensures Valid()
      ensures gamepad1.a == if turboa then turbo else old(gamepad1.a)
      ensures gamepad1.b == if turbob then turbo else old(gamepad1.b)
    {
      if turboa {
        gamepad1.a := turboa && turbo;
      }
      if turbob {
        gamepad1.b := turbob && turbo;
      }
    }

    /** A key press (`down`) or release sets the control the key is bound to; other keys do nothing. */
    method HandleGamepadEvent(key: Keycode, down: bool) returns (result: InputResult)
      requires Valid()
      modifies this`turboa, this`turbob, gamepad1`a, gamepad1`b, gamepad1`select, gamepad1`start
      modifies gamepad1`up, gamepad1`down, gamepad1`left, gamepad1`right
      ensures Valid()
      ensures result == Continue
      ensures Controls() == match KeyBinding(key)
                            case Some(slot) => old(Controls())[slot := down]
                            case None => old(Controls())
    {
      match key {
        case Z => gamepad1.a := down;
        case X => gamepad1.b := down;
        case A => turboa := down;
        case S => turbob := down;
        case RShift => gamepad1.select := down;
        case Return => gamepad1.start := down;
        case Up => gamepad1.up := down;
        case Down => gamepad1.down := down;
        case Left => gamepad1.left := down;
        case Right => gamepad1.right := down;
        case Other(_) => {}
      }
      result := Continue;
    }
  }
}

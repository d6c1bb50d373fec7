/**
 * The device side of the cymbal bus: the ATtiny firmware of one hammer
 * (avr/cymbal.c).
 *
 * The USI overflow interrupt receives the bus one byte at a time into a
 * four-byte frame buffer; the main loop acts on a completed frame addressed
 * to this device (or to every device) and then re-arms the receiver. Both
 * are given as pure step functions (`IsrStep`, `Execute`) and as methods of
 * a `Device` object that update its fields the way the firmware updates its
 * globals and registers. The interrupt and the main loop are modelled as
 * sequential calls that interleave, not as concurrent code.
 *
 * All values are `uint8_t` in the source; `byte` arithmetic wraps by an
 * explicit `% 256`.
 */
module Cymbal {

  type byte = x: int | 0 <= x < 256

  const START_BYTE: byte := 0x69

  const CMD_PWM_DUTY: byte := 1
  const CMD_OUT: byte := 6
  const CMD_PROGRAM: byte := 5
  const CMD_PROGPWM: byte := 60
  const CMD_STOP: byte := 9
  const CMD_START: byte := 13

  /** The address every device answers to. */
  const BROADCAST: byte := 0xFF

  const EEPROM_MAGIC: byte := 0
  const EEPROM_DEV_ID: byte := 1
  const EEPROM_PWM_DUTY: byte := 2
  const MAGIC: byte := 0x43

  /** What an EEPROM cell that was never written reads as. */
  const ERASED: byte := 0xFF

  const PWM_MIN: byte := 25
  const PWM_MAX: byte := 68

  // Port B pins and the data-direction values the firmware writes.
  const MISO_PIN: nat := 1
  const SOLENOID_PIN: nat := 3
  const SERVO_PIN: nat := 4

  /** `1 << pin` for a pin of port B. */
  function PinMask(pin: nat): byte
    requires pin < 8
  {
    [0x01, 0x02, 0x04, 0x08, 0x10, 0x20, 0x40, 0x80][pin]
  }

  /** `(1 << SERVO_PIN) | (1 << SOLENOID_PIN) | (1 << MISO_PIN)`, set at start-up (distinct bits, so `|` is `+`). */
  const DDRB_BOOT: byte := PinMask(SERVO_PIN) + PinMask(SOLENOID_PIN) + PinMask(MISO_PIN)
  /** `(1 << SERVO_PIN) | (1 << SOLENOID_PIN)`, set by `CMD_START`. */
  const DDRB_START: byte := PinMask(SERVO_PIN) + PinMask(SOLENOID_PIN)

  // ---------------------------------------------------------------------------
  // The frame receiver (the `USI_OVF_vect` interrupt)

  /** `spi_data.arr`: address, command, parameter, checksum. */
  type Quad = s: seq<byte> | |s| == 4 witness [0, 0, 0, 0]

  /** The receiver's globals: `spi_data`, `spi_idx`, `spi_ready`. */
  datatype RxState = RxState(arr: Quad, idx: byte, ready: byte)

  /** The receiver as the firmware starts it: all zero. */
  const IDLE := RxState([0, 0, 0, 0], 0, 0)

  /** The firmware's checksum test on the buffer. */
  predicate ChecksumOk(q: Quad) {
    (q[0] as int + q[1] + q[2]) % 256 == q[3]
  }

  /**
   * One interrupt: while a frame waits for the main loop every byte is
   * ignored; otherwise the start byte rewinds the index and any other byte
   * is stored at `idx & 3`, and once four bytes are in, a matching checksum
   * marks the frame ready.
   */
  function IsrStep(s: RxState, b: byte): (r: RxState)
    ensures s.ready != 0 ==> r == s
    ensures s.ready == 0 && b == START_BYTE ==> r.arr == s.arr && r.idx == 0 && r.ready == 0
    ensures s.ready == 0 && b != START_BYTE ==>
      r.idx == (s.idx + 1) % 256 && r.arr[s.idx % 4] == b &&
      forall k :: 0 <= k < 4 && k != s.idx % 4 ==> r.arr[k] == s.arr[k]
    ensures s.ready == 0 ==> (r.ready == 1 <==> r.idx >= 4 && ChecksumOk(r.arr))
    ensures s.ready == 0 ==> r.ready == 0 || r.ready == 1
  {
    if s.ready != 0 then s
    else
      var s1 := if b == START_BYTE then s.(idx := 0)
                else s.(arr := s.arr[s.idx % 4 := b], idx := (s.idx + 1) % 256);
      if s1.idx >= 4 && ChecksumOk(s1.arr) then s1.(ready := 1) else s1
  }

  /** The receiver after a run of interrupts, one per byte, in order. */
  function Feed(s: RxState, bytes: seq<byte>): RxState
    decreases |bytes|
  {
    if bytes == [] then s else Feed(IsrStep(s, bytes[0]), bytes[1..])
  }

  /** A frame waiting for the main loop blocks the receiver: it ignores all input. */
  lemma {:induction false} FeedWhileReady(s: RxState, bytes: seq<byte>)
    requires s.ready != 0
    ensures Feed(s, bytes) == s
    decreases |bytes|
  {
    if bytes != [] {
      FeedWhileReady(IsrStep(s, bytes[0]), bytes[1..]);
    }
  }

  /**
   * From any idle receiver, whatever it had buffered before, a start byte
   * and four more bytes none of which is the start byte, the last being the
   * checksum of the three before it, leave exactly those bytes in the buffer
   * and the frame ready.
   */
  lemma {:induction false} ReceiveFrame(s: RxState, a: byte, c: byte, p: byte, cs: byte)
    requires s.ready == 0
    requires a != START_BYTE && c != START_BYTE && p != START_BYTE && cs != START_BYTE
    requires cs == (a + c + p) % 256
    ensures Feed(s, [START_BYTE, a, c, p, cs]) == RxState([a, c, p, cs], 4, 1)
  {
    var s0 := IsrStep(s, START_BYTE);
    assert s0 == s.(idx := 0);
    var s1 := IsrStep(s0, a);
    assert s1 == s0.(arr := s0.arr[0 := a], idx := 1);
    var s2 := IsrStep(s1, c);
    assert s2 == s1.(arr := s1.arr[1 := c], idx := 2);
    var s3 := IsrStep(s2, p);
    assert s3 == s2.(arr := s2.arr[2 := p], idx := 3);
    var s4 := IsrStep(s3, cs);
    assert s3.arr[3 := cs] == [a, c, p, cs];
    assert s4 == RxState([a, c, p, cs], 4, 1);
    var bytes: seq<byte> := [START_BYTE, a, c, p, cs];
    assert Feed(s4, []) == s4;
    assert Feed(s3, [cs]) == s4;
    assert Feed(s2, [p, cs]) == s4 by { assert [p, cs][1..] == [cs]; }
    assert Feed(s1, [c, p, cs]) == s4 by { assert [c, p, cs][1..] == [p, cs]; }
    assert Feed(s0, [a, c, p, cs]) == s4 by { assert [a, c, p, cs][1..] == [c, p, cs]; }
    assert bytes[1..] == [a, c, p, cs];
  }

  // ---------------------------------------------------------------------------
  // EEPROM

  function EepromRead(e: map<byte, byte>, a: byte): byte {
    if a in e then e[a] else ERASED
  }

  /** `getDeviceId`: the programmed id, or 0 if the magic byte is missing. */
  function GetDeviceId(e: map<byte, byte>): (id: byte)
    ensures EepromRead(e, EEPROM_MAGIC) == MAGIC ==> id == EepromRead(e, EEPROM_DEV_ID)
    ensures EepromRead(e, EEPROM_MAGIC) != MAGIC ==> id == 0
  {
    if EepromRead(e, EEPROM_MAGIC) == MAGIC then EepromRead(e, EEPROM_DEV_ID) else 0
  }

  /** `getInitialPWM`: the stored duty if it is a valid one, else `PWM_MIN`. */
  function GetInitialPwm(e: map<byte, byte>): (duty: byte)
    ensures PWM_MIN <= duty <= PWM_MAX
    ensures PWM_MIN <= EepromRead(e, EEPROM_PWM_DUTY) <= PWM_MAX ==> duty == EepromRead(e, EEPROM_PWM_DUTY)
    ensures duty != EepromRead(e, EEPROM_PWM_DUTY) ==> duty == PWM_MIN
  {
    var duty := EepromRead(e, EEPROM_PWM_DUTY);
    if duty >= PWM_MIN && duty <= PWM_MAX then duty else PWM_MIN
  }

  // ---------------------------------------------------------------------------
  // The command dispatcher (the body of the main loop)

  /** What the solenoid pin does, in order: a level written, or a 10 ms busy wait. */
  datatype Signal = Solenoid(high: bool) | Delay10ms

  /**
   * The device state the commands act on: the servo duty (`OCR1B`), the
   * solenoid bit of `PORTB`, `DDRB`, the EEPROM, and the solenoid history.
   */
  datatype Hw = Hw(duty: byte, solenoid: bool, ddrb: byte, eeprom: map<byte, byte>, log: seq<Signal>)

  function Delays(n: nat): (r: seq<Signal>)
    ensures |r| == n && forall k :: 0 <= k < n ==> r[k] == Delay10ms
  {
    if n == 0 then [] else Delays(n - 1) + [Delay10ms]
  }

  /** The device state after power-up, before any frame. */
  function BootHw(e: map<byte, byte>): (hw: Hw)
    ensures PWM_MIN <= hw.duty <= PWM_MAX && !hw.solenoid && hw.eeprom == e && hw.log == []
  {
    Hw(GetInitialPwm(e), false, DDRB_BOOT, e, [])
  }

  /** One ready frame, as the main loop handles it on a device whose id is `myId`. */
  function Execute(hw: Hw, myId: byte, q: Quad): (r: Hw)
    ensures q[0] != BROADCAST && q[0] != myId ==> r == hw
    ensures r.duty != hw.duty ==> q[1] == CMD_PWM_DUTY && r.duty == q[2]
    ensures (q[0] == BROADCAST || q[0] == myId) && q[1] == CMD_PWM_DUTY ==> r == hw.(duty := q[2])
    ensures (q[0] == BROADCAST || q[0] == myId) && q[1] == CMD_OUT ==>
      r.duty == hw.duty && r.ddrb == hw.ddrb && r.eeprom == hw.eeprom &&
      r.solenoid == (q[2] == 255) &&
      r.log == hw.log + (if q[2] == 0 then [Solenoid(false)]
                         else if q[2] == 255 then [Solenoid(true)]
                         else [Solenoid(true)] + Delays(q[2]) + [Solenoid(false)])
    ensures (q[0] == BROADCAST || q[0] == myId) && q[1] == CMD_PROGRAM ==>
      r == hw.(eeprom := hw.eeprom[EEPROM_DEV_ID := q[2]][EEPROM_MAGIC := MAGIC]) &&
      EepromRead(r.eeprom, EEPROM_MAGIC) == MAGIC &&
      GetDeviceId(r.eeprom) == q[2] && GetInitialPwm(r.eeprom) == GetInitialPwm(hw.eeprom)
    ensures (q[0] == BROADCAST || q[0] == myId) && q[1] == CMD_PROGPWM ==>
      r == hw.(eeprom := hw.eeprom[EEPROM_PWM_DUTY := q[2]]) &&
      EepromRead(r.eeprom, EEPROM_PWM_DUTY) == q[2] && GetDeviceId(r.eeprom) == GetDeviceId(hw.eeprom)
    ensures r.eeprom != hw.eeprom ==> q[1] == CMD_PROGRAM || q[1] == CMD_PROGPWM
    ensures (q[0] == BROADCAST || q[0] == myId) && q[1] == CMD_STOP ==>
      r == hw.(ddrb := 0, solenoid := false, log := hw.log + [Solenoid(false)])
    ensures (q[0] == BROADCAST || q[0] == myId) && q[1] == CMD_START ==> r == hw.(ddrb := DDRB_START)
    ensures q[1] !in {CMD_PWM_DUTY, CMD_OUT, CMD_PROGRAM, CMD_PROGPWM, CMD_STOP, CMD_START} ==> r == hw
  {
    if q[0] != BROADCAST && q[0] != myId then hw
    else
      var p := q[2];
      if q[1] == CMD_PWM_DUTY then hw.(duty := p)
      else if q[1] == CMD_OUT then
        if p == 0 then hw.(solenoid := false, log := hw.log + [Solenoid(false)])
        else if p == 0xFF then hw.(solenoid := true, log := hw.log + [Solenoid(true)])
        else hw.(solenoid := false, log := hw.log + [Solenoid(true)] + Delays(p) + [Solenoid(false)])
      else if q[1] == CMD_PROGRAM then hw.(eeprom := hw.eeprom[EEPROM_DEV_ID := p][EEPROM_MAGIC := MAGIC])
      else if q[1] == CMD_PROGPWM then hw.(eeprom := hw.eeprom[EEPROM_PWM_DUTY := p])
      else if q[1] == CMD_STOP then hw.(ddrb := 0, solenoid := false, log := hw.log + [Solenoid(false)])
      else if q[1] == CMD_START then hw.(ddrb := DDRB_START)
      else hw
  }

  /**
   * A new id takes effect only at the next power-up: a device booted from the
   * new EEPROM answers to the programmed id (`Device.Boot`), with the same
   * initial duty. The running device keeps `myId`, a `const` of `Device`.
   */
  lemma ProgramTakesEffectOnReboot(hw: Hw, myId: byte, q: Quad)
    requires (q[0] == BROADCAST || q[0] == myId) && q[1] == CMD_PROGRAM
    ensures var r := Execute(hw, myId, q);
      GetDeviceId(r.eeprom) == q[2] && BootHw(r.eeprom).duty == GetInitialPwm(hw.eeprom)
  {
  }

  // ---------------------------------------------------------------------------
  // The device object

  class Device {
    /** `spi_data.arr`. */
    const arr: array<byte>
    /** `spi_idx`. */
    var idx: byte
    /** `spi_ready`. */
    var ready: byte
    /** The id read from EEPROM at start-up; `my_id` is never updated. */
    const myId: byte
    /** `OCR1B`. */
    var duty: byte
    /** The solenoid bit of `PORTB`. */
    var solenoid: bool
    var ddrb: byte
    var eeprom: map<byte, byte>
    var log: seq<Signal>

    ghost predicate Valid()
      reads this
    {
      arr.Length == 4
    }

    function Receiver(): RxState
      reads this, arr
      requires Valid()
    {
      RxState(arr[..], idx, ready)
    }

    function Hardware(): Hw
      reads this
    {
      Hw(duty, solenoid, ddrb, eeprom, log)
    }

    /** Power-up: `my_id` and `OCR1B` from EEPROM, pins configured, receiver idle. */
    constructor Boot(e: map<byte, byte>)
      ensures Valid() && fresh(arr)
      ensures Receiver() == IDLE
      ensures myId == GetDeviceId(e)
      ensures Hardware() == BootHw(e)
    {
      arr := new byte[4](_ => 0);
      idx, ready := 0, 0;
      myId := GetDeviceId(e);
      eeprom := e;
      ddrb := DDRB_BOOT;
      solenoid := false;
      duty := GetInitialPwm(e);
      log := [];
      new;
      assert arr[..] == [0, 0, 0, 0];
    }

    /** `USI_OVF_vect` for the received byte `b`. */
    method Isr(b: byte)
      requires Valid()
      modifies this, arr
      ensures Valid()
      ensures Receiver() == IsrStep(old(Receiver()), b)
      ensures Hardware() == old(Hardware())
    {
      if ready == 0 {
        if b == START_BYTE {
          idx := 0;
        } else {
          arr[idx % 4] := b;
          idx := (idx + 1) % 256;
        }
        if idx >= 4 {
          if (arr[0] as int + arr[1] + arr[2]) % 256 == arr[3] {
            ready := 1;
          }
        }
      }
    }

    /** One pass of the main loop: act on a ready frame if there is one, then re-arm. */
    method Poll()
      requires Valid()
      modifies this
      ensures Valid()
      ensures Receiver() == old(Receiver()).(ready := 0)
      ensures Hardware() == if old(ready) != 0 then Execute(old(Hardware()), myId, old(Receiver()).arr)
                            else old(Hardware())
    {
      if ready != 0 {
        var address, command, parameter := arr[0], arr[1], arr[2];
        if address == BROADCAST || address == myId {
          if command == CMD_PWM_DUTY {
            duty := parameter;
          } else if command == CMD_OUT {
            if parameter == 0 {
              solenoid := false;
              log := log + [Solenoid(false)];
            } else {
              solenoid := true;
              log := log + [Solenoid(true)];
              if parameter != 0xFF {
                var i: byte := 0;
                while i < parameter
                  invariant 0 <= i <= parameter
                  invariant log == old(log) + [Solenoid(true)] + Delays(i)
                  modifies this`log
                {
                  log := log + [Delay10ms];
                  i := i + 1;
                }
                solenoid := false;
                log := log + [Solenoid(false)];
              }
            }
          } else if command == CMD_PROGRAM {
            eeprom := eeprom[EEPROM_DEV_ID := parameter];
            eeprom := eeprom[EEPROM_MAGIC := MAGIC];
          } else if command == CMD_PROGPWM {
            eeprom := eeprom[EEPROM_PWM_DUTY := parameter];
          } else if command == CMD_STOP {
            solenoid := false;
            log := log + [Solenoid(false)];
            ddrb := 0;
          } else if command == CMD_START {
            ddrb := DDRB_START;
          }
        }
        ready := 0;
      }
    }
  }
}

/**
 * Where the host program (rpi/picontrol.py) meets the firmware
 * (avr/cymbal.c): the frames the host puts on the bus, fed byte by byte to
 * a device's receiver, and what the device then does with them.
 *
 * The frame format has no escaping: a 0x69 after the start byte rewinds
 * the receiver. A frame arrives intact provided none of its four bytes
 * after the start byte is 0x69; `Deliverable` says so, and the lemmas here
 * show that every frame the note player and the key dispatcher send is of
 * that kind. `ProgramIdToStartByteIsLost` shows a frame that breaks the
 * condition and is lost.
 */
module Link {
  import P = PiControl
  import C = Cymbal

  /** Five bytes, the start byte first and nowhere else, and a matching checksum. */
  predicate Deliverable(f: seq<int>) {
    |f| == 5 && f[0] == C.START_BYTE &&
    (forall i :: 1 <= i < 5 ==> 0 <= f[i] < 256 && f[i] != C.START_BYTE) &&
    f[4] == (f[1] + f[2] + f[3]) % 256
  }

  /** Every frame in the trace is deliverable. */
  predicate TraceDeliverable(t: seq<P.Effect>) {
    forall i :: 0 <= i < |t| && t[i].Xfer? ==> Deliverable(t[i].bytes)
  }

  /** The ids the host program addresses: the two hammers and the broadcast id. */
  predicate Addressed(dev: int) {
    dev == 1 || dev == 2 || dev == P.BROADCAST
  }

  // ---------------------------------------------------------------------------
  // One frame, host to device

  /** A host frame whose bytes are not the start byte reaches an idle receiver intact. */
  lemma SentFrameIsReceived(s: C.RxState, dev: int, cmd: int, param: int)
    requires s.ready == 0
    requires Deliverable(P.Frame([dev, cmd, param]))
    ensures var r := C.Feed(s, P.Frame([dev, cmd, param]));
      r.ready == 1 && r.arr[0] == dev && r.arr[1] == cmd && r.arr[2] == param
  {
    P.FrameOfCommand(dev, cmd, param);
    C.ReceiveFrame(s, dev, cmd, param, (dev + cmd + param) % 256);
  }

  /** The frame of `setPos(pos, dev)` for a position it accepts; no byte of it is 0x69. */
  lemma SetPosFrameDeliverable(dev: int, pos: int)
    requires Addressed(dev) && P.InRange(pos)
    ensures Deliverable(P.Frame([dev, P.CMD_SET_POS, pos]))
  {
    P.FrameOfCommand(dev, P.CMD_SET_POS, pos);
  }

  /** The strikes the host program sends: length 0, 2 or 255. */
  lemma BingFrameDeliverable(dev: int, dt: int)
    requires Addressed(dev) && (dt == 0 || dt == P.STRIKE || dt == 255)
    ensures Deliverable(P.Frame([dev, P.CMD_BING, dt]))
  {
    P.FrameOfCommand(dev, P.CMD_BING, dt);
  }

  /** The set-position frame for a device this one answers to moves its servo there. */
  lemma SetPosMovesServo(hw: C.Hw, myId: C.byte, s: C.RxState, dev: int, pos: int)
    requires s.ready == 0 && Addressed(dev) && P.InRange(pos)
    requires dev == C.BROADCAST || dev == myId
    ensures var r := C.Feed(s, P.Frame([dev, P.CMD_SET_POS, pos]));
      r.ready == 1 && C.Execute(hw, myId, r.arr) == hw.(duty := pos)
  {
    SetPosFrameDeliverable(dev, pos);
    SentFrameIsReceived(s, dev, P.CMD_SET_POS, pos);
  }

  /** The strike of a note holds the solenoid for two 10 ms waits and leaves it off. */
  lemma StrikePulsesSolenoid(hw: C.Hw, myId: C.byte, s: C.RxState, dev: int)
    requires s.ready == 0 && Addressed(dev)
    requires dev == C.BROADCAST || dev == myId
    ensures var r := C.Feed(s, P.Frame([dev, P.CMD_BING, P.STRIKE]));
      r.ready == 1 && !C.Execute(hw, myId, r.arr).solenoid &&
      C.Execute(hw, myId, r.arr).log == hw.log + [C.Solenoid(true), C.Delay10ms, C.Delay10ms, C.Solenoid(false)]
  {
    BingFrameDeliverable(dev, P.STRIKE);
    SentFrameIsReceived(s, dev, P.CMD_BING, P.STRIKE);
    assert C.Delays(2) == [C.Delay10ms, C.Delay10ms];
  }

  /** `programId(newId, oldId)`, once received, makes the next power-up use `newId`. */
  lemma ProgramIdReprograms(hw: C.Hw, myId: C.byte, s: C.RxState, newId: int, oldId: int)
    requires s.ready == 0 && (oldId == C.BROADCAST || oldId == myId)
    requires Deliverable(P.Frame([oldId, P.CMD_PROGRAM_ID, newId]))
    ensures var r := C.Feed(s, P.Frame([oldId, P.CMD_PROGRAM_ID, newId]));
      r.ready == 1 && C.GetDeviceId(C.Execute(hw, myId, r.arr).eeprom) == newId
  {
    SentFrameIsReceived(s, oldId, P.CMD_PROGRAM_ID, newId);
  }

  /**
   * Without escaping, `programId(0x69)` never arrives: the new id is taken
   * for a start byte, and the receiver is left waiting, not ready.
   */
  lemma ProgramIdToStartByteIsLost(s: C.RxState)
    requires s.ready == 0
    ensures P.Frame([P.BROADCAST, P.CMD_PROGRAM_ID, 0x69]) == [0x69, 0xFF, 0x05, 0x69, 0x6D]
    ensures C.Feed(s, [0x69, 0xFF, 0x05, 0x69, 0x6D]) == C.RxState([0x6D, 5, s.arr[2], s.arr[3]], 1, 0)
  {
    P.FrameOfCommand(P.BROADCAST, P.CMD_PROGRAM_ID, 0x69);
    var s0 := C.IsrStep(s, 0x69);
    StoreStep(s0, 0xFF);
    var s1 := C.IsrStep(s0, 0xFF);
    StoreStep(s1, 0x05);
    var s2 := C.IsrStep(s1, 0x05);
    var s3 := C.IsrStep(s2, 0x69);
    StoreStep(s3, 0x6D);
    var s4 := C.IsrStep(s3, 0x6D);
    assert s4.arr == [0x6D, 5, s.arr[2], s.arr[3]];
    FeedCons(s3, 0x6D, []);
    FeedCons(s2, 0x69, [0x6D]);
    FeedCons(s1, 0x05, [0x69, 0x6D]);
    FeedCons(s0, 0xFF, [0x05, 0x69, 0x6D]);
    FeedCons(s, 0x69, [0xFF, 0x05, 0x69, 0x6D]);
  }

  /** Before the fourth byte of a frame, a byte other than the start byte is stored and nothing becomes ready. */
  lemma StoreStep(s: C.RxState, b: C.byte)
    requires s.ready == 0 && s.idx < 3 && b != C.START_BYTE
    ensures C.IsrStep(s, b) == C.RxState(s.arr[s.idx := b], s.idx + 1, 0)
  {
  }

  /** Feeding a byte and then the rest. */
  lemma FeedCons(s: C.RxState, b: C.byte, rest: seq<C.byte>)
    ensures C.Feed(s, [b] + rest) == C.Feed(C.IsrStep(s, b), rest)
  {
    assert ([b] + rest)[0] == b && ([b] + rest)[1..] == rest;
  }

  // ---------------------------------------------------------------------------
  // Everything the player and the dispatcher send is deliverable

  lemma {:induction false} AppendDeliverable(t: seq<P.Effect>, e: P.Effect)
    requires TraceDeliverable(t) && (e.Xfer? ==> Deliverable(e.bytes))
    ensures TraceDeliverable(t + [e])
  {
    forall i | 0 <= i < |t + [e]| && (t + [e])[i].Xfer?
      ensures Deliverable((t + [e])[i].bytes)
    {
      if i < |t| {
        assert (t + [e])[i] == t[i];
      }
    }
  }

  lemma SetPosDeliverable(h: P.Host, pos: int, dev: int)
    requires TraceDeliverable(h.trace) && Addressed(dev)
    ensures TraceDeliverable(P.SetPosOn(h, pos, dev).trace)
  {
    if P.InRange(pos) {
      SetPosFrameDeliverable(dev, pos);
      AppendDeliverable(h.trace, P.Xfer(P.Frame([dev, P.CMD_SET_POS, pos])));
    }
  }

  lemma BingDeliverable(h: P.Host, dt: int, dev: int)
    requires TraceDeliverable(h.trace) && Addressed(dev) && (dt == 0 || dt == P.STRIKE || dt == 255)
    ensures TraceDeliverable(P.BingOn(h, dt, dev).trace)
  {
    BingFrameDeliverable(dev, dt);
    AppendDeliverable(h.trace, P.Xfer(P.Frame([dev, P.CMD_BING, dt])));
  }

  lemma SetPosWaitDeliverable(h: P.Host, pos: int, dev: int)
    requires TraceDeliverable(h.trace) && Addressed(dev)
    ensures TraceDeliverable(P.SetPosWaitOn(h, pos, dev).host.trace)
  {
    SetPosDeliverable(h, pos, dev);
    if dev in h.duty && pos != h.duty[dev] {
      AppendDeliverable(P.SetPosOn(h, pos, dev).trace, P.Delay(P.SETTLE));
    }
  }

  lemma BingNoteDeliverable(h: P.Host, note: char)
    requires TraceDeliverable(h.trace)
    ensures TraceDeliverable(P.BingNoteOn(h, note).host.trace)
  {
    P.NotesWellFormed();
    if note in P.NOTES {
      var (dev, pos) := P.NOTES[note];
      SetPosWaitDeliverable(h, pos, dev);
      var r1 := P.SetPosWaitOn(h, pos, dev);
      if r1.outcome.Ok? {
        BingDeliverable(r1.host, P.STRIKE, dev);
      }
    }
  }

  lemma PlayTokenDeliverable(h: P.Host, note: char, size: char)
    requires TraceDeliverable(h.trace)
    ensures TraceDeliverable(P.PlayTokenOn(h, note, size).host.trace)
  {
    BingNoteDeliverable(h, note);
    var r1 := P.BingNoteOn(h, note);
    if note in P.NOTES && r1.outcome.Ok? && size in P.DURATIONS {
      AppendDeliverable(r1.host.trace, P.Delay(P.DURATIONS[size]));
    }
  }

  /** Whatever the sheet, every frame the player sends reaches the devices intact. */
  lemma {:induction false} PlayDeliverable(h: P.Host, toks: seq<string>)
    requires TraceDeliverable(h.trace)
    ensures TraceDeliverable(P.PlayOn(h, toks).host.trace)
    decreases |toks|
  {
    if toks != [] {
      if |toks[0]| != 2 {
        PlayDeliverable(h, toks[1..]);
      } else {
        PlayTokenDeliverable(h, toks[0][0], toks[0][1]);
        var r1 := P.PlayTokenOn(h, toks[0][0], toks[0][1]);
        if r1.outcome.Ok? {
          PlayDeliverable(r1.host, toks[1..]);
        }
      }
    }
  }

  lemma FanfareDeliverable(h: P.Host)
    requires TraceDeliverable(h.trace)
    ensures TraceDeliverable(P.FanfareOn(h).host.trace)
  {
    SetPosWaitDeliverable(h, P.FANFARE_HIGH, P.BROADCAST);
    var r1 := P.SetPosWaitOn(h, P.FANFARE_HIGH, P.BROADCAST);
    if r1.outcome.Ok? {
      BingDeliverable(r1.host, 255, P.BROADCAST);
      var b := P.BingOn(r1.host, 255, P.BROADCAST);
      AppendDeliverable(b.trace, P.Delay(P.PAUSE));
      var h2 := P.DelayOn(b, P.PAUSE);
      SetPosWaitDeliverable(h2, P.FANFARE_LOW, P.BROADCAST);
      var r3 := P.SetPosWaitOn(h2, P.FANFARE_LOW, P.BROADCAST);
      if r3.outcome.Ok? {
        AppendDeliverable(r3.host.trace, P.Delay(P.PAUSE));
        BingDeliverable(P.DelayOn(r3.host, P.PAUSE), 0, P.BROADCAST);
      }
    }
  }

  /** Every frame a key press sends, with hammer 1 or 2 selected, reaches the devices intact. */
  lemma DispatchDeliverable(h: P.Host, devId: int, ev: P.InputEvent)
    requires TraceDeliverable(h.trace) && (devId == 1 || devId == 2)
    ensures TraceDeliverable(P.DispatchOn(h, devId, ev).run.host.trace)
  {
    if P.Pressed(ev) && ev.code in P.KEYMAP {
      ActionDeliverable(h, devId, P.KEYMAP[ev.code]);
    }
  }

  /** Every frame one action of the key table sends, with hammer 1 or 2 selected, reaches the devices intact. */
  lemma ActionDeliverable(h: P.Host, devId: int, a: P.Action)
    requires TraceDeliverable(h.trace) && (devId == 1 || devId == 2)
    ensures TraceDeliverable(P.ActOn(h, devId, a).run.host.trace)
  {
    match a
    case Jog(ds) =>
      if devId in h.duty {
        SetPosDeliverable(h, P.Clamp(h.duty[devId] + ds), devId);
      }
    case StrikeSelected => BingDeliverable(h, P.STRIKE, devId);
    case StrikeAll => BingDeliverable(h, P.STRIKE, P.BROADCAST);
    case ResetAll => SetPosDeliverable(h, P.START_PWM, P.BROADCAST);
    case PlayNote(n) => BingNoteDeliverable(h, n);
    case ToggleDevice =>
    case Fanfare => FanfareDeliverable(h);
  }

  // ---------------------------------------------------------------------------
  // The host's cache is not the devices' state

  /**
   * After a jog of hammer 1 and then the tab key (every hammer to the start
   * position), hammer 1's servo is at 40 while the host still caches 42 for
   * it: a broadcast updates only the broadcast entry of the cache.
   */
  lemma BroadcastLeavesCacheStale(myHw: C.Hw)
    ensures var jog := P.DispatchOn(P.INITIAL, 1, P.InputEvent(1, 0x1E, 1)).run.host;
      var tab := P.DispatchOn(jog, 1, P.InputEvent(1, 0x0F, 1)).run.host;
      tab.duty[1] == 42 &&
      tab.trace == [P.Xfer([0x69, 1, 1, 42, 44]), P.Xfer([0x69, 0xFF, 1, 40, 40])] &&
      C.Execute(C.Execute(myHw, 1, [1, 1, 42, 44]), 1, [0xFF, 1, 40, 40]).duty == 40
  {
    JogHammerOne();
    var jog := P.Host(P.INITIAL.duty[1 := 42], [P.Xfer([0x69, 1, 1, 42, 44])]);
    TabOnJogged(jog);
    var hw1 := C.Execute(myHw, 1, [1, 1, 42, 44]);
    assert hw1 == myHw.(duty := 42);
    assert C.Execute(hw1, 1, [0xFF, 1, 40, 40]) == hw1.(duty := 40);
  }

  /** The A key on a fresh controller with hammer 1 selected. */
  lemma JogHammerOne()
    ensures P.DispatchOn(P.INITIAL, 1, P.InputEvent(1, 0x1E, 1)).run.host ==
      P.Host(P.INITIAL.duty[1 := 42], [P.Xfer([0x69, 1, 1, 42, 44])])
  {
    P.KeyTable(0x1E);
    P.FrameOfCommand(1, 1, 42);
    P.InitialIsValid();
    assert P.DispatchOn(P.INITIAL, 1, P.InputEvent(1, 0x1E, 1)) == P.ActOn(P.INITIAL, 1, P.Jog(2));
  }

  /** The tab key after that jog: only the broadcast entry of the cache is updated. */
  lemma TabOnJogged(jog: P.Host)
    requires jog == P.Host(P.INITIAL.duty[1 := 42], [P.Xfer([0x69, 1, 1, 42, 44])])
    ensures var tab := P.DispatchOn(jog, 1, P.InputEvent(1, 0x0F, 1)).run.host;
      tab.duty[1] == 42 && tab.trace == [P.Xfer([0x69, 1, 1, 42, 44]), P.Xfer([0x69, 0xFF, 1, 40, 40])]
  {
    P.KeyTable(0x0F);
    P.FrameOfCommand(0xFF, 1, 40);
    P.InitialIsValid();
    assert P.DispatchOn(jog, 1, P.InputEvent(1, 0x0F, 1)) == P.ActOn(jog, 1, P.ResetAll);
  }
}

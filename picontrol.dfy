/**
 * The host side of the cymbal bus (rpi/picontrol.py).
 *
 * `Kuku` is the controller: it keeps the last position it sent to each
 * hammer and frames commands for the SPI bus. On top of it sit the timed
 * gestures (`SetPosWait`, `BingPos`, `BingNote`), the note-sheet player and
 * the key-code dispatcher of the interactive loop.
 *
 * The SPI transfers and the sleeps are the program's only effects on the
 * world; they are recorded, in the order they happen, as `Effect`s in the
 * controller's `trace`. Each operation is given twice: once as a function
 * over a `Host` value (the reference semantics, about which the properties
 * are proved), and once as a method that updates a `Kuku` object step by
 * step the way the source does, proved to agree with that function.
 */
module PiControl {

  const MAX_PWM := 68
  const MIN_PWM := 25
  const START_PWM := 40

  /** The device id every hammer answers to. */
  const BROADCAST := 0xFF

  const START_BYTE := 0x69
  const CMD_SET_POS := 0x01
  const CMD_PROGRAM_ID := 0x05
  const CMD_BING := 0x06

  // Sleep lengths in milliseconds (the source sleeps for fractions of a second).
  const FULL := 400
  const HALF := 250
  const QWART := 120
  const SIXT := 600
  /** Time left for a hammer to reach a new position. */
  const SETTLE := 120
  /** Pause between the steps of the enter-key gesture. */
  const PAUSE := 200

  /** Strike length (in 10 ms units on the device) used to ring a note. */
  const STRIKE := 2

  /** Which hammer and which rest position ring each note. */
  const NOTES: map<char, (int, int)> := map[
    'G' := (1, 45), 'A' := (1, 43), 'H' := (1, 40), 'C' := (1, 38),
    'D' := (1, 36), 'E' := (1, 34), 'F' := (2, 48), 'g' := (2, 45),
    'a' := (2, 43), 'h' := (2, 41), 'c' := (2, 39), 'd' := (2, 37)]

  /** How long the player waits after a note, by duration symbol. */
  const DURATIONS: map<char, nat> := map['O' := FULL, 'o' := HALF, '.' := QWART, ',' := SIXT]

  datatype Option<T> = None | Some(value: T)

  /** One effect on the world: an SPI transfer or a sleep. */
  datatype Effect = Xfer(bytes: seq<int>) | Delay(ms: nat)

  /** The dictionary lookups of the source that can raise `KeyError`. */
  datatype KeyError = UnknownDevice(dev: int) | UnknownNote(note: char) | UnknownDuration(symbol: char)

  datatype Outcome = Ok | Raised(error: KeyError)

  /** What the host program knows and has done: the duty cache and the effects so far. */
  datatype Host = Host(duty: map<int, int>, trace: seq<Effect>)

  /** The host after an operation that may raise, with how it ended. */
  datatype Run = Run(host: Host, outcome: Outcome)

  const INITIAL := Host(map[1 := START_PWM, 2 := START_PWM, BROADCAST := START_PWM], [])

  predicate InRange(pos: int) {
    MIN_PWM <= pos <= MAX_PWM
  }

  /**
   * The cache invariant: the devices the program addresses by default are
   * known, and every position it has recorded is one it may send.
   */
  predicate ValidHost(h: Host) {
    1 in h.duty && 2 in h.duty && BROADCAST in h.duty &&
    forall d :: d in h.duty ==> InRange(h.duty[d])
  }

  lemma InitialIsValid()
    ensures ValidHost(INITIAL) && INITIAL.trace == []
  {
  }

  /** Every note names one of the two hammers and a position `setPos` accepts. */
  lemma NotesWellFormed()
    ensures forall n :: n in NOTES ==> (NOTES[n].0 == 1 || NOTES[n].0 == 2) && InRange(NOTES[n].1)
  {
  }

  // ---------------------------------------------------------------------------
  // Frames

  /** Python's `sum` over a list of ints. */
  function Sum(data: seq<int>): int {
    if data == [] then 0 else data[0] + Sum(data[1..])
  }

  /** The frame `_send` transfers for `data`: start byte, the data, then `0xFF & sum(data)`. */
  function Frame(data: seq<int>): (f: seq<int>)
    ensures |f| == |data| + 2 && f[0] == START_BYTE && f[1..|f| - 1] == data
    ensures 0 <= f[|f| - 1] < 256 && f[|f| - 1] == Sum(data) % 256
  {
    [START_BYTE] + data + [Sum(data) % 256]
  }

  /** The frame of a three-byte command, written out. */
  lemma {:induction false} FrameOfCommand(dev: int, cmd: int, param: int)
    ensures Frame([dev, cmd, param]) == [START_BYTE, dev, cmd, param, (dev + cmd + param) % 256]
  {
    assert Sum([dev, cmd, param]) == dev + Sum([cmd, param]);
    assert Sum([cmd, param]) == cmd + Sum([param]);
    assert Sum([param]) == param + Sum([]);
  }

  // ---------------------------------------------------------------------------
  // Reference semantics of the controller

  /** `_send`: one transfer of the frame of `data`; the cache is untouched. */
  function SendOn(h: Host, data: seq<int>): Host {
    h.(trace := h.trace + [Xfer(Frame(data))])
  }

  function DelayOn(h: Host, ms: nat): Host {
    h.(trace := h.trace + [Delay(ms)])
  }

  /** `setPos`: drop an out-of-range position, otherwise record it and send it. */
  function SetPosOn(h: Host, pos: int, dev: int): (r: Host)
    ensures !InRange(pos) ==> r == h
    ensures InRange(pos) ==> r.duty.Keys == h.duty.Keys + {dev} && r.duty[dev] == pos
    ensures InRange(pos) ==> r.trace == h.trace + [Xfer([START_BYTE, dev, CMD_SET_POS, pos, (dev + 1 + pos) % 256])]
    ensures forall d :: d in h.duty && d != dev ==> d in r.duty && r.duty[d] == h.duty[d]
    ensures ValidHost(h) ==> ValidHost(r)
  {
    FrameOfCommand(dev, CMD_SET_POS, pos);
    if InRange(pos) then SendOn(h.(duty := h.duty[dev := pos]), [dev, CMD_SET_POS, pos]) else h
  }

  /** The position `move` settles on: the nearest one in range. */
  function Clamp(x: int): (c: int)
    ensures InRange(c)
    ensures InRange(x) ==> c == x
    ensures x > MAX_PWM ==> c == MAX_PWM
    ensures x < MIN_PWM ==> c == MIN_PWM
  {
    if x > MAX_PWM then MAX_PWM else if x < MIN_PWM then MIN_PWM else x
  }

  /** `move`: shift a known device by `ds`, clamped into range; always one frame. */
  function MoveOn(h: Host, ds: int, dev: int): (r: Run)
    ensures dev !in h.duty ==> r == Run(h, Raised(UnknownDevice(dev)))
    ensures dev in h.duty ==>
      r.outcome == Ok && dev in r.host.duty && r.host.duty[dev] == Clamp(h.duty[dev] + ds) &&
      r.host.trace == h.trace + [Xfer(Frame([dev, CMD_SET_POS, Clamp(h.duty[dev] + ds)]))]
    ensures dev in h.duty ==> r.host.duty == h.duty[dev := Clamp(h.duty[dev] + ds)]
    ensures forall d :: d in h.duty && d != dev ==> d in r.host.duty && r.host.duty[d] == h.duty[d]
    ensures ValidHost(h) ==> ValidHost(r.host)
  {
    if dev !in h.duty then Run(h, Raised(UnknownDevice(dev)))
    else Run(SetPosOn(h, Clamp(h.duty[dev] + ds), dev), Ok)
  }

  /** `programId`: a pass-through command that leaves the cache alone. */
  function ProgramIdOn(h: Host, newDev: int, oldDev: int): (r: Host)
    ensures r.duty == h.duty
    ensures r.trace == h.trace + [Xfer([START_BYTE, oldDev, CMD_PROGRAM_ID, newDev, (oldDev + 5 + newDev) % 256])]
  {
    FrameOfCommand(oldDev, CMD_PROGRAM_ID, newDev);
    SendOn(h, [oldDev, CMD_PROGRAM_ID, newDev])
  }

  /** `bing`: a strike whose length is masked to one byte; the cache is untouched. */
  function BingOn(h: Host, dt: int, dev: int): (r: Host)
    ensures r.duty == h.duty
    ensures |r.trace| == |h.trace| + 1 && r.trace[..|h.trace|] == h.trace
    ensures r.trace[|h.trace|] == Xfer(Frame([dev, CMD_BING, dt % 256]))
    ensures 0 <= dt < 256 ==> r.trace[|h.trace|] == Xfer(Frame([dev, CMD_BING, dt]))
    ensures 0 <= Frame([dev, CMD_BING, dt % 256])[3] < 256
  {
    SendOn(h, [dev, CMD_BING, dt % 256])
  }

  // ---------------------------------------------------------------------------
  // Reference semantics of the gestures

  /**
   * `set_pos_wait`: the settle wait follows the REQUESTED position, so a
   * position `setPos` drops still costs a wait if it differs from the cache.
   */
  function SetPosWaitOn(h: Host, newPos: int, dev: int): (r: Run)
    ensures dev !in h.duty ==> r == Run(h, Raised(UnknownDevice(dev)))
    ensures dev in h.duty ==> r.outcome == Ok && r.host.duty == SetPosOn(h, newPos, dev).duty
    ensures dev in h.duty ==>
      r.host.trace == SetPosOn(h, newPos, dev).trace + (if newPos != h.duty[dev] then [Delay(SETTLE)] else [])
    ensures dev in h.duty && !InRange(newPos) && newPos != h.duty[dev] ==>
      r.host == h.(trace := h.trace + [Delay(SETTLE)])
    ensures dev in h.duty && newPos == h.duty[dev] ==> r.host.duty == h.duty
    ensures ValidHost(h) ==> ValidHost(r.host)
    ensures h.trace <= r.host.trace
  {
    if dev !in h.duty then Run(h, Raised(UnknownDevice(dev)))
    else
      var oldPos := h.duty[dev];
      var h1 := SetPosOn(h, newPos, dev);
      var ds := if newPos - oldPos >= 0 then newPos - oldPos else oldPos - newPos;
      Run(if ds > 0 then DelayOn(h1, SETTLE) else h1, Ok)
  }

  /** `bing_pos`: move into position, let it settle, then strike. */
  function BingPosOn(h: Host, newPos: int, dev: int): (r: Run)
    ensures dev !in h.duty ==> r == Run(h, Raised(UnknownDevice(dev)))
    ensures dev in h.duty ==>
      r.outcome == Ok && r.host.duty == SetPosOn(h, newPos, dev).duty &&
      r.host.trace == SetPosWaitOn(h, newPos, dev).host.trace + [Xfer(Frame([dev, CMD_BING, STRIKE]))]
    ensures ValidHost(h) ==> ValidHost(r.host)
    ensures h.trace <= r.host.trace
  {
    var r1 := SetPosWaitOn(h, newPos, dev);
    if r1.outcome.Raised? then r1 else Run(BingOn(r1.host, STRIKE, dev), Ok)
  }

  /** `bing_note`: ring a note of the table; an unknown note raises before any effect. */
  function BingNoteOn(h: Host, note: char): (r: Run)
    ensures note !in NOTES ==> r == Run(h, Raised(UnknownNote(note)))
    ensures note in NOTES && ValidHost(h) ==>
      var (dev, pos) := NOTES[note];
      r.outcome == Ok && r.host.duty == h.duty[dev := pos] &&
      r.host.trace == h.trace + [Xfer(Frame([dev, CMD_SET_POS, pos]))]
                      + (if pos != h.duty[dev] then [Delay(SETTLE)] else [])
                      + [Xfer(Frame([dev, CMD_BING, STRIKE]))]
    ensures ValidHost(h) ==> ValidHost(r.host)
    ensures h.trace <= r.host.trace
  {
    NotesWellFormed();
    if note !in NOTES then Run(h, Raised(UnknownNote(note)))
    else
      var (dev, pos) := NOTES[note];
      BingPosOn(h, pos, dev)
  }

  const FANFARE_HIGH := 45
  const FANFARE_LOW := 34

  /**
   * The enter-key gesture on every hammer: to the high position, hold the
   * solenoid on, pause, to the low position, pause, release the solenoid.
   */
  function FanfareOn(h: Host): (r: Run)
    ensures ValidHost(h) ==> r.outcome == Ok && ValidHost(r.host)
    ensures ValidHost(h) ==> r.host.duty == h.duty[BROADCAST := FANFARE_LOW]
    ensures ValidHost(h) ==>
      |r.host.trace| > |h.trace| && r.host.trace[|r.host.trace| - 1] == Xfer(Frame([BROADCAST, CMD_BING, 0]))
    ensures h.trace <= r.host.trace
  {
    var r1 := SetPosWaitOn(h, FANFARE_HIGH, BROADCAST);
    if r1.outcome.Raised? then r1
    else
      var h2 := DelayOn(BingOn(r1.host, 255, BROADCAST), PAUSE);
      var r3 := SetPosWaitOn(h2, FANFARE_LOW, BROADCAST);
      if r3.outcome.Raised? then r3
      else Run(BingOn(DelayOn(r3.host, PAUSE), 0, BROADCAST), Ok)
  }

  /**
   * The enter-key gesture step by step: every hammer to 45 (a settle wait
   * unless the cache already says 45), a strike of 255 that holds the
   * solenoid on, a pause, every hammer to 34 with its settle wait, a pause,
   * and the strike of 0 that releases the solenoid.
   */
  lemma FanfareChoreography(h: Host)
    requires ValidHost(h)
    ensures FanfareOn(h).host.trace ==
      h.trace + [Xfer([0x69, 0xFF, 1, 45, 45])]
      + (if h.duty[BROADCAST] != FANFARE_HIGH then [Delay(SETTLE)] else [])
      + [Xfer([0x69, 0xFF, 6, 255, 4]), Delay(PAUSE), Xfer([0x69, 0xFF, 1, 34, 34]),
         Delay(SETTLE), Delay(PAUSE), Xfer([0x69, 0xFF, 6, 0, 5])]
  {
    FrameOfCommand(BROADCAST, CMD_SET_POS, FANFARE_HIGH);
    FrameOfCommand(BROADCAST, CMD_BING, 255);
    FrameOfCommand(BROADCAST, CMD_SET_POS, FANFARE_LOW);
    FrameOfCommand(BROADCAST, CMD_BING, 0);
    var settle := if h.duty[BROADCAST] != FANFARE_HIGH then [Delay(SETTLE)] else [];
    var r1 := SetPosWaitOn(h, FANFARE_HIGH, BROADCAST);
    assert r1.outcome == Ok && r1.host.duty[BROADCAST] == FANFARE_HIGH;
    assert r1.host.trace == h.trace + [Xfer([0x69, 0xFF, 1, 45, 45])] + settle;
    var h2 := DelayOn(BingOn(r1.host, 255, BROADCAST), PAUSE);
    assert h2.trace == r1.host.trace + [Xfer([0x69, 0xFF, 6, 255, 4]), Delay(PAUSE)];
    var r3 := SetPosWaitOn(h2, FANFARE_LOW, BROADCAST);
    assert r3.outcome == Ok;
    assert r3.host.trace == h2.trace + [Xfer([0x69, 0xFF, 1, 34, 34]), Delay(SETTLE)];
    var last := BingOn(DelayOn(r3.host, PAUSE), 0, BROADCAST);
    assert FanfareOn(h).host == last;
    assert last.trace == r3.host.trace + [Delay(PAUSE), Xfer([0x69, 0xFF, 6, 0, 5])];
  }

  // ---------------------------------------------------------------------------
  // Tokenising the note sheet: Python's `str.split()` with no separator

  /** The characters Python's `str.isspace` accepts. */
  predicate IsSpace(c: char) {
    ('\t' <= c <= '\r') || ('\U{1C}' <= c <= ' ') || c == '\U{85}' || c == '\U{A0}' ||
    c == '\U{1680}' || ('\U{2000}' <= c <= '\U{200A}') || c == '\U{2028}' || c == '\U{2029}' ||
    c == '\U{202F}' || c == '\U{205F}' || c == '\U{3000}'
  }

  predicate NoSpace(w: string) {
    forall j :: 0 <= j < |w| ==> !IsSpace(w[j])
  }

  function Flush(word: string): seq<string> {
    if word == [] then [] else [word]
  }

  /** Splits `text` on runs of whitespace; `word` is the token read so far. */
  function SplitFrom(text: string, word: string): (toks: seq<string>)
    requires NoSpace(word)
    ensures forall i :: 0 <= i < |toks| ==> toks[i] != [] && NoSpace(toks[i])
    decreases |text|
  {
    if text == [] then Flush(word)
    else if IsSpace(text[0]) then Flush(word) + SplitFrom(text[1..], [])
    else SplitFrom(text[1..], word + [text[0]])
  }

  /** `text.split()`: the non-empty, whitespace-free tokens of `text`. */
  function Split(text: string): (toks: seq<string>)
    ensures forall i :: 0 <= i < |toks| ==> toks[i] != [] && NoSpace(toks[i])
  {
    SplitFrom(text, [])
  }

  function Concat(toks: seq<string>): string {
    if toks == [] then [] else toks[0] + Concat(toks[1..])
  }

  function NonSpace(text: string): string {
    if text == [] then [] else (if IsSpace(text[0]) then [] else [text[0]]) + NonSpace(text[1..])
  }

  lemma {:induction false} ConcatAppend(a: seq<string>, b: seq<string>)
    ensures Concat(a + b) == Concat(a) + Concat(b)
    decreases |a|
  {
    if a == [] {
      assert a + b == b;
    } else {
      assert (a + b)[1..] == a[1..] + b;
      ConcatAppend(a[1..], b);
    }
  }

  lemma {:induction false} SplitFromKeepsLetters(text: string, word: string)
    requires NoSpace(word)
    ensures Concat(SplitFrom(text, word)) == word + NonSpace(text)
    decreases |text|
  {
    if text == [] {
    } else if IsSpace(text[0]) {
      SplitFromKeepsLetters(text[1..], []);
      ConcatAppend(Flush(word), SplitFrom(text[1..], []));
    } else {
      SplitFromKeepsLetters(text[1..], word + [text[0]]);
    }
  }

  /** Splitting loses no character but whitespace, and reorders none. */
  lemma SplitKeepsLetters(text: string)
    ensures Concat(Split(text)) == NonSpace(text)
  {
    SplitFromKeepsLetters(text, []);
  }

  /** The sheet written with single spaces between the tokens. */
  function Join(toks: seq<string>): string {
    if toks == [] then [] else if |toks| == 1 then toks[0] else toks[0] + " " + Join(toks[1..])
  }

  lemma {:induction false} SplitFromWord(w: string, rest: string, word: string)
    requires NoSpace(w) && NoSpace(word)
    ensures SplitFrom(w + rest, word) == SplitFrom(rest, word + w)
    decreases |w|
  {
    if w == [] {
      assert w + rest == rest;
      assert word + w == word;
    } else {
      assert (w + rest)[0] == w[0] && (w + rest)[1..] == w[1..] + rest;
      assert !IsSpace(w[0]);
      SplitFromWord(w[1..], rest, word + [w[0]]);
      assert word + [w[0]] + w[1..] == word + w;
    }
  }

  /** Whitespace of any kind and length in front of the text yields no token. */
  lemma {:induction false} SplitSkipsSpace(sep: string, t: string)
    requires forall j :: 0 <= j < |sep| ==> IsSpace(sep[j])
    ensures Split(sep + t) == Split(t)
    decreases |sep|
  {
    if sep == [] {
      assert sep + t == t;
    } else {
      assert (sep + t)[0] == sep[0] && (sep + t)[1..] == sep[1..] + t;
      SplitSkipsSpace(sep[1..], t);
    }
  }

  /** A word ended by whitespace, or by the end of the text, is one token. */
  lemma SplitWord(w: string, rest: string)
    requires w != [] && NoSpace(w)
    requires rest == [] || IsSpace(rest[0])
    ensures Split(w + rest) == [w] + Split(rest)
  {
    SplitFromWord(w, rest, []);
    assert [] + w == w;
  }

  /** Splitting a sheet written token by token gives back exactly those tokens. */
  lemma {:induction false} SplitJoin(toks: seq<string>)
    requires forall i :: 0 <= i < |toks| ==> toks[i] != [] && NoSpace(toks[i])
    ensures Split(Join(toks)) == toks
    decreases |toks|
  {
    if toks == [] {
    } else if |toks| == 1 {
      SplitFromWord(toks[0], [], []);
      assert toks[0] + [] == toks[0];
      assert [] + toks[0] == toks[0];
      assert [toks[0]] == toks;
    } else {
      var t, rest := toks[0], Join(toks[1..]);
      assert Join(toks) == t + (" " + rest);
      SplitFromWord(t, " " + rest, []);
      assert [] + t == t;
      assert (" " + rest)[0] == ' ' && (" " + rest)[1..] == rest;
      SplitJoin(toks[1..]);
      assert [t] + toks[1..] == toks;
    }
  }

  // ---------------------------------------------------------------------------
  // Reference semantics of the note-sheet player

  /** One two-character token: the note is looked up first, the duration after the strike. */
  function PlayTokenOn(h: Host, note: char, size: char): (r: Run)
    ensures note !in NOTES ==> r == Run(h, Raised(UnknownNote(note)))
    ensures note in NOTES && size !in DURATIONS && ValidHost(h) ==>
      r == Run(BingNoteOn(h, note).host, Raised(UnknownDuration(size)))
    ensures note in NOTES && size in DURATIONS && ValidHost(h) ==>
      r.outcome == Ok &&
      r.host == BingNoteOn(h, note).host.(trace := BingNoteOn(h, note).host.trace + [Delay(DURATIONS[size])])
    ensures ValidHost(h) ==> ValidHost(r.host)
    ensures h.trace <= r.host.trace
  {
    if note !in NOTES then Run(h, Raised(UnknownNote(note)))
    else
      var r1 := BingNoteOn(h, note);
      if r1.outcome.Raised? then r1
      else if size !in DURATIONS then Run(r1.host, Raised(UnknownDuration(size)))
      else Run(DelayOn(r1.host, DURATIONS[size]), Ok)
  }

  /** `play_music_sheet` over the tokens of the sheet; the first error ends playback. */
  function PlayOn(h: Host, toks: seq<string>): (r: Run)
    ensures ValidHost(h) ==> ValidHost(r.host)
    ensures h.trace <= r.host.trace
    ensures (forall i :: 0 <= i < |toks| ==> |toks[i]| != 2) ==> r == Run(h, Ok)
    decreases |toks|
  {
    if toks == [] then Run(h, Ok)
    else if |toks[0]| != 2 then PlayOn(h, toks[1..])
    else
      var r1 := PlayTokenOn(h, toks[0][0], toks[0][1]);
      if r1.outcome.Raised? then r1 else PlayOn(r1.host, toks[1..])
  }

  /** The tokens the player acts on. */
  function WellFormed(toks: seq<string>): (ws: seq<string>)
    ensures forall i :: 0 <= i < |ws| ==> |ws[i]| == 2
  {
    if toks == [] then []
    else (if |toks[0]| == 2 then [toks[0]] else []) + WellFormed(toks[1..])
  }

  /** Tokens whose length is not two are skipped without a trace. */
  lemma {:induction false} PlaySkipsMalformed(h: Host, toks: seq<string>)
    ensures PlayOn(h, toks) == PlayOn(h, WellFormed(toks))
    decreases |toks|
  {
    if toks == [] {
    } else if |toks[0]| != 2 {
      PlaySkipsMalformed(h, toks[1..]);
      assert WellFormed(toks) == WellFormed(toks[1..]);
    } else {
      var ws := WellFormed(toks);
      assert ws == [toks[0]] + WellFormed(toks[1..]);
      assert ws[0] == toks[0] && ws[1..] == WellFormed(toks[1..]);
      var r1 := PlayTokenOn(h, toks[0][0], toks[0][1]);
      if r1.outcome.Ok? {
        PlaySkipsMalformed(r1.host, toks[1..]);
      }
    }
  }

  /** Playback is sequential: playing `a + b` is playing `a`, then, if it did not fail, `b`. */
  lemma {:induction false} PlaySequential(h: Host, a: seq<string>, b: seq<string>)
    ensures PlayOn(h, a + b) ==
      (var r := PlayOn(h, a); if r.outcome.Raised? then r else PlayOn(r.host, b))
    decreases |a|
  {
    if a == [] {
      assert a + b == b;
    } else {
      assert (a + b)[0] == a[0] && (a + b)[1..] == a[1..] + b;
      if |a[0]| != 2 {
        PlaySequential(h, a[1..], b);
      } else {
        var r1 := PlayTokenOn(h, a[0][0], a[0][1]);
        if r1.outcome.Ok? {
          PlaySequential(r1.host, a[1..], b);
        }
      }
    }
  }

  predicate KnownToken(t: string) {
    |t| == 2 ==> t[0] in NOTES && t[1] in DURATIONS
  }

  /** A sheet whose every token names a known note and duration plays to the end. */
  lemma {:induction false} KnownSheetPlaysThrough(h: Host, toks: seq<string>)
    requires ValidHost(h)
    requires forall i :: 0 <= i < |toks| ==> KnownToken(toks[i])
    ensures PlayOn(h, toks).outcome == Ok
    decreases |toks|
  {
    if toks != [] {
      if |toks[0]| != 2 {
        KnownSheetPlaysThrough(h, toks[1..]);
      } else {
        var r1 := PlayTokenOn(h, toks[0][0], toks[0][1]);
        KnownSheetPlaysThrough(r1.host, toks[1..]);
      }
    }
  }

  /**
   * The sheet "Go Co" on a fresh controller: strike G, wait a half, strike C,
   * wait a full, in that order (G and C are both on hammer 1).
   */
  lemma PlayGoCo()
    ensures PlayOn(INITIAL, [['G', 'o'], ['C', 'O']]) == Run(Host(INITIAL.duty[1 := 38], [
      Xfer([0x69, 1, 1, 45, 47]), Delay(SETTLE), Xfer([0x69, 1, 6, 2, 9]), Delay(HALF),
      Xfer([0x69, 1, 1, 38, 40]), Delay(SETTLE), Xfer([0x69, 1, 6, 2, 9]), Delay(FULL)]), Ok)
  {
    var go, co := ['G', 'o'], ['C', 'O'];
    PlayGo();
    var h2 := Host(INITIAL.duty[1 := 45], [Xfer([0x69, 1, 1, 45, 47]), Delay(SETTLE), Xfer([0x69, 1, 6, 2, 9]), Delay(HALF)]);
    PlayCo(h2);
    assert h2.duty[1 := 38] == INITIAL.duty[1 := 38];
    assert [co][1..] == [];
    assert [go, co][1..] == [co];
  }

  /** The first token of "Go Co": G on hammer 1 at 45, then a half. */
  lemma PlayGo()
    ensures PlayTokenOn(INITIAL, 'G', 'o') == Run(Host(INITIAL.duty[1 := 45],
      [Xfer([0x69, 1, 1, 45, 47]), Delay(SETTLE), Xfer([0x69, 1, 6, 2, 9]), Delay(HALF)]), Ok)
  {
    FrameOfCommand(1, 1, 45);
    FrameOfCommand(1, 6, 2);
    InitialIsValid();
    assert NOTES['G'] == (1, 45) && DURATIONS['o'] == HALF;
  }

  /** The second token of "Go Co": C on hammer 1 at 38, then a full. */
  lemma PlayCo(h: Host)
    requires ValidHost(h) && h.duty[1] == 45
    ensures PlayTokenOn(h, 'C', 'O') == Run(Host(h.duty[1 := 38], h.trace +
      [Xfer([0x69, 1, 1, 38, 40]), Delay(SETTLE), Xfer([0x69, 1, 6, 2, 9]), Delay(FULL)]), Ok)
  {
    FrameOfCommand(1, 1, 38);
    FrameOfCommand(1, 6, 2);
    assert NOTES['C'] == (1, 38) && DURATIONS['O'] == FULL;
  }

  // ---------------------------------------------------------------------------
  // Reference semantics of the key dispatcher

  /** A decoded input event; the other fields of the kernel record are ignored. */
  datatype InputEvent = InputEvent(typ: int, code: int, value: int)

  /** A key (type 1) going down (value 1). */
  predicate Pressed(ev: InputEvent) {
    ev.typ == 0x01 && ev.value == 0x01
  }

  const SHIFT_LEFT := 0x2A

  datatype Action =
    | Jog(ds: int)           // move the selected hammer
    | StrikeSelected         // strike the selected hammer
    | StrikeAll              // strike every hammer
    | ResetAll               // every hammer to the start position
    | PlayNote(note: char)   // ring a note of the table
    | ToggleDevice           // select the other hammer
    | Fanfare                // the enter-key gesture

  /** The key table: A S D F, right shift, space, tab, Q..], left shift, keypad enter. */
  const KEYMAP: map<int, Action> := map[
    0x1E := Jog(2), 0x1F := Jog(1), 0x20 := Jog(-1), 0x21 := Jog(-2),
    0x36 := StrikeSelected, 0x39 := StrikeAll, 0x0F := ResetAll,
    0x10 := PlayNote('G'), 0x11 := PlayNote('A'), 0x12 := PlayNote('H'), 0x13 := PlayNote('C'),
    0x14 := PlayNote('D'), 0x15 := PlayNote('E'), 0x16 := PlayNote('F'), 0x17 := PlayNote('g'),
    0x18 := PlayNote('a'), 0x19 := PlayNote('h'), 0x1A := PlayNote('c'), 0x1B := PlayNote('d'),
    SHIFT_LEFT := ToggleDevice, 0x60 := Fanfare]

  datatype Dispatched = Dispatched(run: Run, devId: int)

  /** The key table, entry by entry. */
  lemma KeyTable(code: int)
    ensures code in KEYMAP <==>
      code in {0x1E, 0x1F, 0x20, 0x21, 0x36, 0x39, 0x0F, 0x10, 0x11, 0x12, 0x13, 0x14, 0x15,
               0x16, 0x17, 0x18, 0x19, 0x1A, 0x1B, 0x2A, 0x60}
    ensures code == 0x1E ==> KEYMAP[code] == Jog(2)
    ensures code == 0x1F ==> KEYMAP[code] == Jog(1)
    ensures code == 0x20 ==> KEYMAP[code] == Jog(-1)
    ensures code == 0x21 ==> KEYMAP[code] == Jog(-2)
    ensures code == 0x36 ==> KEYMAP[code] == StrikeSelected
    ensures code == 0x39 ==> KEYMAP[code] == StrikeAll
    ensures code == 0x0F ==> KEYMAP[code] == ResetAll
    ensures code == 0x10 ==> KEYMAP[code] == PlayNote('G')
    ensures code == 0x11 ==> KEYMAP[code] == PlayNote('A')
    ensures code == 0x12 ==> KEYMAP[code] == PlayNote('H')
    ensures code == 0x13 ==> KEYMAP[code] == PlayNote('C')
    ensures code == 0x14 ==> KEYMAP[code] == PlayNote('D')
    ensures code == 0x15 ==> KEYMAP[code] == PlayNote('E')
    ensures code == 0x16 ==> KEYMAP[code] == PlayNote('F')
    ensures code == 0x17 ==> KEYMAP[code] == PlayNote('g')
    ensures code == 0x18 ==> KEYMAP[code] == PlayNote('a')
    ensures code == 0x19 ==> KEYMAP[code] == PlayNote('h')
    ensures code == 0x1A ==> KEYMAP[code] == PlayNote('c')
    ensures code == 0x1B ==> KEYMAP[code] == PlayNote('d')
    ensures code == 0x2A ==> KEYMAP[code] == ToggleDevice
    ensures code == 0x60 ==> KEYMAP[code] == Fanfare
  {
  }

  /** Every note key rings a note of the table. */
  lemma KeyNotesKnown(code: int)
    requires code in KEYMAP
    ensures KEYMAP[code].PlayNote? ==> KEYMAP[code].note in NOTES
  {
    KeyTable(code);
  }

  /** One event of the interactive loop, with `devId` the selected hammer. */
  function DispatchOn(h: Host, devId: int, ev: InputEvent): (r: Dispatched)
    ensures !Pressed(ev) ==> r == Dispatched(Run(h, Ok), devId)
    ensures ev.code !in KEYMAP ==> r == Dispatched(Run(h, Ok), devId)
    ensures Pressed(ev) && ev.code == SHIFT_LEFT ==>
      r == Dispatched(Run(h, Ok), if devId == 1 then 2 else 1)
    ensures ev.code != SHIFT_LEFT ==> r.devId == devId
    ensures ValidHost(h) && devId in h.duty ==> r.run.outcome == Ok && ValidHost(r.run.host)
    ensures h.trace <= r.run.host.trace
  {
    if !Pressed(ev) || ev.code !in KEYMAP then Dispatched(Run(h, Ok), devId)
    else KeyNotesKnown(ev.code); ActOn(h, devId, KEYMAP[ev.code])
  }

  /** What one action of the key table does, with `devId` the selected hammer. */
  function ActOn(h: Host, devId: int, a: Action): (r: Dispatched)
    ensures a.ToggleDevice? ==> r == Dispatched(Run(h, Ok), if devId == 1 then 2 else 1)
    ensures !a.ToggleDevice? ==> r.devId == devId
    ensures ValidHost(h) ==> ValidHost(r.run.host)
    ensures ValidHost(h) && devId in h.duty && (a.PlayNote? ==> a.note in NOTES) ==> r.run.outcome == Ok
    ensures h.trace <= r.run.host.trace
  {
    match a
    case Jog(ds) => Dispatched(MoveOn(h, ds, devId), devId)
    case StrikeSelected => Dispatched(Run(BingOn(h, STRIKE, devId), Ok), devId)
    case StrikeAll => Dispatched(Run(BingOn(h, STRIKE, BROADCAST), Ok), devId)
    case ResetAll => Dispatched(Run(SetPosOn(h, START_PWM, BROADCAST), Ok), devId)
    case PlayNote(n) => Dispatched(BingNoteOn(h, n), devId)
    case ToggleDevice => Dispatched(Run(h, Ok), if devId == 1 then 2 else 1)
    case Fanfare => Dispatched(FanfareOn(h), devId)
  }

  /** Left shift twice selects the hammer that was selected before. */
  lemma ToggleTwice(h: Host, devId: int, ev: InputEvent)
    requires devId == 1 || devId == 2
    requires Pressed(ev) && ev.code == SHIFT_LEFT
    ensures var r1 := DispatchOn(h, devId, ev);
      DispatchOn(r1.run.host, r1.devId, ev) == Dispatched(Run(h, Ok), devId)
  {
  }

  /** The jog keys move the selected hammer by +2, +1, -1, -2, clamped; nothing else moves. */
  lemma JogKeys(h: Host, devId: int, ev: InputEvent)
    requires Pressed(ev) && devId in h.duty
    requires 0x1E <= ev.code <= 0x21
    ensures var ds := if ev.code == 0x1E then 2 else if ev.code == 0x1F then 1 else if ev.code == 0x20 then -1 else -2;
      var r := DispatchOn(h, devId, ev);
      r.devId == devId && r.run.outcome == Ok &&
      r == Dispatched(MoveOn(h, ds, devId), devId) &&
      r.run.host.duty == h.duty[devId := Clamp(h.duty[devId] + ds)] &&
      r.run.host.trace == h.trace + [Xfer(Frame([devId, CMD_SET_POS, Clamp(h.duty[devId] + ds)]))]
  {
    var r := DispatchOn(h, devId, ev);
    var ds := KEYMAP[ev.code].ds;
    assert r.run == MoveOn(h, ds, devId);
    assert r.run.host.duty == h.duty[devId := Clamp(h.duty[devId] + ds)];
  }

  // ---------------------------------------------------------------------------
  // The controller object

  class Kuku {
    /** The last position sent to each device (`self.duty`). */
    var duty: map<int, int>
    /** The SPI transfers and sleeps so far, in order. */
    var trace: seq<Effect>

    function State(): Host
      reads this
    {
      Host(duty, trace)
    }

    constructor ()
      ensures State() == INITIAL
    {
      duty := map[1 := START_PWM, 2 := START_PWM, BROADCAST := START_PWM];
      trace := [];
    }

    /** `_send`: frame `data` and transfer it. */
    method Send(data: seq<int>)
      modifies this
      ensures State() == SendOn(old(State()), data)
    {
      var csum := Sum(data) % 256;
      var ds := [START_BYTE];
      ds := ds + data;
      ds := ds + [csum];
      trace := trace + [Xfer(ds)];
    }

    /** `time.sleep`, recorded in the trace. */
    method Sleep(ms: nat)
      modifies this
      ensures State() == DelayOn(old(State()), ms)
    {
      trace := trace + [Delay(ms)];
    }

    method SetPos(pos: int, dev: int := BROADCAST)
      modifies this
      ensures State() == SetPosOn(old(State()), pos, dev)
    {
      if pos >= MIN_PWM && pos <= MAX_PWM {
        duty := duty[dev := pos];
        Send([dev, CMD_SET_POS, duty[dev]]);
      }
    }

    /** `getPos`: the cached position, or `None` where the source raises `KeyError`. */
    method GetPos(dev: int := BROADCAST) returns (r: Option<int>)
      ensures r.Some? <==> dev in duty
      ensures r.Some? ==> r.value == duty[dev]
    {
      if dev in duty {
        r := Some(duty[dev]);
      } else {
        r := None;
      }
    }

    method Move(ds: int, dev: int := BROADCAST) returns (outcome: Outcome)
      modifies this
      ensures Run(State(), outcome) == MoveOn(old(State()), ds, dev)
    {
      if dev !in duty {
        return Raised(UnknownDevice(dev));
      }
      var d := duty[dev] + ds;
      if d > MAX_PWM {
        d := MAX_PWM;
      } else if d < MIN_PWM {
        d := MIN_PWM;
      }
      SetPos(d, dev);
      outcome := Ok;
    }

    method ProgramId(newDev: int, oldDev: int := BROADCAST)
      modifies this
      ensures State() == ProgramIdOn(old(State()), newDev, oldDev)
    {
      Send([oldDev, CMD_PROGRAM_ID, newDev]);
    }

    method Bing(dt: int, dev: int := BROADCAST)
      modifies this
      ensures State() == BingOn(old(State()), dt, dev)
    {
      Send([dev, CMD_BING, dt % 256]);
    }
  }

  // ---------------------------------------------------------------------------
  // The gestures, the player and the dispatcher over a controller

  method SetPosWait(kuku: Kuku, newPos: int, dev: int := BROADCAST) returns (outcome: Outcome)
    modifies kuku
    ensures Run(kuku.State(), outcome) == SetPosWaitOn(old(kuku.State()), newPos, dev)
  {
    var oldPos := kuku.GetPos(dev);
    if oldPos.None? {
      return Raised(UnknownDevice(dev));
    }
    kuku.SetPos(newPos, dev);
    var ds := if newPos - oldPos.value >= 0 then newPos - oldPos.value else oldPos.value - newPos;
    if ds > 0 {
      kuku.Sleep(SETTLE);
    }
    outcome := Ok;
  }

  method BingPos(kuku: Kuku, newPos: int, dev: int := BROADCAST) returns (outcome: Outcome)
    modifies kuku
    ensures Run(kuku.State(), outcome) == BingPosOn(old(kuku.State()), newPos, dev)
  {
    outcome := SetPosWait(kuku, newPos, dev);
    if outcome.Raised? {
      return;
    }
    kuku.Bing(STRIKE, dev);
  }

  method BingNote(kuku: Kuku, note: char) returns (outcome: Outcome)
    modifies kuku
    ensures Run(kuku.State(), outcome) == BingNoteOn(old(kuku.State()), note)
  {
    if note !in NOTES {
      return Raised(UnknownNote(note));
    }
    var (dev, pos) := NOTES[note];
    outcome := BingPos(kuku, pos, dev);
  }

  method PlayMusicSheet(kuku: Kuku, text: string) returns (outcome: Outcome)
    modifies kuku
    ensures Run(kuku.State(), outcome) == PlayOn(old(kuku.State()), Split(text))
  {
    var toks := Split(text);
    var i := 0;
    while i < |toks|
      invariant 0 <= i <= |toks|
      invariant PlayOn(old(kuku.State()), toks) == PlayOn(kuku.State(), toks[i..])
    {
      var tok := toks[i];
      assert toks[i..][0] == tok && toks[i..][1..] == toks[i + 1..];
      if |tok| != 2 {
        i := i + 1;
        continue;
      }
      var note, size := tok[0], tok[1];
      if note !in NOTES {
        return Raised(UnknownNote(note));
      }
      outcome := BingNote(kuku, note);
      if outcome.Raised? {
        return;
      }
      if size !in DURATIONS {
        return Raised(UnknownDuration(size));
      }
      var delay := DURATIONS[size];
      kuku.Sleep(delay);
      i := i + 1;
    }
    outcome := Ok;
  }

  /** The body of the interactive loop for one decoded event; returns the new `dev_id`. */
  method Dispatch(kuku: Kuku, devId: int, ev: InputEvent) returns (newDevId: int, outcome: Outcome)
    modifies kuku
    ensures Dispatched(Run(kuku.State(), outcome), newDevId) == DispatchOn(old(kuku.State()), devId, ev)
  {
    newDevId, outcome := devId, Ok;
    if ev.typ == 0x01 && ev.value == 0x01 {
      var code := ev.code;
      KeyTable(code);
      if code == 0x1E {
        outcome := kuku.Move(2, devId);
      } else if code == 0x1F {
        outcome := kuku.Move(1, devId);
      } else if code == 0x20 {
        outcome := kuku.Move(-1, devId);
      } else if code == 0x21 {
        outcome := kuku.Move(-2, devId);
      } else if code == 0x36 {
        kuku.Bing(STRIKE, devId);
      } else if code == 0x39 {
        kuku.Bing(STRIKE, BROADCAST);
      } else if code == 0x0F {
        kuku.SetPos(START_PWM, BROADCAST);
      } else if code == 0x10 {
        outcome := BingNote(kuku, 'G');
      } else if code == 0x11 {
        outcome := BingNote(kuku, 'A');
      } else if code == 0x12 {
        outcome := BingNote(kuku, 'H');
      } else if code == 0x13 {
        outcome := BingNote(kuku, 'C');
      } else if code == 0x14 {
        outcome := BingNote(kuku, 'D');
      } else if code == 0x15 {
        outcome := BingNote(kuku, 'E');
      } else if code == 0x16 {
        outcome := BingNote(kuku, 'F');
      } else if code == 0x17 {
        outcome := BingNote(kuku, 'g');
      } else if code == 0x18 {
        outcome := BingNote(kuku, 'a');
      } else if code == 0x19 {
        outcome := BingNote(kuku, 'h');
      } else if code == 0x1A {
        outcome := BingNote(kuku, 'c');
      } else if code == 0x1B {
        outcome := BingNote(kuku, 'd');
      } else if code == 0x2A {
        if devId == 1 {
          newDevId := 2;
        } else {
          newDevId := 1;
        }
      } else if code == 0x60 {
        outcome := SetPosWait(kuku, FANFARE_HIGH);
        if outcome.Raised? {
          return;
        }
        kuku.Bing(255);
        kuku.Sleep(PAUSE);
        outcome := SetPosWait(kuku, FANFARE_LOW);
        if outcome.Raised? {
          return;
        }
        kuku.Sleep(PAUSE);
        kuku.Bing(0);
      }
    }
  }
}

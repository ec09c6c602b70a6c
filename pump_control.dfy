/** The control state machine of the peristaltic pump firmware: one pass of
    loop() samples the encoder unit's button and position, the clock and the
    AtomS3's built-in button, moves between five numbered modes, tunes the
    pump's on-time and the delay between runs, runs the pump on a timer and
    saves the two parameters to the EEPROM. Hardware calls become parameters
    (what was sampled) and results (the effects requested).

    The pure part (State, Step, Run, RemoteUpdated, Boot) specifies one pass;
    the class Controller holds the firmware's globals and is proved to follow
    it. */
module PumpControl {
  import opened Eeprom

  /** A `signed short int`, what the encoder unit reports. */
  type Short = x: int | -0x8000 <= x < 0x8000

  datatype Option<T> = None | Some(value: T)

  /** What one pass of loop() samples. */
  datatype Inputs = Inputs(
    btn: bool,      // sensor.getButtonStatus(): false while the knob is held down
    encoder: Short, // sensor.getEncoderValue()
    now: nat,       // millis() when the cycle timer is checked
    after: nat,     // millis() once the pump run is over
    btnA: bool)     // AtomS3.BtnA.wasPressed()

  /** Text put on the display. */
  datatype Text = Label(s: string) | Number(n: int)

  /** What one pass asks of the hardware. */
  datatype Effect =
    | Draw(text: Text)                      // a drawString on the display
    | RunPump(ms: int)                      // forward at half speed for ms, then stop
    | Persist(ontime: int, forsink: int)    // both parameters put and committed

  /** The firmware's globals: mstatus, newpress, last_btn, last_value,
      ontime, forsink and tempus. last_btn only ever holds 0 or 1. */
  datatype State = State(
    mode: int,
    newpress: bool,
    lastBtn: bool,
    lastValue: Short,
    ontime: int,
    forsink: int,
    tempus: nat)

  datatype Outcome = Outcome(state: State, effects: seq<Effect>)

  /** mstatus counts 0, 1, 2, 3, 4 and wraps back to 0. */
  const Modes: int := 5
  const RunMode: int := 0
  const OntimeMode: int := 1
  const DelayMode: int := 2
  const SaveMode: int := 3
  /** The fifth value of mstatus: the dispatch has no case for it. */
  const IdleMode: int := 4

  function NextMode(m: int): int {
    if m + 1 == Modes then 0 else m + 1
  }

  /** The invariant every pass keeps: mstatus is one of the five modes, and
      the idle mode, having no handler, never consumes its entry latch. */
  predicate Inv(s: State) {
    0 <= s.mode < Modes && (s.mode == IdleMode ==> s.newpress)
  }

  /** The sampled status changed and is now false: the knob went down. */
  predicate IsPress(last: bool, btn: bool) {
    last != btn && !btn
  }

  /** The edge detection at the top of loop(). */
  function SampleButton(s: State, btn: bool): Outcome {
    if s.lastBtn != btn then
      if !btn then
        var m := NextMode(s.mode);
        Outcome(s.(mode := m, newpress := true, lastBtn := btn), [Draw(Number(m))])
      else
        Outcome(s.(lastBtn := btn), [])
    else
      Outcome(s, [])
  }

  /** The cycle timer's test `millis() - tempus >= forsink`. The int forsink
      is compared as a uint64_t, so a negative delay is never reached. */
  predicate Fires(s: State, now: nat) {
    s.forsink >= 0 && now - s.tempus >= s.forsink
  }

  /** Mode 0: run the pump for ontime ms whenever the delay has elapsed. */
  function Running(s: State, now: nat, after: nat): Outcome {
    var entry := if s.newpress then [Draw(Label("Running"))] else [];
    var s1 := s.(newpress := false);
    if Fires(s1, now) then
      Outcome(s1.(tempus := after),
              entry + [Draw(Label("Running")), Draw(Number(s.ontime)), Draw(Number(s.forsink)), RunPump(s.ontime)])
    else
      Outcome(s1, entry)
  }

  /** Mode 1: add the encoder's movement since the baseline to ontime. */
  function AdjustOntime(s: State, encoder: Short): Outcome {
    var entry := if s.newpress then [Draw(Label("On time")), Draw(Number(s.ontime))] else [];
    var s1 := if s.newpress then s.(lastValue := encoder, newpress := false) else s;
    if s1.lastValue != encoder then
      var t := s1.ontime + (encoder - s1.lastValue);
      Outcome(s1.(ontime := t, lastValue := encoder), entry + [Draw(Number(t))])
    else
      Outcome(s1, entry)
  }

  /** Mode 2: add the encoder's movement since the baseline to forsink. */
  function AdjustDelay(s: State, encoder: Short): Outcome {
    var entry := if s.newpress then [Draw(Label("Delay")), Draw(Number(s.forsink))] else [];
    var s1 := if s.newpress then s.(lastValue := encoder, newpress := false) else s;
    if s1.lastValue != encoder then
      var f := s1.forsink + (encoder - s1.lastValue);
      Outcome(s1.(forsink := f, lastValue := encoder), entry + [Draw(Number(f))])
    else
      Outcome(s1, entry)
  }

  /** Mode 3: a press of BtnA saves both parameters. */
  function ConfirmSave(s: State, btnA: bool): Outcome {
    var entry := if s.newpress then [Draw(Label("Save ?")), Draw(Number(s.ontime)), Draw(Number(s.forsink))] else [];
    var s1 := s.(newpress := false);
    if btnA then
      Outcome(s1, entry + [Persist(s.ontime, s.forsink), Draw(Number(s.ontime)), Draw(Number(s.forsink)), Draw(Label("Saved"))])
    else
      Outcome(s1, entry)
  }

  /** The switch on mstatus; there is no case for mode 4. */
  function Dispatch(s: State, inp: Inputs): Outcome {
    if s.mode == RunMode then Running(s, inp.now, inp.after)
    else if s.mode == OntimeMode then AdjustOntime(s, inp.encoder)
    else if s.mode == DelayMode then AdjustDelay(s, inp.encoder)
    else if s.mode == SaveMode then ConfirmSave(s, inp.btnA)
    else Outcome(s, [])
  }

  /** One pass of loop() after the web server has been serviced. */
  function Step(s: State, inp: Inputs): Outcome {
    var b := SampleButton(s, inp.btn);
    var d := Dispatch(b.state, inp);
    Outcome(d.state, b.effects + d.effects)
  }

  /** The mode the dispatch of this pass runs in. */
  function ModeAfterButton(s: State, inp: Inputs): int {
    SampleButton(s, inp.btn).state.mode
  }

  /** This pass writes the parameters to the EEPROM. */
  predicate Saves(s: State, inp: Inputs) {
    ModeAfterButton(s, inp) == SaveMode && inp.btnA
  }

  /** Consecutive passes. */
  function Run(s: State, ins: seq<Inputs>): State
    decreases |ins|
  {
    if ins == [] then s else Run(Step(s, ins[0]).state, ins[1..])
  }

  /** The number of presses in a run of samples, given the sample before it. */
  function Presses(last: bool, ins: seq<Inputs>): nat
    decreases |ins|
  {
    if ins == [] then 0
    else (if IsPress(last, ins[0].btn) then 1 else 0) + Presses(ins[0].btn, ins[1..])
  }

  /** handleUpdate(): both arguments present overwrite both parameters. */
  function RemoteUpdated(s: State, ontimeArg: Option<int>, forsinkArg: Option<int>): (r: State)
    ensures r.mode == s.mode && r.newpress == s.newpress && r.lastBtn == s.lastBtn
    ensures r.lastValue == s.lastValue && r.tempus == s.tempus
    ensures ontimeArg.Some? && forsinkArg.Some? ==>
              r.ontime == ontimeArg.value && r.forsink == forsinkArg.value
    ensures !(ontimeArg.Some? && forsinkArg.Some?) ==> r == s
  {
    if ontimeArg.Some? && forsinkArg.Some? then
      s.(ontime := ontimeArg.value, forsink := forsinkArg.value)
    else
      s
  }

  /** The globals once setup() has read the EEPROM at time now. */
  function Boot(flash: seq<Byte>, now: nat): State
    requires |flash| == Size
  {
    State(RunMode, true, true, 0, LoadPair(flash).0, LoadPair(flash).1, now)
  }

  /** What handleClient() hands to the core: nothing, or a POST to /update
      with the already-parsed arguments that were present. */
  datatype Request = NoRequest | UpdateRequest(ontimeArg: Option<int>, forsinkArg: Option<int>)

  function Serviced(s: State, req: Request): State {
    match req
    case NoRequest => s
    case UpdateRequest(o, f) => RemoteUpdated(s, o, f)
  }

  /** The flash after the web request: both parameters saved when the
      update was accepted, as handleUpdate() does. */
  function ServicedFlash(flash: seq<Byte>, req: Request): seq<Byte>
    requires |flash| == Size
  {
    if req.UpdateRequest? && req.ontimeArg.Some? && req.forsinkArg.Some? then
      SavePair(flash, req.ontimeArg.value, req.forsinkArg.value)
    else
      flash
  }

  /** The flash after a pass: the pair saved when BtnA is pressed in mode 3. */
  function SteppedFlash(flash: seq<Byte>, s: State, inp: Inputs): seq<Byte>
    requires |flash| == Size
  {
    if Saves(s, inp) then SavePair(flash, s.ontime, s.forsink) else flash
  }

  /** Every pass keeps the invariant. */
  lemma StepKeepsInv(s: State, inp: Inputs)
    requires Inv(s)
    ensures Inv(Step(s, inp).state)
  {
  }

  /** The firmware: its globals and its EEPROM. */
  class Controller {
    var mstatus: int
    var newpress: bool
    var lastBtn: bool
    var lastValue: Short
    var ontime: int
    var forsink: int
    var tempus: nat
    const store: Store

    function Snapshot(): State
      reads this
    {
      State(mstatus, newpress, lastBtn, lastValue, ontime, forsink, tempus)
    }

    /** Between passes the state keeps its invariant and nothing is left
        uncommitted in the EEPROM cache. */
    ghost predicate Valid()
      reads this, store, store.cache
    {
      Inv(Snapshot()) && store.Valid() && store.cache[..] == store.flash
    }

    /** setup(): EEPROM.begin, both parameters read back, the timer started. */
    constructor Setup(flash: seq<Byte>, now: nat)
      requires |flash| == Size
      ensures Valid() && fresh(store) && fresh(store.cache)
      ensures store.flash == flash
      ensures Snapshot() == Boot(flash, now)
    {
      var eeprom := new Store.Begin(flash);
      store := eeprom;
      mstatus := RunMode;
      newpress := true;
      lastBtn := true;
      lastValue := 0;
      ontime := eeprom.Get(OntimeAddr);
      forsink := eeprom.Get(ForsinkAddr);
      tempus := now;
    }

    /** Writes both parameters and commits them. */
    method SaveParameters()
      requires store.Valid()
      modifies store, store.cache
      ensures store.Valid()
      ensures store.flash == store.cache[..]
      ensures store.cache[..] == SavePair(old(store.cache[..]), ontime, forsink)
    {
      store.Put(OntimeAddr, ontime);
      store.Put(ForsinkAddr, forsink);
      store.Commit();
    }

    /** handleUpdate() with its arguments already parsed; reports whether
        the request was accepted (200) rather than rejected (400). */
    method RemoteUpdate(ontimeArg: Option<int>, forsinkArg: Option<int>) returns (accepted: bool)
      requires Valid()
      modifies this, store, store.cache
      ensures Valid()
      ensures accepted <==> ontimeArg.Some? && forsinkArg.Some?
      ensures Snapshot() == RemoteUpdated(old(Snapshot()), ontimeArg, forsinkArg)
      ensures store.flash == if accepted then SavePair(old(store.flash), ontimeArg.value, forsinkArg.value)
                             else old(store.flash)
    {
      if ontimeArg.Some? && forsinkArg.Some? {
        ontime := ontimeArg.value;
        forsink := forsinkArg.value;
        SaveParameters();
        accepted := true;
      } else {
        accepted := false;
      }
    }

    /** The edge detection at the top of loop(). */
    method SampleButtonStatus(btn: bool) returns (effects: seq<Effect>)
      modifies this
      ensures Snapshot() == SampleButton(old(Snapshot()), btn).state
      ensures effects == SampleButton(old(Snapshot()), btn).effects
    {
      effects := [];
      if lastBtn != btn {
        if !btn {
          mstatus := mstatus + 1;
          if mstatus == Modes {
            mstatus := 0;
          }
          effects := [Draw(Number(mstatus))];
          newpress := true;
        }
        lastBtn := btn;
      }
    }

    /** case 0 of the switch. */
    method RunCase(now: nat, after: nat) returns (effects: seq<Effect>)
      modifies this
      ensures Snapshot() == Running(old(Snapshot()), now, after).state
      ensures effects == Running(old(Snapshot()), now, after).effects
    {
      effects := [];
      if newpress {
        effects := [Draw(Label("Running"))];
        newpress := false;
      }
      if forsink >= 0 && now - tempus >= forsink {
        effects := effects + [Draw(Label("Running")), Draw(Number(ontime)), Draw(Number(forsink)), RunPump(ontime)];
        tempus := after;
      }
    }

    /** case 1 of the switch. */
    method OntimeCase(encoderValue: Short) returns (effects: seq<Effect>)
      modifies this
      ensures Snapshot() == AdjustOntime(old(Snapshot()), encoderValue).state
      ensures effects == AdjustOntime(old(Snapshot()), encoderValue).effects
    {
      effects := [];
      if newpress {
        effects := [Draw(Label("On time")), Draw(Number(ontime))];
        lastValue := encoderValue;
        newpress := false;
      }
      if lastValue != encoderValue {
        var relativeChange := encoderValue - lastValue;
        ontime := ontime + relativeChange;
        effects := effects + [Draw(Number(ontime))];
        lastValue := encoderValue;
      }
    }

    /** case 2 of the switch. */
    method DelayCase(encoderValue: Short) returns (effects: seq<Effect>)
      modifies this
      ensures Snapshot() == AdjustDelay(old(Snapshot()), encoderValue).state
      ensures effects == AdjustDelay(old(Snapshot()), encoderValue).effects
    {
      effects := [];
      if newpress {
        effects := [Draw(Label("Delay")), Draw(Number(forsink))];
        lastValue := encoderValue;
        newpress := false;
      }
      if lastValue != encoderValue {
        var relativeChange := encoderValue - lastValue;
        forsink := forsink + relativeChange;
        effects := effects + [Draw(Number(forsink))];
        lastValue := encoderValue;
      }
    }

    /** case 3 of the switch. */
    method SaveCase(btnA: bool) returns (effects: seq<Effect>)
      requires Valid()
      modifies this, store, store.cache
      ensures store.Valid() && store.cache[..] == store.flash
      ensures Snapshot() == ConfirmSave(old(Snapshot()), btnA).state
      ensures effects == ConfirmSave(old(Snapshot()), btnA).effects
      ensures store.flash == if btnA then SavePair(old(store.flash), ontime, forsink) else old(store.flash)
    {
      effects := [];
      if newpress {
        effects := [Draw(Label("Save ?")), Draw(Number(ontime)), Draw(Number(forsink))];
        newpress := false;
      }
      if btnA {
        SaveParameters();
        effects := effects + [Persist(ontime, forsink), Draw(Number(ontime)), Draw(Number(forsink)), Draw(Label("Saved"))];
      }
    }

    /** One pass of loop() after server.handleClient(). */
    method Tick(inp: Inputs) returns (effects: seq<Effect>)
      requires Valid()
      modifies this, store, store.cache
      ensures Valid()
      ensures Snapshot() == Step(old(Snapshot()), inp).state
      ensures effects == Step(old(Snapshot()), inp).effects
      ensures store.flash == if Saves(old(Snapshot()), inp) then SavePair(old(store.flash), old(ontime), old(forsink))
                             else old(store.flash)
    {
      StepKeepsInv(Snapshot(), inp);
      var pressed := SampleButtonStatus(inp.btn);
      var handled: seq<Effect> := [];
      if mstatus == RunMode {
        handled := RunCase(inp.now, inp.after);
      } else if mstatus == OntimeMode {
        handled := OntimeCase(inp.encoder);
      } else if mstatus == DelayMode {
        handled := DelayCase(inp.encoder);
      } else if mstatus == SaveMode {
        handled := SaveCase(inp.btnA);
      }
      effects := pressed + handled;
    }

    /** A whole pass of loop(): the web request, if any, then the tick. */
    method Loop(req: Request, inp: Inputs) returns (accepted: bool, effects: seq<Effect>)
      requires Valid()
      modifies this, store, store.cache
      ensures Valid()
      ensures accepted <==> req.UpdateRequest? && req.ontimeArg.Some? && req.forsinkArg.Some?
      ensures Snapshot() == Step(Serviced(old(Snapshot()), req), inp).state
      ensures effects == Step(Serviced(old(Snapshot()), req), inp).effects
      ensures store.flash == SteppedFlash(ServicedFlash(old(store.flash), req), Serviced(old(Snapshot()), req), inp)
    {
      accepted := false;
      if req.UpdateRequest? {
        accepted := RemoteUpdate(req.ontimeArg, req.forsinkArg);
      }
      effects := Tick(inp);
    }
  }
}

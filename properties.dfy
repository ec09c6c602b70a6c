/** What the control state machine promises across one pass and across many:
    the mode cycle and its edge detection, the entry latch, the idle mode,
    the encoder integration, the cycle timer, the save and the remote update. */
module ControlProperties {
  import opened Eeprom
  import opened PumpControl

  /** The number of pump runs requested. */
  function Pumps(effects: seq<Effect>): nat
    decreases |effects|
  {
    if effects == [] then 0 else (if effects[0].RunPump? then 1 else 0) + Pumps(effects[1..])
  }

  /** The number of EEPROM writes requested. */
  function Writes(effects: seq<Effect>): nat
    decreases |effects|
  {
    if effects == [] then 0 else (if effects[0].Persist? then 1 else 0) + Writes(effects[1..])
  }

  lemma {:induction false} CountsAppend(a: seq<Effect>, b: seq<Effect>)
    ensures Pumps(a + b) == Pumps(a) + Pumps(b)
    ensures Writes(a + b) == Writes(a) + Writes(b)
  {
    if a != [] {
      assert (a + b)[1..] == a[1..] + b;
      CountsAppend(a[1..], b);
    } else {
      assert a + b == b;
    }
  }

  lemma CountsOfDraws(effects: seq<Effect>)
    requires forall k :: 0 <= k < |effects| ==> effects[k].Draw?
    ensures Pumps(effects) == 0 && Writes(effects) == 0
  {
  }

  /* ---------------------------------------------------------------- modes */

  /** The mode moves on by one, wrapping 4 to 0, exactly when the sampled
      status of the encoder's button changes to false; last_btn always takes
      the sample. A release never moves it. */
  lemma ModeAdvance(s: State, inp: Inputs)
    requires 0 <= s.mode < Modes
    ensures Step(s, inp).state.mode == if IsPress(s.lastBtn, inp.btn) then NextMode(s.mode) else s.mode
    ensures Step(s, inp).state.mode != s.mode <==> IsPress(s.lastBtn, inp.btn)
    ensures 0 <= Step(s, inp).state.mode < Modes
    ensures Step(s, inp).state.lastBtn == inp.btn
  {
  }

  /** Over any run of passes the mode has moved on once per press, modulo 5:
      the cycle 0, 1, 2, 3, 4, 0, ... with nothing skipped. */
  lemma {:induction false} ModeAfterRun(s: State, ins: seq<Inputs>)
    requires 0 <= s.mode < Modes
    ensures Run(s, ins).mode == (s.mode + Presses(s.lastBtn, ins)) % Modes
    decreases |ins|
  {
    if ins != [] {
      var next := Step(s, ins[0]).state;
      ModeAdvance(s, ins[0]);
      ModeAfterRun(next, ins[1..]);
      var p := if IsPress(s.lastBtn, ins[0].btn) then 1 else 0;
      assert next.mode == (s.mode + p) % Modes;
    }
  }

  lemma {:induction false} NoPressesWhileHeld(ins: seq<Inputs>)
    requires forall k :: 0 <= k < |ins| ==> !ins[k].btn
    ensures Presses(false, ins) == 0
    decreases |ins|
  {
    if ins != [] {
      NoPressesWhileHeld(ins[1..]);
    }
  }

  /** Holding the button down advances the mode once, however long it is held. */
  lemma HoldAdvancesOnce(s: State, ins: seq<Inputs>)
    requires 0 <= s.mode < Modes && s.lastBtn
    requires |ins| > 0 && forall k :: 0 <= k < |ins| ==> !ins[k].btn
    ensures Run(s, ins).mode == NextMode(s.mode)
  {
    NoPressesWhileHeld(ins[1..]);
    assert IsPress(s.lastBtn, ins[0].btn);
    assert Presses(s.lastBtn, ins) == 1;
    ModeAfterRun(s, ins);
    assert (s.mode + 1) % Modes == NextMode(s.mode);
  }

  /* ---------------------------------------------------------------- latch */

  /** Every advance sets the entry latch; modes 0 to 3 consume it in the same
      pass, so after a pass it is set exactly in mode 4. */
  lemma LatchAfterPass(s: State, inp: Inputs)
    requires Inv(s)
    ensures IsPress(s.lastBtn, inp.btn) ==> SampleButton(s, inp.btn).state.newpress
    ensures Step(s, inp).state.newpress <==> Step(s, inp).state.mode == IdleMode
  {
  }

  /** Mode 4 has no handler: no parameter, baseline or timer changes, no
      pump run and no write, and the latch stays set. */
  lemma IdleModeIsDead(s: State, inp: Inputs)
    requires Inv(s) && ModeAfterButton(s, inp) == IdleMode
    ensures Step(s, inp).state == SampleButton(s, inp.btn).state
    ensures Step(s, inp).state.newpress
    ensures Step(s, inp).state.ontime == s.ontime && Step(s, inp).state.forsink == s.forsink
    ensures Step(s, inp).state.lastValue == s.lastValue && Step(s, inp).state.tempus == s.tempus
    ensures Pumps(Step(s, inp).effects) == 0 && Writes(Step(s, inp).effects) == 0
  {
    CountsOfDraws(Step(s, inp).effects);
  }

  /* ---------------------------------------------------- encoder integration */

  /** The pass that enters mode 1 takes the reading as baseline and leaves
      both parameters alone. */
  lemma OntimeEntry(s: State, inp: Inputs)
    requires SampleButton(s, inp.btn).state.mode == OntimeMode && SampleButton(s, inp.btn).state.newpress
    ensures Step(s, inp).state.mode == OntimeMode && !Step(s, inp).state.newpress
    ensures Step(s, inp).state.lastValue == inp.encoder
    ensures Step(s, inp).state.ontime == s.ontime && Step(s, inp).state.forsink == s.forsink
  {
  }

  /** In mode 1, without a press, ontime moves by exactly what the encoder
      moved since the baseline; forsink and the timer are not touched. */
  lemma {:induction false} OntimeTelescopes(s: State, ins: seq<Inputs>)
    requires s.mode == OntimeMode && !s.newpress && Presses(s.lastBtn, ins) == 0
    ensures Run(s, ins).mode == OntimeMode && !Run(s, ins).newpress
    ensures Run(s, ins).ontime == s.ontime + (Run(s, ins).lastValue - s.lastValue)
    ensures Run(s, ins).forsink == s.forsink && Run(s, ins).tempus == s.tempus
    ensures ins != [] ==> Run(s, ins).lastValue == ins[|ins| - 1].encoder
    decreases |ins|
  {
    if ins != [] {
      var next := Step(s, ins[0]).state;
      assert !IsPress(s.lastBtn, ins[0].btn);
      assert next.ontime == s.ontime + (ins[0].encoder - s.lastValue);
      OntimeTelescopes(next, ins[1..]);
    }
  }

  /** A whole visit to mode 1: ontime ends at its value on entry plus the
      last reading minus the reading on entry. */
  lemma OntimeSession(s: State, ins: seq<Inputs>)
    requires |ins| > 0
    requires SampleButton(s, ins[0].btn).state.mode == OntimeMode && SampleButton(s, ins[0].btn).state.newpress
    requires Presses(ins[0].btn, ins[1..]) == 0
    ensures Run(s, ins).mode == OntimeMode
    ensures Run(s, ins).ontime == s.ontime + (ins[|ins| - 1].encoder - ins[0].encoder)
    ensures Run(s, ins).forsink == s.forsink
  {
    OntimeEntry(s, ins[0]);
    var next := Step(s, ins[0]).state;
    OntimeTelescopes(next, ins[1..]);
  }

  /** The pass that enters mode 2 takes the reading as baseline and leaves
      both parameters alone. */
  lemma DelayEntry(s: State, inp: Inputs)
    requires SampleButton(s, inp.btn).state.mode == DelayMode && SampleButton(s, inp.btn).state.newpress
    ensures Step(s, inp).state.mode == DelayMode && !Step(s, inp).state.newpress
    ensures Step(s, inp).state.lastValue == inp.encoder
    ensures Step(s, inp).state.ontime == s.ontime && Step(s, inp).state.forsink == s.forsink
  {
  }

  /** In mode 2, without a press, forsink moves by exactly what the encoder
      moved since the baseline; ontime and the timer are not touched. */
  lemma {:induction false} DelayTelescopes(s: State, ins: seq<Inputs>)
    requires s.mode == DelayMode && !s.newpress && Presses(s.lastBtn, ins) == 0
    ensures Run(s, ins).mode == DelayMode && !Run(s, ins).newpress
    ensures Run(s, ins).forsink == s.forsink + (Run(s, ins).lastValue - s.lastValue)
    ensures Run(s, ins).ontime == s.ontime && Run(s, ins).tempus == s.tempus
    ensures ins != [] ==> Run(s, ins).lastValue == ins[|ins| - 1].encoder
    decreases |ins|
  {
    if ins != [] {
      var next := Step(s, ins[0]).state;
      assert !IsPress(s.lastBtn, ins[0].btn);
      assert next.forsink == s.forsink + (ins[0].encoder - s.lastValue);
      DelayTelescopes(next, ins[1..]);
    }
  }

  /** A whole visit to mode 2: forsink ends at its value on entry plus the
      last reading minus the reading on entry. */
  lemma DelaySession(s: State, ins: seq<Inputs>)
    requires |ins| > 0
    requires SampleButton(s, ins[0].btn).state.mode == DelayMode && SampleButton(s, ins[0].btn).state.newpress
    requires Presses(ins[0].btn, ins[1..]) == 0
    ensures Run(s, ins).mode == DelayMode
    ensures Run(s, ins).forsink == s.forsink + (ins[|ins| - 1].encoder - ins[0].encoder)
    ensures Run(s, ins).ontime == s.ontime
  {
    DelayEntry(s, ins[0]);
    var next := Step(s, ins[0]).state;
    DelayTelescopes(next, ins[1..]);
  }

  /** In the adjust modes an unchanged reading changes nothing and draws nothing. */
  lemma SteadyReading(s: State, inp: Inputs)
    requires s.mode == OntimeMode || s.mode == DelayMode
    requires !s.newpress && !IsPress(s.lastBtn, inp.btn) && inp.encoder == s.lastValue
    ensures Step(s, inp) == Outcome(s.(lastBtn := inp.btn), [])
  {
  }

  /* ----------------------------------------------------------- cycle timer */

  /** A requested effect is counted. */
  lemma {:induction false} CountedIfPresent(effects: seq<Effect>, e: Effect)
    requires e in effects
    ensures e.RunPump? ==> Pumps(effects) > 0
    ensures e.Persist? ==> Writes(effects) > 0
    decreases |effects|
  {
    if effects[0] != e {
      CountedIfPresent(effects[1..], e);
    }
  }

  /** The switch requests a pump run exactly in mode 0 once the delay has
      elapsed, and a write exactly in mode 3 when BtnA was pressed. */
  lemma DispatchCounts(s: State, inp: Inputs)
    ensures Pumps(Dispatch(s, inp).effects) == if s.mode == RunMode && Fires(s, inp.now) then 1 else 0
    ensures s.mode == RunMode && Fires(s, inp.now) ==> RunPump(s.ontime) in Dispatch(s, inp).effects
    ensures Writes(Dispatch(s, inp).effects) == if s.mode == SaveMode && inp.btnA then 1 else 0
    ensures s.mode == SaveMode && inp.btnA ==> Persist(s.ontime, s.forsink) in Dispatch(s, inp).effects
  {
    var d := Dispatch(s, inp);
    if s.mode == RunMode {
      var entry := if s.newpress then [Draw(Label("Running"))] else [];
      var shown := [Draw(Label("Running")), Draw(Number(s.ontime)), Draw(Number(s.forsink))];
      CountsOfDraws(entry + shown);
      if Fires(s, inp.now) {
        assert d.effects == (entry + shown) + [RunPump(s.ontime)];
        CountsAppend(entry + shown, [RunPump(s.ontime)]);
      } else {
        assert d.effects == entry;
      }
    } else if s.mode == SaveMode {
      var entry := if s.newpress then [Draw(Label("Save ?")), Draw(Number(s.ontime)), Draw(Number(s.forsink))] else [];
      var saved := [Draw(Number(s.ontime)), Draw(Number(s.forsink)), Draw(Label("Saved"))];
      CountsOfDraws(entry);
      if inp.btnA {
        assert d.effects == entry + ([Persist(s.ontime, s.forsink)] + saved);
        CountsOfDraws(saved);
        CountsAppend([Persist(s.ontime, s.forsink)], saved);
        CountsAppend(entry, [Persist(s.ontime, s.forsink)] + saved);
      } else {
        assert d.effects == entry;
      }
    } else {
      CountsOfDraws(d.effects);
    }
  }

  /** The pump runs, once, in mode 0 exactly when the delay has elapsed, for
      ontime ms; the timer then restarts from the end of the run. */
  lemma PumpRunsIff(s: State, inp: Inputs)
    ensures Pumps(Step(s, inp).effects) ==
              if ModeAfterButton(s, inp) == RunMode && Fires(s, inp.now) then 1 else 0
    ensures RunPump(s.ontime) in Step(s, inp).effects <==>
              ModeAfterButton(s, inp) == RunMode && Fires(s, inp.now)
    ensures Step(s, inp).state.tempus ==
              if ModeAfterButton(s, inp) == RunMode && Fires(s, inp.now) then inp.after else s.tempus
  {
    var b := SampleButton(s, inp.btn);
    var d := Dispatch(b.state, inp);
    CountsOfDraws(b.effects);
    CountsAppend(b.effects, d.effects);
    DispatchCounts(b.state, inp);
    if RunPump(s.ontime) in Step(s, inp).effects {
      CountedIfPresent(Step(s, inp).effects, RunPump(s.ontime));
    }
  }

  /** After a run the pump does not run again until forsink more ms have
      passed since the run ended, and does when they have. */
  lemma NoEarlyRerun(s: State, first: Inputs, second: Inputs)
    requires ModeAfterButton(s, first) == RunMode && Fires(s, first.now)
    ensures Step(s, first).state.tempus == first.after
    ensures second.now < first.after + s.forsink ==> Pumps(Step(Step(s, first).state, second).effects) == 0
    ensures (ModeAfterButton(Step(s, first).state, second) == RunMode && s.forsink >= 0 &&
             second.now >= first.after + s.forsink) ==> Pumps(Step(Step(s, first).state, second).effects) == 1
  {
    PumpRunsIff(s, first);
    PumpRunsIff(Step(s, first).state, second);
  }

  /** The pump runs requested over a run of passes. */
  function PumpsOver(s: State, ins: seq<Inputs>): nat
    decreases |ins|
  {
    if ins == [] then 0 else Pumps(Step(s, ins[0]).effects) + PumpsOver(Step(s, ins[0]).state, ins[1..])
  }

  /** In mode 0, without a press, no pass before forsink ms have elapsed
      since tempus runs the pump, however many there are, and the timer
      keeps its reference point. */
  lemma {:induction false} NoRerunBeforeDelay(s: State, ins: seq<Inputs>)
    requires s.mode == RunMode && Presses(s.lastBtn, ins) == 0
    requires forall k :: 0 <= k < |ins| ==> ins[k].now < s.tempus + s.forsink
    ensures PumpsOver(s, ins) == 0
    ensures Run(s, ins).mode == RunMode && Run(s, ins).tempus == s.tempus
    ensures Run(s, ins).ontime == s.ontime && Run(s, ins).forsink == s.forsink
    decreases |ins|
  {
    if ins != [] {
      PumpRunsIff(s, ins[0]);
      var next := Step(s, ins[0]).state;
      assert !IsPress(s.lastBtn, ins[0].btn);
      assert next.mode == RunMode && next.tempus == s.tempus && next.forsink == s.forsink;
      NoRerunBeforeDelay(next, ins[1..]);
    }
  }

  /* ------------------------------------------------------------------ save */

  /** A write is requested, once, exactly when BtnA is pressed in mode 3; it
      carries the current pair, and the pass changes neither the pair nor
      the mode it runs in. */
  lemma SaveIff(s: State, inp: Inputs)
    ensures Writes(Step(s, inp).effects) == if Saves(s, inp) then 1 else 0
    ensures Saves(s, inp) ==> Persist(s.ontime, s.forsink) in Step(s, inp).effects
    ensures ModeAfterButton(s, inp) == SaveMode ==>
              Step(s, inp).state.mode == SaveMode &&
              Step(s, inp).state.ontime == s.ontime && Step(s, inp).state.forsink == s.forsink
  {
    var b := SampleButton(s, inp.btn);
    var d := Dispatch(b.state, inp);
    CountsOfDraws(b.effects);
    CountsAppend(b.effects, d.effects);
    DispatchCounts(b.state, inp);
  }

  /** What a save in mode 3 writes is what setup() reads after a restart. */
  lemma RestartAfterSave(s: State, inp: Inputs, flash: seq<Byte>, now: nat)
    requires |flash| == Size && Saves(s, inp)
    ensures Boot(SavePair(flash, s.ontime, s.forsink), now).ontime == Wrap32(s.ontime)
    ensures Boot(SavePair(flash, s.ontime, s.forsink), now).forsink == Wrap32(s.forsink)
    ensures IsInt32(s.ontime) && IsInt32(s.forsink) ==>
              Boot(SavePair(flash, s.ontime, s.forsink), now).ontime == Step(s, inp).state.ontime &&
              Boot(SavePair(flash, s.ontime, s.forsink), now).forsink == Step(s, inp).state.forsink
  {
    LoadAfterSave(flash, s.ontime, s.forsink);
    SaveIff(s, inp);
  }

  /* --------------------------------------------------------- remote update */

  /** An accepted remote update survives a restart: setup() reads back the
      parameters the update set, as C ints. */
  lemma RestartAfterRemoteUpdate(s: State, ontime: int, forsink: int, flash: seq<Byte>, now: nat)
    requires |flash| == Size
    ensures var r := RemoteUpdated(s, Some(ontime), Some(forsink));
            Boot(SavePair(flash, ontime, forsink), now).ontime == Wrap32(r.ontime) &&
            Boot(SavePair(flash, ontime, forsink), now).forsink == Wrap32(r.forsink)
    ensures var r := RemoteUpdated(s, Some(ontime), Some(forsink));
            IsInt32(ontime) && IsInt32(forsink) ==>
              Boot(SavePair(flash, ontime, forsink), now).ontime == r.ontime &&
              Boot(SavePair(flash, ontime, forsink), now).forsink == r.forsink
  {
    LoadAfterSave(flash, ontime, forsink);
  }

  /** A remote update in the middle of mode 1 does not recapture the
      baseline: the encoder movement since the baseline lands on top of
      the remotely set on-time. */
  lemma RemoteUpdateDuringOntime(s: State, ontime: int, forsink: int, ins: seq<Inputs>)
    requires s.mode == OntimeMode && !s.newpress && Presses(s.lastBtn, ins) == 0 && |ins| > 0
    ensures Run(RemoteUpdated(s, Some(ontime), Some(forsink)), ins).ontime ==
              ontime + (ins[|ins| - 1].encoder - s.lastValue)
    ensures Run(RemoteUpdated(s, Some(ontime), Some(forsink)), ins).forsink == forsink
  {
    OntimeTelescopes(RemoteUpdated(s, Some(ontime), Some(forsink)), ins);
  }

  /** A remote update in the middle of mode 2 likewise. */
  lemma RemoteUpdateDuringDelay(s: State, ontime: int, forsink: int, ins: seq<Inputs>)
    requires s.mode == DelayMode && !s.newpress && Presses(s.lastBtn, ins) == 0 && |ins| > 0
    ensures Run(RemoteUpdated(s, Some(ontime), Some(forsink)), ins).forsink ==
              forsink + (ins[|ins| - 1].encoder - s.lastValue)
    ensures Run(RemoteUpdated(s, Some(ontime), Some(forsink)), ins).ontime == ontime
  {
    DelayTelescopes(RemoteUpdated(s, Some(ontime), Some(forsink)), ins);
  }

  /* -------------------------------------------------------------- scenario */

  /** On-time 30 ms and delay 1000 ms; two presses reach mode 2; the encoder
      moves +5, +5, -2 from where it was on entry; a third press reaches
      mode 3, where BtnA saves. The delay is then 1008 ms, and so is what a
      restart reads back. */
  lemma TuneDelayThenSave(flash: seq<Byte>)
    requires |flash| == Size
    ensures var s := State(RunMode, false, true, 0, 30, 1000, 0);
            var tune := [Inputs(false, 0, 0, 0, false), Inputs(true, 0, 0, 0, false),
                         Inputs(false, 7, 0, 0, false), Inputs(false, 12, 0, 0, false),
                         Inputs(false, 17, 0, 0, false), Inputs(false, 15, 0, 0, false)];
            var t := Run(s, tune);
            var released := Step(t, Inputs(true, 15, 0, 0, false)).state;
            var save := Inputs(false, 15, 0, 0, true);
            t.mode == DelayMode && t.ontime == 30 && t.forsink == 1008 &&
            !Saves(t, save) && Saves(released, save) &&
            Step(released, save).state.forsink == 1008 &&
            LoadPair(SavePair(flash, released.ontime, released.forsink)) == (30, 1008)
  {
    var s := State(RunMode, false, true, 0, 30, 1000, 0);
    var tune := [Inputs(false, 0, 0, 0, false), Inputs(true, 0, 0, 0, false),
                 Inputs(false, 7, 0, 0, false), Inputs(false, 12, 0, 0, false),
                 Inputs(false, 17, 0, 0, false), Inputs(false, 15, 0, 0, false)];
    var pressed := Step(s, tune[0]).state;
    var entered := Step(pressed, tune[1]).state;
    assert Run(s, tune[..2]) == entered by {
      var two := tune[..2];
      assert two != [] && two[0] == tune[0] && two[1..] == [tune[1]];
      assert Run(s, two) == Run(pressed, [tune[1]]);
      assert [tune[1]][1..] == [];
      assert Run(pressed, [tune[1]]) == Run(entered, []);
    }
    assert Run(s, tune) == Run(entered, tune[2..]) by {
      RunSplit(s, tune, 2);
    }
    assert entered.mode == OntimeMode && entered.lastBtn;
    assert Presses(tune[2].btn, tune[3..]) == 0;
    DelaySession(entered, tune[2..]);
    LoadAfterSave(flash, 30, 1008);
  }

  /** In mode 0 with a 1000 ms delay: 999 ms after the last run nothing
      happens; at 1000 ms the pump runs once and the timer restarts. */
  lemma TimerScenario(ontime: nat)
    ensures var s := State(RunMode, false, true, 0, ontime, 1000, 5000);
            Pumps(Step(s, Inputs(true, 0, 5999, 5999, false)).effects) == 0 &&
            Step(s, Inputs(true, 0, 5999, 5999, false)).state.tempus == 5000 &&
            Pumps(Step(s, Inputs(true, 0, 6000, 6000 + ontime, false)).effects) == 1 &&
            RunPump(ontime) in Step(s, Inputs(true, 0, 6000, 6000 + ontime, false)).effects &&
            Step(s, Inputs(true, 0, 6000, 6000 + ontime, false)).state.tempus == 6000 + ontime
  {
    var s := State(RunMode, false, true, 0, ontime, 1000, 5000);
    PumpRunsIff(s, Inputs(true, 0, 5999, 5999, false));
    PumpRunsIff(s, Inputs(true, 0, 6000, 6000 + ontime, false));
  }

  lemma {:induction false} RunSplit(s: State, ins: seq<Inputs>, k: nat)
    requires k <= |ins|
    ensures Run(s, ins) == Run(Run(s, ins[..k]), ins[k..])
    decreases k
  {
    if k > 0 {
      assert ins[..k][0] == ins[0] && ins[..k][1..] == ins[1..][..k - 1];
      RunSplit(Step(s, ins[0]).state, ins[1..], k - 1);
      assert ins[1..][k - 1..] == ins[k..];
    }
  }
}

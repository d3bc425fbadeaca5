/**
 * The station itself: the measurement tick that samples the BME280, stores
 * the sample, drives the LED and messages the owner; the four chat handlers
 * that check the caller before answering; and the main loop that runs the
 * tick, then sleeps, for as long as no exception escapes a tick.
 *
 * The collaborators become state: the `measurements` table is `store`, the
 * three GPIO output lines are `red`, `green` and `blue`, and every message
 * handed to Telegram is appended to `outbox`.
 */
module Station {
  import opened Readings
  import opened Stats

  /** The exception behind an error report. */
  datatype Cause = SensorError | StorageError | DeliveryError

  /** The messages the bot sends; each text is reduced to the values it reports. */
  datatype Msg =
    | NewMeasurement(temperature: real, humidity: real, pressure: real)
    | TemperatureWarning(temperature: real)
    | ErrorReport(cause: Cause)
    | AccessDenied
    | Menu(buttons: seq<string>)
    | CurrentValues(temperature: real, humidity: real, pressure: real)
    | StatsReport(stats: StatsResult)

  /** A message and the chat it goes to. */
  datatype Envelope = Envelope(to: int, msg: Msg)

  /** The callback data of the inline keyboard's three buttons, in order. */
  const MenuButtons: seq<string> := ["current", "week", "month"]

  /** The inbound updates: the /start command, or a press on an inline button. */
  datatype Inbound = StartCmd(from: int) | Callback(from: int, data: string)

  /**
   * Which later steps of one tick raise: the INSERT and commit, the
   * summary send, the warning send, and the error-report send of the
   * `except` clause. A sensor failure is part of the reading itself.
   */
  datatype Faults = Faults(insertFails: bool, summaryFails: bool, warningFails: bool, reportFails: bool)

  /** What one tick did: the rows it added, the colour it lit, the messages it delivered. */
  datatype TickOutcome = TickOutcome(appended: seq<Record>, led: Option<Colour>, sent: seq<Envelope>, escaped: bool)

  /** Every send of the tick goes to the owner's chat. */
  function ToOwner(m: Msg): Envelope {
    Envelope(UserId, m)
  }

  predicate NoErrorBefore(sent: seq<Envelope>, k: int) {
    forall i :: 0 <= i < |sent| && i < k ==> !sent[i].msg.ErrorReport?
  }

  /**
   * The `except` clause after the given steps took effect: report the error
   * to the owner; if that send raises too, the exception leaves the tick.
   */
  function Abort(appended: seq<Record>, led: Option<Colour>, sent: seq<Envelope>, cause: Cause, f: Faults): TickOutcome
  {
    if f.reportFails then TickOutcome(appended, led, sent, true)
    else TickOutcome(appended, led, sent + [ToOwner(ErrorReport(cause))], false)
  }

  /** Whether some statement inside the tick's `try` raises. */
  predicate StepRaises(reading: SensorRead, f: Faults) {
    reading.SensorFailed? || f.insertFails || f.summaryFails ||
    (OutOfBand(reading.temperature) && f.warningFails)
  }

  /** The effect of `read_and_save` given what the sensor returns, the clock and the faults. */
  function TickEffect(reading: SensorRead, now: int, f: Faults): (o: TickOutcome)
    ensures |o.appended| <= 1
    ensures o.appended != [] <==> reading.Sample? && !f.insertFails
    ensures o.appended != [] ==>
      o.appended[0] == Record(now, reading.temperature, reading.humidity, reading.pressure)
    ensures o.led.Some? <==> o.appended != []
    ensures o.led.Some? ==> o.led.value == Classify(reading.temperature)
    ensures o.escaped <==> f.reportFails && StepRaises(reading, f)
    ensures (o.sent != [] && o.sent[|o.sent| - 1].msg.ErrorReport?) <==>
            !f.reportFails && StepRaises(reading, f)
    ensures |o.sent| <= 2
    ensures forall e :: e in o.sent ==> e.to == UserId
    ensures NoErrorBefore(o.sent, |o.sent| - 1)
  {
    match reading
    case SensorFailed => Abort([], None, [], SensorError, f)
    case Sample(t, h, p) =>
      if f.insertFails then Abort([], None, [], StorageError, f)
      else
        var rec, led := Record(now, t, h, p), Some(Classify(t));
        if f.summaryFails then Abort([rec], led, [], DeliveryError, f)
        else if !OutOfBand(t) then TickOutcome([rec], led, [ToOwner(NewMeasurement(t, h, p))], false)
        else if f.warningFails then Abort([rec], led, [ToOwner(NewMeasurement(t, h, p))], DeliveryError, f)
        else TickOutcome([rec], led, [ToOwner(NewMeasurement(t, h, p)), ToOwner(TemperatureWarning(t))], false)
  }

  /** Whether handling the update samples the sensor: only an authorised "current" press. */
  predicate ReadsSensor(cmd: Inbound) {
    cmd == Callback(UserId, "current")
  }

  /**
   * The answer to an inbound update; a press whose data no handler filters
   * for gets none. `sensor` is what the sensor would return if it is read.
   */
  function Reply(cmd: Inbound, sensor: SensorRead, store: seq<Record>, now: int): (out: seq<Envelope>)
    ensures |out| <= 1
    ensures forall e :: e in out ==> e.to == cmd.from
    ensures out == [] <==> cmd.Callback? && cmd.data !in MenuButtons
    ensures cmd.from != UserId ==> out == [] || out == [Envelope(cmd.from, AccessDenied)]
    ensures cmd.from == UserId ==> forall e :: e in out ==> e.msg != AccessDenied
  {
    var from := cmd.from;
    match cmd
    case StartCmd(_) =>
      if from != UserId then [Envelope(from, AccessDenied)]
      else [Envelope(from, Menu(MenuButtons))]
    case Callback(_, data) =>
      if data == "current" then
        if from != UserId then [Envelope(from, AccessDenied)]
        else
          match sensor
          case Sample(t, h, p) => [Envelope(from, CurrentValues(t, h, p))]
          case SensorFailed => [Envelope(from, ErrorReport(SensorError))]
      else if data == "week" then
        if from != UserId then [Envelope(from, AccessDenied)]
        else [Envelope(from, StatsReport(GetStats(store, now, WeekDays)))]
      else if data == "month" then
        if from != UserId then [Envelope(from, AccessDenied)]
        else [Envelope(from, StatsReport(GetStats(store, now, MonthDays)))]
      else []
  }

  /**
   * One pass of the main loop: the sensor's answer, the faults, the seconds
   * from the start of the pass to the tick's timestamp (`before`), and the
   * seconds from the timestamp to the end of the tick (`after`).
   */
  datatype TickInput = TickInput(reading: SensorRead, faults: Faults, before: nat, after: nat)

  /**
   * What the main loop has to show after some passes: the time the next
   * pass starts, the table, the LED lines, the messages sent, whether an
   * exception escaped a tick (which ends `main`), and how many passes ran.
   */
  datatype RunState = RunState(clock: int, store: seq<Record>, pins: Led,
                               outbox: seq<Envelope>, escaped: bool, passes: nat)

  /**
   * One pass: the tick takes its timestamp `before` seconds in, then the
   * loop sleeps the interval. A pass whose tick lets an exception escape
   * does not reach the sleep, so its clock means nothing: `main` is over,
   * and nothing more happens.
   */
  function Advance(st: RunState, input: TickInput): RunState
  {
    if st.escaped then st
    else
      var stamp := st.clock + input.before;
      var o := TickEffect(input.reading, stamp, input.faults);
      RunState(stamp + input.after + MeasurementInterval,
               st.store + o.appended,
               if o.led.Some? then Shows(o.led.value) else st.pins,
               st.outbox + o.sent,
               o.escaped,
               st.passes + 1)
  }

  /** The passes of `inputs` run one after another from `init`. */
  function Ticks(init: RunState, inputs: seq<TickInput>): RunState
  {
    if inputs == [] then init
    else Advance(Ticks(init, inputs[..|inputs| - 1]), inputs[|inputs| - 1])
  }

  /** One more pass extends the run by that pass. */
  lemma TicksStep(init: RunState, inputs: seq<TickInput>, n: nat)
    requires n < |inputs|
    ensures Ticks(init, inputs[..n + 1]) == Advance(Ticks(init, inputs[..n]), inputs[n])
  {
    assert inputs[..n + 1][..n] == inputs[..n];
  }

  /** After an exception has escaped, the inputs left over change nothing. */
  lemma {:induction false} TicksStop(init: RunState, inputs: seq<TickInput>, n: nat)
    requires n <= |inputs| && Ticks(init, inputs[..n]).escaped
    ensures Ticks(init, inputs) == Ticks(init, inputs[..n])
  {
    if n == |inputs| {
      assert inputs[..n] == inputs;
    } else {
      var init' := inputs[..|inputs| - 1];
      assert init'[..n] == inputs[..n];
      TicksStop(init, init', n);
    }
  }

  /** Every input is one pass until an exception escapes, and none after. */
  lemma {:induction false} TicksPasses(init: RunState, inputs: seq<TickInput>)
    requires !init.escaped
    ensures var s := Ticks(init, inputs);
      init.passes <= s.passes <= init.passes + |inputs| &&
      (!s.escaped ==> s.passes == init.passes + |inputs|) &&
      (s.escaped ==> 0 < s.passes - init.passes &&
                     Ticks(init, inputs[..s.passes - init.passes]).escaped &&
                     !Ticks(init, inputs[..s.passes - init.passes - 1]).escaped)
  {
    if inputs != [] {
      var prev := inputs[..|inputs| - 1];
      TicksPasses(init, prev);
      var p := Ticks(init, prev);
      if p.escaped {
        var m := p.passes - init.passes;
        assert prev[..m] == inputs[..m] && prev[..m - 1] == inputs[..m - 1];
      } else {
        assert inputs[..|inputs|] == inputs;
      }
    }
  }

  /**
   * Whatever the sensor and the faults do, the passes keep the rows and
   * messages there were, add at most one row each, and send only to the
   * owner.
   */
  lemma {:induction false} TicksKeep(init: RunState, inputs: seq<TickInput>)
    ensures var s := Ticks(init, inputs);
      |init.store| <= |s.store| <= |init.store| + |inputs| &&
      s.store[..|init.store|] == init.store &&
      |init.outbox| <= |s.outbox| &&
      s.outbox[..|init.outbox|] == init.outbox &&
      (forall i :: |init.outbox| <= i < |s.outbox| ==> s.outbox[i].to == UserId)
  {
    if inputs != [] {
      var prev := Ticks(init, inputs[..|inputs| - 1]);
      TicksKeep(init, inputs[..|inputs| - 1]);
      var s := Advance(prev, inputs[|inputs| - 1]);
      assert s.store[..|prev.store|] == prev.store;
      assert s.store[..|init.store|] == prev.store[..|init.store|];
      assert s.outbox[..|prev.outbox|] == prev.outbox;
      assert s.outbox[..|init.outbox|] == prev.outbox[..|init.outbox|];
    }
  }

  /**
   * On the model's clock, which never steps back, the rows the passes add
   * carry timestamps no earlier than the start of the first pass, at least
   * the interval apart, and at least the interval before the next pass
   * starts.
   */
  lemma {:induction false} TicksSpaced(init: RunState, inputs: seq<TickInput>)
    ensures var s := Ticks(init, inputs);
      init.clock <= s.clock &&
      (forall i :: |init.store| <= i < |s.store| ==>
        init.clock <= s.store[i].ts && s.store[i].ts + MeasurementInterval <= s.clock) &&
      (forall i, j :: |init.store| <= i < j < |s.store| ==>
        s.store[i].ts + MeasurementInterval <= s.store[j].ts)
  {
    if inputs != [] {
      var prev := Ticks(init, inputs[..|inputs| - 1]);
      TicksKeep(init, inputs[..|inputs| - 1]);
      TicksSpaced(init, inputs[..|inputs| - 1]);
    }
  }
  class Station {
    var store: seq<Record>
    var red: bool
    var green: bool
    var blue: bool
    var outbox: seq<Envelope>
    /** How many times the BME280 has been sampled. */
    ghost var samples: nat

    function Pins(): Led
      reads this
    {
      Led(red, green, blue)
    }

    /**
     * Start-up: the table as found on disk, the LED lines at whatever level
     * they had (setting a pin up as an output does not drive it), nothing sent.
     */
    constructor (existing: seq<Record>, initial: Led)
      ensures store == existing && Pins() == initial && outbox == [] && samples == 0
    {
      store := existing;
      red, green, blue := initial.red, initial.green, initial.blue;
      outbox := [];
      samples := 0;
    }

    /** `update_led`: all three lines low, then the one for the temperature high. */
    method UpdateLed(t: real)
      modifies this`red, this`green, this`blue
      ensures Pins() == Shows(Classify(t))
      ensures ExactlyOneLit(Pins())
      ensures blue == (t < ColdBelow) && red == (t > HotAbove) && green == (ColdBelow <= t <= HotAbove)
    {
      red := false;
      green := false;
      blue := false;
      if t < ColdBelow {
        blue := true;
      } else if t > HotAbove {
        red := true;
      } else {
        green := true;
      }
    }

    /** `bot.send_message`: the message is delivered unless the send raises. */
    method Send(to: int, m: Msg, fails: bool) returns (delivered: bool)
      modifies this`outbox
      ensures delivered == !fails
      ensures outbox == old(outbox) + (if fails then [] else [Envelope(to, m)])
    {
      delivered := !fails;
      if delivered {
        outbox := outbox + [Envelope(to, m)];
      }
    }

    /** The tick's `except` clause; true when its own send raises and the exception escapes. */
    method ReportError(cause: Cause, fails: bool) returns (escaped: bool)
      modifies this`outbox
      ensures escaped == fails
      ensures outbox == old(outbox) + (if fails then [] else [ToOwner(ErrorReport(cause))])
    {
      var delivered := Send(UserId, ErrorReport(cause), fails);
      escaped := !delivered;
    }

    /** `read_and_save`: one measurement tick, taking its timestamp at `now`. */
    method ReadAndSave(reading: SensorRead, now: int, f: Faults) returns (escaped: bool)
      modifies this`store, this`red, this`green, this`blue, this`outbox, this`samples
      ensures var o := TickEffect(reading, now, f);
        store == old(store) + o.appended &&
        Pins() == (if o.led.Some? then Shows(o.led.value) else old(Pins())) &&
        outbox == old(outbox) + o.sent &&
        escaped == o.escaped
      ensures samples == old(samples) + 1
    {
      samples := samples + 1;
      if reading.SensorFailed? {
        escaped := ReportError(SensorError, f.reportFails);
        return;
      }
      var t, h, p := reading.temperature, reading.humidity, reading.pressure;
      if f.insertFails {
        escaped := ReportError(StorageError, f.reportFails);
        return;
      }
      var rec := Record(now, t, h, p);
      store := store + [rec];
      UpdateLed(t);
      var delivered := Send(UserId, NewMeasurement(t, h, p), f.summaryFails);
      if !delivered {
        escaped := ReportError(DeliveryError, f.reportFails);
        assert TickEffect(reading, now, f) == Abort([rec], Some(Classify(t)), [], DeliveryError, f);
        return;
      }
      if t < ColdBelow || t > HotAbove {
        delivered := Send(UserId, TemperatureWarning(t), f.warningFails);
        if !delivered {
          escaped := ReportError(DeliveryError, f.reportFails);
          assert TickEffect(reading, now, f) ==
                 Abort([rec], Some(Classify(t)), [ToOwner(NewMeasurement(t, h, p))], DeliveryError, f);
          return;
        }
      }
      escaped := false;
    }

    /** The four handlers: check the caller first, then answer; none of them writes the store. */
    method Handle(cmd: Inbound, sensor: SensorRead, now: int)
      modifies this`outbox, this`samples
      ensures outbox == old(outbox) + Reply(cmd, sensor, store, now)
      ensures samples == old(samples) + (if ReadsSensor(cmd) then 1 else 0)
    {
      var delivered;
      match cmd
      case StartCmd(from) =>
        if from != UserId {
          delivered := Send(from, AccessDenied, false);
          return;
        }
        delivered := Send(from, Menu(MenuButtons), false);
      case Callback(from, data) =>
        if data == "current" {
          if from != UserId {
            delivered := Send(from, AccessDenied, false);
            return;
          }
          samples := samples + 1;
          match sensor
          case Sample(t, h, p) =>
            delivered := Send(from, CurrentValues(t, h, p), false);
          case SensorFailed =>
            delivered := Send(from, ErrorReport(SensorError), false);
        } else if data == "week" {
          if from != UserId {
            delivered := Send(from, AccessDenied, false);
            return;
          }
          delivered := Send(from, StatsReport(GetStats(store, now, WeekDays)), false);
        } else if data == "month" {
          if from != UserId {
            delivered := Send(from, AccessDenied, false);
            return;
          }
          delivered := Send(from, StatsReport(GetStats(store, now, MonthDays)), false);
        }
    }

    /** The state the main loop starts from, its first pass beginning at `clock`. */
    function Snapshot(clock: int): RunState
      reads this
    {
      RunState(clock, store, Pins(), outbox, false, 0)
    }

    /** One pass of `main`'s loop starting at `clock`: a tick, then the sleep. */
    method Pass(input: TickInput, clock: int, ghost st: RunState) returns (escaped: bool, next: int)
      requires !st.escaped
      requires clock == st.clock && store == st.store && Pins() == st.pins && outbox == st.outbox
      modifies this`store, this`red, this`green, this`blue, this`outbox, this`samples
      ensures var s := Advance(st, input);
        next == s.clock && store == s.store && Pins() == s.pins && outbox == s.outbox &&
        escaped == s.escaped
      ensures samples == old(samples) + 1
    {
      var stamp := clock + input.before;
      escaped := ReadAndSave(input.reading, stamp, input.faults);
      next := stamp + input.after + MeasurementInterval;
    }

    /**
     * `main`'s measurement loop over a finite run of inputs: pass after
     * pass until the inputs are used up or an exception escapes a tick.
     */
    method Run(start: int, inputs: seq<TickInput>) returns (ran: nat, crashed: bool)
      modifies this`store, this`red, this`green, this`blue, this`outbox, this`samples
      ensures var s := Ticks(old(Snapshot(start)), inputs);
        store == s.store && Pins() == s.pins && outbox == s.outbox &&
        crashed == s.escaped && ran == s.passes
      ensures samples == old(samples) + ran
      ensures |old(store)| <= |store| && store[..|old(store)|] == old(store)
      ensures forall i :: |old(store)| <= i < |store| ==> start <= store[i].ts
      ensures forall i, j :: |old(store)| <= i < j < |store| ==>
        store[i].ts + MeasurementInterval <= store[j].ts
      ensures |old(outbox)| <= |outbox| && outbox[..|old(outbox)|] == old(outbox)
      ensures forall i :: |old(outbox)| <= i < |outbox| ==> outbox[i].to == UserId
    {
      ghost var init := Snapshot(start);
      ghost var st := init;
      var clock := start;
      ran, crashed := 0, false;
      while ran < |inputs| && !crashed
        invariant ran <= |inputs|
        invariant st == Ticks(init, inputs[..ran])
        invariant clock == st.clock && store == st.store && Pins() == st.pins && outbox == st.outbox
        invariant crashed == st.escaped && ran == st.passes
        invariant samples == old(samples) + ran
      {
        crashed, clock := Pass(inputs[ran], clock, st);
        TicksStep(init, inputs, ran);
        st := Advance(st, inputs[ran]);
        ran := ran + 1;
      }
      if crashed {
        TicksStop(init, inputs, ran);
      } else {
        assert inputs[..ran] == inputs;
      }
      TicksKeep(init, inputs);
      TicksSpaced(init, inputs);
    }
  }

  /**
   * A tick whose read, insert and summary succeed stores exactly the sample,
   * lights its colour and sends the summary first; a warning follows iff the
   * temperature is out of band, that is iff the LED is not green.
   */
  lemma GoodTick(t: real, h: real, p: real, now: int, f: Faults)
    requires !f.insertFails && !f.summaryFails && (OutOfBand(t) ==> !f.warningFails)
    ensures var o := TickEffect(Sample(t, h, p), now, f);
      o.appended == [Record(now, t, h, p)] &&
      o.led == Some(Classify(t)) &&
      o.sent[0] == ToOwner(NewMeasurement(t, h, p)) &&
      |o.sent| == (if OutOfBand(t) then 2 else 1) &&
      (|o.sent| == 2 <==> Classify(t) != Green) &&
      (|o.sent| == 2 ==> o.sent[1] == ToOwner(TemperatureWarning(t))) &&
      !o.escaped
  {
  }

  /** A failed sensor read stores nothing, leaves the LED alone and sends one error report. */
  lemma SensorFailureTick(now: int, f: Faults)
    ensures var o := TickEffect(SensorFailed, now, f);
      o.appended == [] && o.led == None &&
      o.sent == (if f.reportFails then [] else [ToOwner(ErrorReport(SensorError))])
  {
  }

  /** A failed INSERT or commit stores nothing, leaves the LED alone and sends one error report. */
  lemma InsertFailureTick(reading: SensorRead, now: int, f: Faults)
    requires reading.Sample? && f.insertFails
    ensures var o := TickEffect(reading, now, f);
      o.appended == [] && o.led == None &&
      o.sent == (if f.reportFails then [] else [ToOwner(ErrorReport(StorageError))])
  {
  }

  /**
   * A send that raises after the insert does not undo it: the row stays
   * stored and the LED lit, and the error report is the last message.
   */
  lemma LateFailureKeepsWrites(t: real, h: real, p: real, now: int, f: Faults)
    requires !f.insertFails && (f.summaryFails || (OutOfBand(t) && f.warningFails))
    requires !f.reportFails
    ensures var o := TickEffect(Sample(t, h, p), now, f);
      o.appended == [Record(now, t, h, p)] &&
      o.led == Some(Classify(t)) &&
      o.sent[|o.sent| - 1] == ToOwner(ErrorReport(DeliveryError)) &&
      (ToOwner(NewMeasurement(t, h, p)) in o.sent <==> !f.summaryFails) &&
      ToOwner(TemperatureWarning(t)) !in o.sent
  {
  }

  /** An unauthorised caller gets the same answer whatever the sensor, the store and the clock. */
  lemma DeniedLeaksNothing(cmd: Inbound, s1: SensorRead, s2: SensorRead,
                           st1: seq<Record>, st2: seq<Record>, n1: int, n2: int)
    requires cmd.from != UserId
    ensures Reply(cmd, s1, st1, n1) == Reply(cmd, s2, st2, n2)
    ensures !ReadsSensor(cmd)
  {
  }

  /** Each menu button an authorised user presses gets the answer its handler computes. */
  lemma AuthorisedAnswers(sensor: SensorRead, store: seq<Record>, now: int)
    ensures Reply(StartCmd(UserId), sensor, store, now) == [Envelope(UserId, Menu(MenuButtons))]
    ensures Reply(Callback(UserId, MenuButtons[0]), sensor, store, now) ==
      [Envelope(UserId, if sensor.Sample?
                        then CurrentValues(sensor.temperature, sensor.humidity, sensor.pressure)
                        else ErrorReport(SensorError))]
    ensures Reply(Callback(UserId, MenuButtons[1]), sensor, store, now) ==
      [Envelope(UserId, StatsReport(GetStats(store, now, 7)))]
    ensures Reply(Callback(UserId, MenuButtons[2]), sensor, store, now) ==
      [Envelope(UserId, StatsReport(GetStats(store, now, 30)))]
  {
  }

  /**
   * Right after a tick that stored its row, a statistics query over a
   * window that covers the tick's time selects that row, with all four
   * fields as read, so it does not answer "no data".
   */
  lemma {:induction false} StoredTickIsQueried(store: seq<Record>, t: real, h: real, p: real,
                                               now: int, f: Faults, queryAt: int, days: int)
    requires !f.insertFails
    requires queryAt - days * DaySeconds <= now <= queryAt
    ensures var after := store + TickEffect(Sample(t, h, p), now, f).appended;
      var w := Window(after, queryAt - days * DaySeconds, queryAt);
      w != [] && w[|w| - 1] == Record(now, t, h, p) &&
      GetStats(after, queryAt, days).Summary?
  {
    var rec := Record(now, t, h, p);
    var start := queryAt - days * DaySeconds;
    assert TickEffect(Sample(t, h, p), now, f).appended == [rec];
    var after := store + [rec];
    AppendThenQuery(store, rec, start, queryAt);
    assert InWindow(rec, start, queryAt) && rec in after;
    assert !GetStats(after, queryAt, days).NoData?;
  }
}

/**
 * The values the station works with: its configuration, one stored
 * measurement, the outcome of asking the BME280 for a sample, and the
 * mapping from a temperature to the colour of the three-pin LED.
 */
module Readings {

  /** The single Telegram user that may issue commands and receives alerts. */
  const UserId: int := 154966995

  /** Seconds slept between two measurement ticks. */
  const MeasurementInterval: nat := 1200

  /** Below this temperature (strictly) the plants are too cold. */
  const ColdBelow: real := 22.0

  /** Above this temperature (strictly) the plants are too hot. */
  const HotAbove: real := 30.0

  /** Length of `timedelta(days=1)` in seconds; timestamps are whole seconds. */
  const DaySeconds: nat := 86400

  /** Window lengths, in days, of the two statistics commands. */
  const WeekDays: int := 7
  const MonthDays: int := 30

  datatype Option<T> = None | Some(value: T)

  /** One row of the `measurements` table: (timestamp, temperature, humidity, pressure). */
  datatype Record = Record(ts: int, temperature: real, humidity: real, pressure: real)

  /** What reading temperature, humidity and pressure from the sensor gave. */
  datatype SensorRead =
    | Sample(temperature: real, humidity: real, pressure: real)
    | SensorFailed

  /** The LED line that is driven high for a temperature. */
  datatype Colour = Blue | Green | Red

  /** The three LED output pins, true meaning GPIO.HIGH. */
  datatype Led = Led(red: bool, green: bool, blue: bool)

  predicate ExactlyOneLit(l: Led) {
    (l.red && !l.green && !l.blue) ||
    (!l.red && l.green && !l.blue) ||
    (!l.red && !l.green && l.blue)
  }

  /** The colour `update_led` selects: blue first, then red, otherwise green. */
  function Classify(t: real): (c: Colour)
    ensures c == Blue <==> t < ColdBelow
    ensures c == Red <==> t > HotAbove
    ensures c == Green <==> ColdBelow <= t <= HotAbove
  {
    if t < ColdBelow then Blue
    else if t > HotAbove then Red
    else Green
  }

  /** The pin pattern that shows a colour: its own line high, the two others low. */
  function Shows(c: Colour): (l: Led)
    ensures ExactlyOneLit(l)
    ensures l.blue <==> c == Blue
    ensures l.red <==> c == Red
    ensures l.green <==> c == Green
  {
    match c
    case Blue => Led(false, false, true)
    case Green => Led(false, true, false)
    case Red => Led(true, false, false)
  }

  /** The alert test of the measurement tick, written with its own comparisons. */
  function OutOfBand(t: real): (b: bool)
    ensures b <==> Classify(t) != Green
  {
    t < ColdBelow || t > HotAbove
  }

  /** The pins after `update_led(t)`, whatever they were before. */
  lemma LedForTemperature(t: real)
    ensures ExactlyOneLit(Shows(Classify(t)))
    ensures Shows(Classify(t)).blue <==> t < ColdBelow
    ensures Shows(Classify(t)).red <==> t > HotAbove
    ensures Shows(Classify(t)).green <==> ColdBelow <= t <= HotAbove
    ensures Shows(Classify(t)).green <==> !OutOfBand(t)
  {
  }

  /** Both band edges, 22 and 30 exactly, light the green line and raise no alert. */
  lemma EdgesAreGreen()
    ensures Classify(ColdBelow) == Green && !OutOfBand(ColdBelow)
    ensures Classify(HotAbove) == Green && !OutOfBand(HotAbove)
  {
  }
}

# Greenhouse station model

A Dafny model of `ps3.py`, a Raspberry Pi script that watches plants'
climate. In each pass of its main loop it reads temperature, humidity and
pressure from a BME280, appends the sample to the SQLite table
`measurements`, lights one of three LED lines (blue when cold, green when
fine, red when hot) and messages its owner on Telegram, with an extra
warning when the temperature is outside 22–30 °C; then it sleeps 1200
seconds, so passes start 1200 seconds plus the tick's own duration apart. The owner can also ask the bot, through an inline
menu, for the current values or for minimum, maximum and mean over the
last 7 or 30 days; every other Telegram user is told "access denied".

The model has three modules:

- `Readings` (`readings.dfy`): configuration constants (`USER_ID`,
  `MEASUREMENT_INTERVAL`, the 22/30 thresholds), the stored `Record`, the
  sensor's answer `SensorRead`, and the pure temperature-to-colour mapping
  behind `update_led` and the alert test.
- `Stats` (`stats.dfy`): `get_stats` as functions over the store: the
  inclusive `BETWEEN` window, Python's left-fold `min`, `max` and `sum`,
  and the "no data" result.
- `Station` (`station.dfy`): the class `Station` whose fields are the
  table (`store: seq<Record>`), the three GPIO lines and the Telegram
  outbox (`outbox: seq<Envelope>`). `UpdateLed`, `ReadAndSave` (one tick),
  `Handle` (the four chat handlers), `Pass` (a tick and the sleep) and `Run`
  (the main loop) change them step by step. Each method is proved against
  a pure specification function (`Shows(Classify(t))`, `TickEffect`,
  `Reply`, `Advance`, `Ticks`), and the lemmas are stated about those
  functions.

Failures are inputs. The sensor's answer is `Sample(t, h, p)` or
`SensorFailed`. A `Faults` value says which later step of a tick raises:
the INSERT/commit, the summary send, the warning send, or the error
report's own send in the `except` clause.

Three behaviours of `ps3.py` are easy to miss, and the model keeps them:

- The `except` clause of `read_and_save` sends its error report with
  `await bot.send_message` (ps3.py:86-88), and nothing catches an
  exception raised by that send. Such an exception leaves
  `read_and_save`, leaves `main`'s `while True` (ps3.py:172-174), passes
  the top-level `try` around `asyncio.run(main())`, which catches only
  `KeyboardInterrupt` (ps3.py:179-185), and ends the process.
  `TickEffect.escaped`, `Advance` (which does nothing once an exception
  has escaped) and `Run`'s `crashed` result model this.
- A storage failure does not get a path of its own. It takes the same
  `except` path as every other failure and produces one error report.
- A callback whose data is not `current`, `week` or `month` has no handler
  in the dispatcher. It gets no reply at all, not even "access denied".

## Model

| member | source | states |
|---|---|---|
| `Readings.Classify` | ps3.py:57-62 | the colour is blue iff t < 22, red iff t > 30, green iff 22 ≤ t ≤ 30 (both edges green) |
| `Readings.Shows` | ps3.py:54-62 | the pin pattern for a colour has exactly one line high, and it is that colour's line |
| `Readings.OutOfBand` | ps3.py:82 | the alert test `t < 22 or t > 30` holds iff the LED colour is not green |
| `Readings.LedForTemperature` | ps3.py:53-62 | after `update_led(t)` exactly one line is high: blue iff t < 22, red iff t > 30, green iff no alert is due |
| `Readings.EdgesAreGreen` | ps3.py:57-62 | 22 and 30 exactly light green and raise no alert |
| `Stats.Window` | ps3.py:94-97 | the query returns at most the stored rows, and a row is returned iff it is stored and now − days ≤ ts ≤ now |
| `Stats.WindowCounts` | ps3.py:96-97 | the query returns each in-window row as many times as it is stored, and no out-of-window row |
| `Stats.AppendThenQuery` | ps3.py:73-97 | right after an append, a query whose range covers the new row's timestamp selects what it selected before plus that row, unchanged; a query whose range does not cover it selects the same rows as before |
| `Stats.Column` | ps3.py:102-104 | a column has one value per row, in row order, and each value is that row's field |
| `Stats.Min` | ps3.py:107-109 | `min` of a non-empty column is one of its elements and is ≤ every element |
| `Stats.Max` | ps3.py:107-109 | `max` of a non-empty column is one of its elements and is ≥ every element |
| `Stats.SumBounds` | ps3.py:107-109 | if every element lies in [lo, hi], then n·lo ≤ `sum` ≤ n·hi |
| `Stats.MeanBetween` | ps3.py:107-109 | for a non-empty column, min ≤ `sum / len` ≤ max |
| `Stats.Aggregate` | ps3.py:107-109 | a column's summary holds an element that is ≤ all others, one that is ≥ all others, and their `sum / len`, which lies between them |
| `Stats.GetStats` | ps3.py:93-111 | the result is "no data" iff no stored row lies in [now − days, now]; otherwise each of the three column summaries is correct for exactly the rows in that window |
| `Stats.NoDataWhenWindowEmpty` | ps3.py:99-100 | an empty selection gives "no data" (no mean is computed, so there is no division by zero) |
| `Stats.ThreeReadingScenario` | ps3.py:93-111 | with rows 2, 5 and 10 days old at 20, 25 and 32 °C, the week gives min 20, max 25, mean 22.5; the month gives min 20, max 32, mean 77/3 |
| `Station.TickEffect` | ps3.py:66-88 | a tick stores at most one row, and does so iff the read and the insert succeed; that row is (now, t, h, p); the LED changes iff the row was stored, and then to `Classify(t)`; at most 2 messages are sent, all to the owner, and an error report can only be the last; an exception escapes iff some step of the `try` raises (failed read, failed insert, failed summary, or failed warning when t is out of band) and the report's own send raises; the last message is an error report iff some step raised and that send succeeded |
| `Station.GoodTick` | ps3.py:68-84 | a tick whose read, insert and sends succeed stores the sample, lights its colour, sends the summary first, then a warning iff t is out of band (iff the LED is not green): 2 messages out of band, 1 in band |
| `Station.InsertFailureTick` | ps3.py:73-88 | a failed INSERT (or, in the model, a failed commit) stores nothing, leaves the LED as it was, and sends exactly one error report, about storage (none if that send raises) |
| `Station.SensorFailureTick` | ps3.py:66-88 | a failed sensor read stores nothing, leaves the LED as it was, and sends exactly one error report (none if that send raises) |
| `Station.LateFailureKeepsWrites` | ps3.py:73-88 | a send that raises after the insert does not undo the stored row or the LED; the error report comes last; the summary is present iff its own send succeeded; no warning is present |
| `Station.StoredTickIsQueried` | ps3.py:71-97 | right after a tick that stored its row, a statistics query whose window covers the tick's time selects that row with all four fields as read, so it does not answer "no data" |
| `Station.Reply` | ps3.py:126-163 | every update gets at most one answer, and it goes to the caller. No answer is sent exactly when the callback data names no handler. A caller other than `USER_ID` gets nothing but "access denied". The owner never gets "access denied" |
| `Station.DeniedLeaksNothing` | ps3.py:128-160 | an unauthorised caller's answer does not depend on the sensor, the store or the clock, and the sensor is not read |
| `Station.AuthorisedAnswers` | ps3.py:119-163 | for the owner: /start gives the menu; `current` gives the sensor's values, or an error report if the read fails; `week` gives `get_stats(7)`; `month` gives `get_stats(30)` |
| `Station.Station.constructor` | ps3.py:28-49 | start-up: the table as found, nothing sent; the LED lines keep the level they had, because `GPIO.setup(pin, GPIO.OUT)` is called without `initial=` and drives no level |
| `Station.Station.UpdateLed` | ps3.py:53-62 | the pins end as `Shows(Classify(t))`, whatever they were before, so a second call with the same t changes nothing; exactly one line is high |
| `Station.Station.Send` | ps3.py:79 | a send that does not raise appends exactly its message to the outbox; a send that raises appends nothing |
| `Station.Station.ReportError` | ps3.py:86-88 | the error report goes to the owner, and the exception escapes iff that send raises |
| `Station.Station.ReadAndSave` | ps3.py:66-88 | the tick's new table is the old one plus `TickEffect`'s row. The LED becomes that row's colour, or stays as it was. The outbox gains `TickEffect`'s messages, addressed to the owner. The sensor is sampled once |
| `Station.Station.Handle` | ps3.py:126-163 | the outbox gains exactly `Reply`'s answer. The table and the LED are outside the method's frame, so no handler writes them. The sensor is sampled only for the owner's `current` |
| `Station.TicksStop` | ps3.py:172-174 | once an exception has escaped a tick, the remaining passes change nothing: `main` has ended |
| `Station.TicksPasses` | ps3.py:172-174 | every input is one pass until an exception escapes; if one does, it escaped in the last pass that ran and in no earlier pass; otherwise every input ran |
| `Station.TicksKeep` | ps3.py:172-174 | the passes keep the rows and messages there were, add at most one row per input, and send only to the owner |
| `Station.TicksSpaced` | ps3.py:172-174 | rows added by the passes have timestamps no earlier than the first pass's start and at least `MEASUREMENT_INTERVAL` apart on the model's clock, which never steps back and advances by at least the sleep in each pass |
| `Station.Station.Pass` | ps3.py:172-174 | one pass: the table, the LED lines, the outbox and the next pass's start become exactly `Advance`'s, and the exception escapes iff `Advance` says so |
| `Station.Station.Run` | ps3.py:167-174 | the loop's final table, LED lines and outbox are exactly `Ticks` over all inputs, it reports an escaped exception iff one escaped, and it runs exactly `Ticks`'s number of passes; old rows and messages are kept, on the model's clock, new timestamps are ≥ the start and at least `MEASUREMENT_INTERVAL` apart; every new message goes to the owner |

## Left out

- The aiogram `Bot`/`Dispatcher`, the inline keyboard markup, `start_polling` and the detached polling task (ps3.py:115-123, 169) are network transport and concurrency. Each tick and each handler call is modelled as one atomic step on the station's state. The real tick yields at each `await`, so a handler can run between the insert and the summary. The model does not capture that interleaving.
- GPIO setup, the `smbus2`/BME280 driver and the SQLite connection, table creation and commit (ps3.py:27-49) are hardware and foreign libraries. The sensor is an input value, the LED is three booleans, and the table is a sequence of records. An insert that raises is taken to leave the table unchanged, and so is a `conn.commit()` that raises after a successful INSERT (ps3.py:73-74). The model treats the commit like a failed INSERT. In SQLite a failed commit (SQLITE_BUSY, for example) can leave the transaction open: `get_stats` then still sees the row through the same cursor, and the next tick's commit saves it. The model does not capture that.
- `datetime.now()`, `isoformat()`, and `BETWEEN` comparing ISO strings lexicographically are not modelled. Timestamps are whole seconds compared as integers, and `timedelta(days=n)` is n·86400 seconds.
- The clock is taken never to step back, because `TickInput.before` and `TickInput.after` are `nat`. `datetime.now()` (ps3.py:71) is naive local wall-clock time and can step back after an NTP correction or a DST change. So `Station.TicksSpaced` and the spacing ensures of `Station.Station.Run` hold only for the model's clock: the program itself does not guarantee that stored rows are 1200 s apart, or even in order.
- Message texts are reduced to datatype values. The f-string formatting, the rounding to two decimals and the Russian wording are not modelled. So is the exception text inside an error report, which becomes its cause (sensor, storage, delivery).
- SQLite returns the rows of a `SELECT` without `ORDER BY` (ps3.py:94-97) in an order it does not promise. `Stats.Window` lists them in insertion order. `min`, `max` and the exact real `sum` give the same result in any order.
- Readings are `real`, not IEEE floats. Rounding in `sum` and in the division is not modelled.
- `Station.Station.Handle`: a handler's answer is always delivered. An exception from `message.answer`/`callback.answer` is not modelled, and neither is `current` catching one at line 143 and answering with an error instead. A failing `SELECT` in `get_stats` is not modelled either.
- The popup of `callback.answer` and a chat message are both modelled as a message to the caller.
- `logging`, `asyncio.sleep`, the unbounded `while True`, and the shutdown cleanup (ps3.py:172-185) are not modelled. `Station.Station.Run` runs a finite sequence of ticks. Each tick's timing comes from its input, and the sleep adds `MEASUREMENT_INTERVAL` seconds.
- A failure of `GPIO.output` inside `update_led` is not modelled; the LED lines are taken never to fail.

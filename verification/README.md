# TEMField test sequencer and GTEM switch driver, in Dafny

TEMField runs electromagnetic susceptibility tests in a GTEM cell. This
project models two parts of it:

- **The test-run sequencer of the main window** (`test_run.dfy`, module
  `TestRun`). One button drives the run. Its caption is the state:
  "Start Test", "Pause Test" or "Cont. Test". A Start click copies the sweep
  plan into a queue, switches RF on and processes the first frequency at
  once. Each later firing of the single-shot timer does one of three things:
  - paused: it only re-polls;
  - queue not empty: it pops the front frequency, writes one table row
    marked "passed" and schedules the next firing;
  - queue empty: it ends the run, switches RF off and resets the button to
    "Start Test".

  The transitions are pure functions on a snapshot of the sequencer state
  (`Panel`): `Fired` is one timer firing and `Clicked` one button click.
  The class `MainWindow` holds the same state in fields: the plan, the field
  strength, the dwell time, the caption, the pause flag, the RF flag, the
  queue, the table and the pending-timer flag. It also keeps ghost
  bookkeeping of the current run: the plan copied at Start and the table row
  where that run began. Its methods are proved to follow `Fired` and
  `Clicked`.

  The main theorem is the invariant `Settled`. The frequencies written in
  this run, followed by the queue, are always the copied plan. Every
  firing and every click keeps that invariant, so no interleaving of
  pauses, continues and firings drops, duplicates or reorders a frequency.
  `SessionKeepsPlan` and `WholeRun` state this for an arbitrary sequence of
  clicks and firings: once the run has ended, its rows are exactly the
  plan, in order. `RunFinishes` shows that an unpaused run with k
  frequencies left ends after k + 1 firings.

  Each call of `ProcessFrequencies` stands for one firing of the timer, or
  for the direct call a Start click makes. The pure helpers of `update()` are
  also modelled: the request sent to the sweep generator (a percent step
  turned into a log factor `1 + step*0.01`, or a linear step in MHz) and the
  estimated duration `dwell_time * len(freqs)`.

- **The GTEM RF-switch driver** (`sw_gtem.dfy`, module `SwGtem`). The switch
  takes strings of relay settings written `R<relay>P<position>`. `Init` picks
  the LF and HF route prefixes from the configured output (`gtem` or
  `term`, default `term`) and the crossover frequency (default 1e9).
  `SetFreq` sends the LF route up to and including the crossover and the HF
  route above it, each followed by `R3P1R4P0`, and returns `(0, f)`. `Quit`
  sends `R1P4R2P0R3P1R4P0` and returns 0. `Query` sends nothing when no
  instrument is attached. Each command that reaches the instrument is
  recorded in the `sent` log. A decoder, `Decode`, reads a command back as
  relay settings. Together with its inverse `Render`, it states what each
  command does to the relays.

Three details of `main2.py` the model keeps:
- A Start click processes the first frequency straight away.
- A paused run keeps re-polling every 100 ms. Pausing does not stop the
  timer.
- The run ends on the firing after the last frequency, when that firing
  finds the queue empty. It does not end on the pop that empties the queue.

## Model

| member | source | states |
|---|---|---|
| TestRun.TextRoundTrip | main2.py:134-158 | The handler's text dispatch (Start / Pause / anything else continues) recovers each of the three captions from its text, so dispatching on the caption is the same as dispatching on the text. |
| TestRun.RowFreqs | main2.py:92-105 | The frequency column of a list of table rows has one entry per row. |
| TestRun.RowFreqsAt | main2.py:92-105 | Entry i of the frequency column is the frequency written in row i. |
| TestRun.RowFreqsSnoc | main2.py:117 | Writing one more row adds exactly that row's frequency to the end of the frequency column. |
| TestRun.AllPassedSnoc | main2.py:117 | Appending a row marked "passed" to rows that are all marked "passed" keeps them all marked "passed". |
| TestRun.LogFactor | main2.py:271 | The log-sweep factor is above 1 exactly when the percent step is positive. It is 1 exactly when the step is 0. The percent step is recovered as (factor - 1) * 100. |
| TestRun.PlanRequest | main2.py:268-271 | The generator request is logarithmic exactly when the log box is checked. It carries start and stop unchanged. A linear request uses the step as given. A log request uses a factor that is above 1 iff the step is positive and that gives back the percent step. |
| TestRun.EstimatedSeconds | main2.py:275-276 | The estimated run time is non-negative for a non-negative dwell time. It is zero exactly when the dwell time is zero or the plan is empty. |
| TestRun.FiredSettles | main2.py:109-124 | A firing during a run keeps the invariant: the rows written in the run, all "passed", followed by the queue are still the plan. Afterwards either the run goes on with a timer pending, or the button shows "Start Test" with RF off, nothing pending and an empty queue. Earlier rows are untouched. |
| TestRun.LaunchedRuns | main2.py:136-146 | The state a Start click sets up (unpaused, "Pause Test", RF on, the plan queued) has no rows written yet in the new run and the whole plan in the queue. |
| TestRun.ClickedSettles | main2.py:134-158 | A Start click begins a run whose plan is the current plan and whose rows begin after the existing table. Pause and Continue keep the current run's invariant. Earlier rows are untouched. |
| TestRun.PauseThenContinue | main2.py:147-158 | Pausing and then continuing gives back exactly the state before the pause: nothing is lost or repeated. |
| TestRun.PausedTicksIdle | main2.py:110-111 | However often the timer fires while paused, nothing changes except that the poll is rescheduled. |
| TestRun.RunFinishes | main2.py:109-124 | With no pause, a run with k frequencies left ends after k + 1 firings. It writes one row per queued frequency, in queue order, after the existing rows, and then shows "Start Test" with RF off and nothing pending. |
| TestRun.FinishedRunMatchesPlan | main2.py:109-124 | When an unpaused run has finished, the rows it wrote are exactly the plan, in order. |
| TestRun.SessionKeepsPlan | main2.py:109-158 | Any sequence of clicks and firings during a run keeps the invariant and leaves earlier rows untouched. If the run ended, its rows are exactly the plan, in order. |
| TestRun.WholeRun | main2.py:109-158 | Start from an idle window, then any sequence of clicks and firings: the rows the run writes come after the existing table, followed by the queue they are the plan, and once the run ends they are the whole plan. |
| TestRun.Caption.Text | main2.py:124-156 | The three texts the button is set to: "Start Test" (lines 124 and 135), "Pause Test" (139, 149, 156) and "Cont. Test" (151). |
| TestRun.FromText | main2.py:135-158 | The handler's dispatch on the button text: "Start Test" starts, "Pause Test" pauses, any other text continues. |
| TestRun.Fired | main2.py:109-124 | One timer firing: paused, it only reschedules the poll; with a non-empty queue it pops the front frequency, appends the row (frequency, cw, "passed") and reschedules; with an empty queue it switches RF off, sets "Start Test" and schedules nothing. |
| TestRun.Launched | main2.py:138-147 | What the Start branch sets before processing: pause cleared, "Pause Test", the plan copied into the queue, RF on. |
| TestRun.Clicked | main2.py:134-158 | One click, dispatched on the caption: Start launches and processes the first frequency at once; Pause sets "Cont. Test", RF off and pause; Continue sets "Pause Test", RF on and clears pause. |
| TestRun.Ticks | main2.py:109-124 | n timer firings in a row, each firing rescheduling the next as the single-shot timer chain does. |
| TestRun.Session | main2.py:109-158 | A run fed an arbitrary interleaving of clicks and timer firings, up to the firing that ends the run. |
| TestRun.MainWindow.Valid | main2.py:109-158 | The window's invariant: the rows written since the run's start, all "passed", followed by the queue are the run's plan; idle means "Start Test", unpaused, RF off, nothing queued or pending; running means a timer is pending, paused exactly under "Cont. Test" and RF on exactly under "Pause Test". |
| TestRun.MainWindow.constructor | main2.py:27-35 | A new window stores the plan, field strength and dwell time it is given and is idle: "Start Test", not paused, RF off, empty queue and table, no timer pending. The invariant holds. |
| TestRun.MainWindow.ProcessFrequencies | main2.py:109-124 | The new state is `Fired` of the old one. A paused firing only reschedules. A firing with a non-empty queue pops the front frequency, appends one row (that frequency, the current cw, "passed") and reschedules. A firing on an empty queue switches RF off, shows "Start Test" and schedules nothing. The invariant holds afterwards, and the settings and run bookkeeping are unchanged. |
| TestRun.MainWindow.StartPauseClicked | main2.py:134-158 | The new state is `Clicked` of the old one with the plan as it was. Start records the plan and the current table length as the new run's bookkeeping. Pause and Continue keep the bookkeeping. The invariant holds afterwards, and the settings are unchanged. |
| TestRun.MainWindow.CwChanged | main2.py:182-183 | Only the field strength changes; it becomes the spin box value and the invariant is kept. |
| TestRun.MainWindow.Update | main2.py:265-276 | The generator request is PlanRequest of the inputs. The generator's answer becomes the plan, the dwell time is stored, and the estimated time is EstimatedSeconds of the dwell time and the plan length. Only the plan and the dwell time change, so a run in progress keeps its own queue and the invariant. |
| SwGtem.DecodeRender | test/conf/sw_gtem.py:29-34 | Reading back a command written from relay settings gives the same settings. |
| SwGtem.DecodeGroupThen | test/conf/sw_gtem.py:29-34 | A command that starts with a written "R<relay>P<position>" group decodes to that setting followed by the rest's settings. |
| SwGtem.DecodeRenderThen | test/conf/sw_gtem.py:60-64 | Written settings followed by a well-formed command read back as those settings followed by that command's settings. |
| SwGtem.RoutesFor | test/conf/sw_gtem.py:59-64 | The LF route is the written form of relay 1 to position 1 and the HF route of relay 1 to position 2; both then set relay 2 to 1 for gtem and to 0 otherwise. Each route decodes to exactly those settings. |
| SwGtem.SetFreqCommand | test/conf/sw_gtem.py:74-77 | The command for frequency f: the LF route when f <= swfreq, the HF route otherwise, followed by R3P1R4P0. |
| SwGtem.RestSettings | test/conf/sw_gtem.py:34 | The fixed suffix sets relay 3 to position 1 and relay 4 to position 0. |
| SwGtem.SetFreqSettings | test/conf/sw_gtem.py:73-77 | SetFreq's command sets, in order: relay 1 to the LF path when f <= swfreq (the boundary included) and to the HF path when f > swfreq; relay 2 to the configured output; relays 3 and 4 to 1 and 0. |
| SwGtem.QuitCommand | test/conf/sw_gtem.py:81-84 | Quit's command is exactly "R1P4R2P0R3P1R4P0". It sets relay 1 direct, relay 2 terminated and relays 3 and 4 to 1 and 0. |
| SwGtem.SWController.Ready | test/conf/sw_gtem.py:48-71 | After Init, LF and HF are set and are exactly the routes of the configured output. |
| SwGtem.SWController.constructor | test/conf/sw_gtem.py:28-40 | A new controller has no routes yet (LF and HF None), error 0, no instrument and nothing sent. |
| SwGtem.SWController.Query | test/conf/sw_gtem.py:42-46 | With no instrument attached, nothing is sent and there is no answer. Otherwise the command is sent exactly once. |
| SwGtem.SWController.Init | test/conf/sw_gtem.py:48-71 | Returns and stores the base driver's error code. The output is the configured one, or term when the key is missing. The routes are those of the output, so LF and HF are set. swfreq is the configured value, or 1e9 when missing. Nothing is sent. |
| SwGtem.SWController.SetFreq | test/conf/sw_gtem.py:73-79 | Returns (0, f). When an instrument is attached, sends exactly the chosen route followed by R3P1R4P0, and nothing otherwise. |
| SwGtem.SWController.Quit | test/conf/sw_gtem.py:81-84 | Returns 0. When an instrument is attached, sends exactly the reset command, and nothing otherwise. |

## Left out

- main.py: window setup and a sine animation only.
- Qt widgets and signal wiring, message boxes, file dialogs, `load_graph`, `about_triggered`, `closeEvent` and the `__main__` blocks: GUI plumbing with no logic to state.
- The text logs (`do_long_log`, the permanent log) and the timestamp column of the table: display and wall-clock time.
- `toggle_rf`: it only logs. The RF button can also be toggled by hand; that GUI action is not modelled, so the RF flag changes only through the modelled operations and the invariant ties it to the caption.
- TestRun.Session: the field strength is fixed for the whole sequence of events; a change of the spin box between events is `CwChanged`, which keeps the invariant but is not an event of `Session`.
- Real timing of `QTimer.singleShot`: the 100 ms poll and the dwell delay become one abstract call of `ProcessFrequencies`. No claims about time are made.
- `linspace`/`logspace`: their source is not part of this model. The plan is an input of `Update`, and `PlanRequest` records only what is asked of them.
- `TestSusceptibiliy.Init` and `init_measurement` (main2.py:140-145): a foreign measurement library. The source ignores their result.
- Settings persistence (`_read_setup`, `_save_setup`), CSV export (`save_Table`) and `get_time_as_string`: external store, file I/O and clock.
- `update()`: the `disable_update` guard, the spin-box suffix, decimals and range (0 to 99.99 % for log, 0 to 99999.9999 MHz for linear) and the text shown are widget settings. The ranges are enforced by the widget and are not preconditions here.
- `_update_efield` and `am_spinBox_changed`: display only, and a value the run never reads.
- Floating point: frequencies, steps and times are mathematical reals. Rounding in `1 + step*0.01` is not modelled.
- `fstrcmp` fuzzy matching: its result is modelled as one of `Output.Term` and `Output.Gtem`.
- The `DRIVER` base class and VISA/GPIB I/O: the error code and instrument presence returned by the base `Init` are parameters of `Init`. The instrument's answer to a query is not modelled; `Query` reports only whether the command reached an instrument.
- SwGtem.SWController.SetFreq: requires `Init` to have run. Before that the source has no `swfreq` attribute and would fail at the `swfreq` comparison (test/conf/sw_gtem.py:74).
- TestRun.AllPassed: describes the status column as the program writes it. `do_fill_table` leaves the status cell editable (main2.py:105), so an operator can overwrite "passed" by hand; such edits are not modelled, and the invariant's "all rows of the run are passed" is about the rows as written.
- TestRun.EstimatedSeconds: its contract states the sign and zero cases only. The exact value `dwell_time * len(freqs)` is its definition, and `Update` returns it.

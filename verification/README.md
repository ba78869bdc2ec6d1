# Schottky spectroscopy data acquisition, modelled in Dafny

`daq.py` runs a Schottky-spectroscopy measurement with two networked
instruments. The FSVR spectrum analyser streams I/Q data. The IQR recorder
records that stream into files and then archives each file. The program
connects to both instruments and configures them. It then loops:

- start the analyser's stream;
- derive a file name and an ISO 8601 timestamp from the local time;
- record one file;
- export (archive) it and delete the recorder's copies;
- write a JSON header next to it;
- update the file number and the duration totals;
- check the keyboard. Ctrl-e opens a wait, in which space stops the program
  and `b` lets it go on.

The model keeps everything about this that can be checked:

- **The command/response client** is `Transport.Instrument`. The TCP socket
  becomes two fields: `sent`, the transcript of every line written, and
  `replies`, the queue of replies still to come. `Write` appends one
  newline-terminated line. `Read` consumes one reply and strips it like
  Python's `str.strip()`. The constructor sends the IEEE 488.2 reset
  `*RST; *WAI; *CLS`, and only that.
- **The configuration sequences and `acquire`.** `Analyzer.Fsvr.IniSet`,
  `Recorder.Iqr.IniSet` and `Analyzer.Fsvr.Acquire` append exactly their
  command lists to the transcript.
- **The two polling state machines** are `Recorder.Iqr.Record` and
  `Recorder.Iqr.Export`. Each is an imperative method whose loops consume
  replies. Each is proved against an `Exchange` function: the lines it
  sends, how many replies it consumes, and whether it reached its terminal
  reply. Lemmas about those functions pin down the exit conditions, the
  command order and the one-query-per-reply counts.
- **The parameter derivations** are pure functions in `Parameters`, with
  round-trip lemmas: sample count, file name, timestamp and header metadata.
- **`main`** is `Daq.Run`, with its `while run` loop in `Daq.Loop`. Its
  inputs are what the program takes from its surroundings:
  - the local time and the three measured durations of each cycle;
  - the key codes `getch` returns;
  - the recorder's replies;
  - the general-format renderings of the analyser settings.

  On the inputs for which the program does not raise (`Daq.Admissible`),
  `Run` is proved to return exactly the `Summary` that the functional
  reference `Daq.Main` describes. Lemmas about `Main` and `Ending` state:
  - the file numbers;
  - the headers and the totals;
  - the event order within a cycle;
  - what each instrument was sent;
  - why the run stopped.

Where the code neither blocks nor raises, the model gives the same result
as the program. Where the program would block forever, the model stops
with a reason instead:

- a polling loop whose replies run out ends with `done == false`;
- `main` then stops with `DeviceSilent`;
- running out of keys in the Ctrl-e wait gives `KeysExhausted`;
- running out of cycle inputs gives `OutOfCycles`.

Three features of the code shape the model:

- The sample count is `(int(x / 2621440) + 1) * 2621440` for x = rate ×
  duration. That is strictly above x, so when x is an exact multiple of
  2,621,440 the count is one block more than x. See
  `Parameters.ExactMultipleGetsExtraBlock`.
- `iqr.iniSet` runs once, before the loop. Later cycles reuse the
  recorder's configuration.
- Replies are trimmed with `strip()`, which removes whitespace at both ends.

Files:

- `wrappers.dfy`: `Option` and `Result`.
- `text.dfy`: `strip`, decimal and zero-padded rendering, and line framing.
- `transport.dfy`: the instrument client.
- `analyzer.dfy`: the FSVR.
- `recorder.dfy`: the IQR.
- `parameters.dfy`: the derivations.
- `daq.dfy`: `main`.

## Model

| member | source | states |
|---|---|---|
| Transport.Instrument.constructor | daq.py:14-19 | a new connection is connected and has been sent exactly one line, the reset `*RST; *WAI; *CLS` plus newline; the reply queue is untouched |
| Transport.Instrument.Write | daq.py:28-30 | the transcript grows by exactly the command with one `'\n'` appended |
| Transport.Instrument.Read | daq.py:32-34 | with replies pending: returns the first reply stripped and consumes exactly it; with none: fails and consumes nothing |
| Transport.Instrument.Reset | daq.py:36-37 | sends exactly `*RST; *WAI; *CLS` plus newline |
| Transport.Instrument.Disconnect | daq.py:25-26 | the connection is closed (closing again is harmless) |
| Text.Strip | daq.py:34 | what `read` does to a reply; its properties are stated by `Text.StripIsTrimmedSlice` and `Text.StripIdempotent` |
| Text.TrimStartSpec | daq.py:34 | stripping leading whitespace keeps a suffix that does not start with whitespace; everything cut is whitespace |
| Text.TrimEndSpec | daq.py:34 | stripping trailing whitespace keeps a prefix that does not end with whitespace; everything cut is whitespace |
| Text.StripIsTrimmedSlice | daq.py:34 | `strip()` yields a slice `s[a..b]` with no whitespace at either end, and only whitespace lies outside it |
| Text.StripIdempotent | daq.py:34 | stripping twice is stripping once |
| Text.Decimal | daq.py:90 | the `d` rendering is a non-empty digit string with a leading `0` only for zero |
| Text.DecimalRoundTrip | daq.py:90 | the `d` rendering of a natural number reads back as that number and has no leading zero |
| Text.IntTextRoundTrip | daq.py:90 | the `d` rendering of any integer, sign included, reads back as that integer |
| Text.Pad | daq.py:203-210 | a `strftime` numeric field is exactly `w` digits |
| Text.PadRoundTrip | daq.py:203-210 | a zero-padded field reads back as its number whenever the number fits in `w` digits |
| Text.Line | daq.py:28-30 | what `write` puts on the wire for one command; `Text.FrameOne` and `Text.FramesOfStream` state that the instrument gets the command back |
| Text.FrameOne | daq.py:28-30 | a newline-free command written as one line is recovered as one frame at the head of the stream |
| Text.FramesOfStream | daq.py:28-30 | writing newline-free commands one line each lets the instrument recover exactly that command list from the byte stream |
| Analyzer.IniCommandsFramed | daq.py:52-63 | the FSVR configuration starts with `*CAL?`, and the instrument recovers every command of it separately, in order |
| Analyzer.IniCommandsCarry | daq.py:57-59 | centre frequency, sampling rate and reference level are each carried verbatim between keyword and unit |
| Analyzer.Fsvr.constructor | daq.py:41-42 | connects on port 5025 and sends only the reset |
| Analyzer.Fsvr.IniSet | daq.py:44-66 | sends `*CAL?` then the eight settings, in order, and nothing else |
| Analyzer.Fsvr.Acquire | daq.py:68-73 | sends exactly one `INITiate` |
| Recorder.FirstStopSpec | daq.py:105-110 | the index a polling loop stops at is the first reply meeting its exit condition; when none does, no reply meets it |
| Recorder.Poll | daq.py:105-110 | one polling loop: one query sent per reply consumed, stopping at the first reply meeting the exit condition, or failing with one unanswered query when the replies run out |
| Recorder.RecordExchange | daq.py:97-131 | the conversation of `record` on a given reply queue; never consumes more replies than there are; `Recorder.RecordShape`, `Recorder.RecordExits` and `Recorder.RecordDoneIff` state its shape, exits and completion |
| Recorder.RecordShape | daq.py:98-122 | `record` sends the waveform select `'e:/'+fileName`, arm and start, then only status queries, one per reply consumed, plus one unanswered query if the replies ran out (and then all were consumed) |
| Recorder.RecordExits | daq.py:105-122 | a completed `record` stopped arming on the first reply exactly `1` and recording on the next reply exactly `0`, and on no other |
| Recorder.RecordDoneIff | daq.py:105-122 | `record` completes if and only if some reply `1` is followed later by a reply `0` |
| Recorder.ExportExchange | daq.py:133-170 | the conversation of `export` on a given reply queue; never consumes more replies than there are; `Recorder.ExportShape`, `Recorder.ExportExits` and `Recorder.ExportDoneIff` state its shape, exits and completion |
| Recorder.ExportShape | daq.py:135-168 | `export` sends source, destination, RAW format and start, then `RUNNing?` queries, then `PROGress?` queries, one per reply, and the cleanup only on completion |
| Recorder.ExportSplit | daq.py:144-168 | a completed export splits at k, the first reply other than `0`, and at the first `"100 %"` after it: setup, k + 1 `RUNNing?` queries, one `PROGress?` query per reply up to that `"100 %"`, then the cleanup |
| Recorder.ExportExits | daq.py:144-158 | a completed export left its first loop at the first reply other than `0` and its second at the first `"100 %"` after that, which is the last reply it consumed; it sent k + 1 `RUNNing?` queries and one `PROGress?` per later reply, then the cleanup |
| Recorder.ExportDoneIff | daq.py:144-158 | `export` completes if and only if a reply other than `0` is followed later by a reply exactly `"100 %"`, quotes included |
| Recorder.CleanupLast | daq.py:162-168 | a completed export ends with the five cleanup lines: change to `e:`, delete `.ws1`, delete `.wsm`, change to `f:`, delete `.ws2` |
| Recorder.NoCleanupUnlessDone | daq.py:151-168 | an export that never sees `"100 %"` sends no MMEMory command |
| Recorder.ExportSetupNoMassMemory | daq.py:135-138 | the four archive setup commands are not MMEMory commands |
| Recorder.IniFileSizeRoundTrip | daq.py:90 | the file-size limit sent to the recorder reads back as `FileSize` |
| Recorder.Iqr.constructor | daq.py:77-78 | connects on port 5025 and sends only the reset |
| Recorder.Iqr.IniSet | daq.py:80-95 | sends recorder mode, file-size condition, file-size limit, standalone sync and manual trigger source, in order, and nothing else |
| Recorder.Iqr.Record | daq.py:97-131 | the lines sent, the replies consumed and the completion flag are those of `RecordExchange` on the replies it started with |
| Recorder.Iqr.Export | daq.py:133-170 | the lines sent, the replies consumed and the completion flag are those of `ExportExchange` on the replies it started with |
| Recorder.Iqr.StartArchive | daq.py:135-138 | sends source `'e:/'+fileName`, destination `'z:/'+fileName`, RAW format and start, in order |
| Recorder.Iqr.AwaitArchive | daq.py:151-168 | polls progress to `"100 %"`, and only then sends the cleanup |
| Recorder.Iqr.RemoveWaveforms | daq.py:162-168 | sends the five cleanup commands in order |
| Parameters.SampleRate | daq.py:185 | the sampling rate, span × 1.25; `Parameters.MetadataRoundTrip` states it is the rate the header carries |
| Parameters.NumberOfSamples | daq.py:186 | the sample count; `Parameters.NumberOfSamplesBounds`, `Parameters.NumberOfSamplesLeast` and `Parameters.ExactMultipleGetsExtraBlock` state what it is |
| Parameters.NumberOfSamplesBounds | daq.py:186 | the sample count is a positive multiple of 2,621,440, strictly greater than rate × duration, and at most one block above it |
| Parameters.NumberOfSamplesLeast | daq.py:186 | no multiple of the block that exceeds rate × duration is smaller than the sample count |
| Parameters.ExactMultipleGetsExtraBlock | daq.py:186 | when rate × duration is exactly k blocks, the count is k + 1 blocks |
| Parameters.FileName | daq.py:203 | the `%Y%m%d_%H%M%S` file name; `Parameters.FileNameRoundTrip` states that it reads back as the date and time |
| Parameters.DigitsRoundTrip | daq.py:203 | a `%Y%m%d` or `%H%M%S` group reads back as its three numbers when each fits its width |
| Parameters.FileNameRoundTrip | daq.py:203 | the file name is 8 date digits, `_`, 6 time digits, and reads back as the date and time |
| Parameters.Zone | daq.py:210 | the `%z` rendering of a UTC offset; `Parameters.ZoneRoundTrip` and `Parameters.ZoneArithmetic` state its form and value |
| Parameters.ZoneRoundTrip | daq.py:210 | `%z` is five characters `±hhmm`, reading back as the UTC offset in whole minutes, sign included |
| Parameters.ZoneArithmetic | daq.py:210 | the hours and minutes of `%z` fit in two digits each and recompose the offset |
| Parameters.TripleRoundTrip | daq.py:204-209 | a `YYYY-MM-DD` or `HH:MM:SS` group reads back as its three numbers |
| Parameters.Timestamp | daq.py:204-210 | the ISO 8601 timestamp; `Parameters.TimestampRoundTrip` states that it reads back as the date, time and offset |
| Parameters.TimestampRoundTrip | daq.py:204-210 | the timestamp is 24 characters `YYYY-MM-DDTHH:MM:SS±hhmm` and reads back as the date, time and offset |
| Parameters.FileNameAgreesWithTimestamp | daq.py:202-210 | the file name and the timestamp of one cycle name the same date and time |
| Parameters.HeaderMetadata | daq.py:179-219 | the metadata of one header; `Parameters.MetadataRoundTrip` and `Parameters.MetadataRefresh` state its keys and values |
| Parameters.MetadataRoundTrip | daq.py:179-186 | a header holds exactly its ten keys and gives back the run's parameters; rate = span × 1.25 and the sample count is the derived one |
| Parameters.MetadataRefresh | daq.py:204-219 | the keys each cycle sets turn the metadata before the first cycle, or after any earlier one, into this cycle's header metadata |
| Daq.Decision | daq.py:233-243 | the verdict of the wait after Ctrl-e; `Daq.DecisionMeaning` states what decides it |
| Daq.DecisionMeaning | daq.py:233-243 | after Ctrl-e, only space (stop) or `b` (go on) end the wait, the first of them decides, and the wait never ends when neither comes |
| Daq.AwaitDecision | daq.py:233-243 | the wait loop reaches the verdict `Decision` describes |
| Daq.AfterCycle | daq.py:228-243 | the verdict of the key check after a cycle; `Daq.CheckKeys` states what it means |
| Daq.CheckKeys | daq.py:228-243 | the key check after a cycle reaches `AfterCycle`'s verdict: with no key or a key other than Ctrl-e the loop goes on past it; after Ctrl-e the first space (quit) or `b` (go on) decides, with only other keys between, and with neither the wait is stuck |
| Daq.QuitNeedsCtrlE | daq.py:228-239 | a quit verdict is decided by a space that follows some Ctrl-e |
| Daq.KeyRunSticky | daq.py:197-243 | if the loop goes on after cycle m, it went on after every earlier cycle |
| Daq.TotalsAppend | daq.py:194-226 | the totals over two runs of cycles are the sums of their totals |
| Daq.HeaderPath | daq.py:221 | where a header is written; `Daq.HeaderOfReadsBack` states its folder, file name and extension |
| Daq.HeaderOfReadsBack | daq.py:202-222 | a header's path is the folder, the file name and `.wvh`; the file name and timestamp read back as the cycle's time; the metadata gives back the parameters |
| Daq.TraceLength | daq.py:197-226 | each completed cycle contributes four events |
| Daq.TraceAt | daq.py:200-223 | cycle i is events 4i..4i+3 under file number i+1: acquire, record, export, header, in that order |
| Daq.AnalyzerSentShape | daq.py:189-200 | the analyser is sent its prelude and then one `INITiate` per cycle started |
| Daq.WireStep | daq.py:200-212 | one cycle adds one `INITiate` for the analyser, and that cycle's exchange for the recorder, which takes up the next replies |
| Daq.CycleOutcome | daq.py:211-212 | whether a cycle and its recording finish is decided by the replies the earlier cycles left |
| Daq.RecordAndExport | daq.py:211-212 | record, then export only if the recording finished; the export cannot finish unless the recording did; each step that finished is reported as soon as it did, recording before export |
| Daq.RunCycle | daq.py:200-212 | one cycle on the wire: one `INITiate`, then record and export on the recorder, nothing else; the events so far are the cycle's first ones, acquire and then record and export as far as they finished |
| Daq.Conclude | daq.py:217-226 | the format keys join the metadata, the header is written and its event completes the cycle's four, the file number goes up by one and the durations join the totals |
| Daq.Connect | daq.py:189-192 | both instruments are connected at their addresses and reset, and each is sent exactly its configuration |
| Daq.CyclePass | daq.py:197-243 | one turn of the loop brings the instruments, the bookkeeping and the key verdict to their values after one more cycle |
| Daq.Hangup | daq.py:235-238 | space disconnects both instruments and changes nothing else |
| Daq.Decide | daq.py:228-243 | after a finished cycle the loop goes on on `b` or no Ctrl-e, stops on space, and is stuck when the keys run out |
| Daq.Advance | daq.py:197-243 | one loop turn keeps the run on the course `Finish` describes |
| Daq.Loop | daq.py:194-243 | the loop ends with the summary `Main` describes |
| Daq.DefaultsAdmissible | daq.py:179-186 | the program's own settings, a 5 MHz span and 2 s, give a 6.25 MHz rate and five blocks, and so meet `Run`'s precondition |
| Daq.Run | daq.py:188-243 | on inputs for which the program does not raise, `main` ends with exactly the summary `Main` describes |
| Daq.FinishEnding | daq.py:197-243 | every run ends as `Ending` says after the cycles it completed |
| Daq.FinishReached | daq.py:197-243 | a run ends with every completed cycle finished, and if the operator lets it go on, either no cycle is left or the next one is not finished |
| Daq.FinishWentOn | daq.py:228-243 | the operator let the loop go on after every completed cycle but the last |
| Daq.MainEnding | daq.py:188-243 | `main`'s summary is the `Ending` of the cycles it completed |
| Daq.MainWentOn | daq.py:228-243 | `main` stops at the first verdict that is not a go-on |
| Daq.MainOperatorStop | daq.py:228-238 | stopping on the operator's word needs a Ctrl-e and a later space, and leaves both instruments disconnected |
| Daq.EndingStop | daq.py:197-243 | stop on space if and only if the verdict is quit; for lack of keys if and only if it is stuck; for lack of cycles if and only if every cycle was used; otherwise the recorder fell silent; the analyser and the recorder each stay connected unless stopped on space |
| Daq.EndingBooks | daq.py:194-226 | after k completed cycles the file number is k + 1, there is one header and one duration per cycle in the totals, and the events of the completed cycles are followed by at most two more |
| Daq.EndingWire | daq.py:189-212 | the analyser was sent one `INITiate` per cycle begun, and the recorder its prelude plus the exchanges of the cycles begun |

## Left out

- The TCP sockets: they are replaced by the transcript and the reply queue. Connection failures are not modelled.
- A `recv` is one whole reply: byte-level fragmentation is not modelled, and neither is the 4096-byte limit or UTF-8 decoding.
- Blocking: a read with no reply pending fails instead of blocking. The polling loops and `main` then stop with a reason (`DeviceSilent`, `KeysExhausted`, `OutOfCycles`) where the program would wait forever.
- The `*CAL?` reply is never read by the program, so the model queues none for it.
- All `time.sleep` calls: the 12 s calibration settle, the 2 s arm delay, the 0.1 s poll cadence and the 1 s export delay.
- Clock readings: `time.time()` and `time.localtime()` are inputs. Each cycle brings its own date and time and its three durations (`Daq.Cycle`).
- Floating-point formatting: the general-format (`g`) renderings of CF/1e6, SRat/1e6 and RLev are string inputs (`Daq.Rendering`). The progress percentages are display only, and `duraTime` is used only in that display; its division and the one that uses it can raise, see `Daq.Run`.
- `Parameters.NumberOfSamples`: the rate and duration are exact reals, not IEEE doubles. With the program's own constants (6.25 MHz × 2 s, all exactly representable as doubles) the two agree.
- Years outside 1000..9999 are excluded from the timestamp and file-name round trips (`Parameters.Valid`): `%Y` is not four digits there.
- Daq.Run: inputs on which the program raises are excluded by its precondition (`Daq.Admissible`), and the exception is not modelled. A zero span divides by zero at daq.py:85. A sample count of zero (rate × duration in (−5,242,880, −2,621,440]) divides by zero at daq.py:123 once a recording reports progress; such inputs are excluded even when no progress is reported. Clock readings outside `Parameters.Valid` are excluded too.
- Daq.Connect: the order of lines across the two instruments is not modelled, only each instrument's own transcript.
- The sampling rate as its own display or log value: it enters the model through `Parameters.SampleRate` and the metadata only.
- JSON serialisation and the header file on disk: a header is modelled as its path and its metadata map (`Daq.Header`). Key sorting and indentation are not modelled.
- The `rm -f *.wsm` at the end of `main` and all logging: these are side effects outside the instruments.
- Curses: the screen rows, returned `y` values and messages, and `getch` positioning. Keys are a sequence of codes, with -1 for none pressed.
- The timestamp is written into the metadata before `record` starts, but only reaches a file with the header. The model sets it at the start of the cycle, as the code does (`Daq.CyclePass`). When the recorder falls silent in a cycle, the summary keeps the metadata of the last completed cycle, without that cycle's timestamp; the program is blocked at that point, so nothing observes the difference.

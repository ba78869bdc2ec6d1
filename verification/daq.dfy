/**
 * `main`: connect and configure both instruments, then run acquisition
 * cycles (acquire, record, export, write the header) until the operator
 * stops the program with Ctrl-e followed by space.
 *
 * What the program takes from its surroundings is given to `Run` as
 * inputs: the local time at each cycle and the three durations measured in
 * it, the keys the operator presses, the recorder's replies, and the
 * general-format (`g`) renderings of the analyser settings.
 */
module Daq {
  import opened Wrappers
  import opened Text
  import opened Transport
  import opened Parameters
  import Analyzer
  import Recorder

  const Folder: string := "/home/schospec/Data/"
  const AnalyzerAddress: string := "10.10.91.95"
  const RecorderAddress: string := "10.10.91.93"

  /** Key codes as `getch` returns them; `NoKey` when nothing was pressed. */
  const NoKey: int := -1
  const CtrlE: int := 5
  const SpaceKey: int := 32
  const ContinueKey: int := 98

  /** Where the header of a recorded file goes. */
  function HeaderPath(fileName: string): string {
    Folder + fileName + ".wvh"
  }

  // ---------------------------------------------------------------- keys

  /** What the operator decided after a cycle, and where the key stream resumes. */
  datatype Verdict = Proceed(next: nat) | Quit(next: nat) | Stuck

  /**
   * The wait after Ctrl-e: keys are read until space (stop) or `b` (go
   * on); anything else is ignored. When the keys run out the program
   * would wait forever.
   */
  function Decision(keys: seq<int>, from: nat): Verdict
    decreases |keys| - from
  {
    if from >= |keys| then Stuck
    else if keys[from] == SpaceKey then Quit(from + 1)
    else if keys[from] == ContinueKey then Proceed(from + 1)
    else Decision(keys, from + 1)
  }

  /**
   * Only space or `b` end the wait, and the first of them decides; the wait
   * is stuck exactly when neither comes.
   */
  lemma {:induction false} DecisionMeaning(keys: seq<int>, from: nat)
    ensures match Decision(keys, from)
      case Quit(n) =>
        && from < n <= |keys| && keys[n - 1] == SpaceKey
        && forall i :: from <= i < n - 1 ==> keys[i] != SpaceKey && keys[i] != ContinueKey
      case Proceed(n) =>
        && from < n <= |keys| && keys[n - 1] == ContinueKey
        && forall i :: from <= i < n - 1 ==> keys[i] != SpaceKey && keys[i] != ContinueKey
      case Stuck =>
        forall i :: from <= i < |keys| ==> keys[i] != SpaceKey && keys[i] != ContinueKey
    decreases |keys| - from
  {
    if from < |keys| && keys[from] != SpaceKey && keys[from] != ContinueKey {
      DecisionMeaning(keys, from + 1);
    }
  }

  /** The check after a cycle: one `getch`; only Ctrl-e leads to the wait. */
  function AfterCycle(keys: seq<int>, at: nat): Verdict {
    if at >= |keys| then Proceed(at)
    else if keys[at] == CtrlE then Decision(keys, at + 1)
    else Proceed(at + 1)
  }

  /** The operator's verdict after `cycles` cycles, each check starting where the last one ended. */
  function KeyRun(keys: seq<int>, cycles: nat): Verdict {
    if cycles == 0 then Proceed(0)
    else match KeyRun(keys, cycles - 1)
      case Proceed(at) => AfterCycle(keys, at)
      case v => v
  }

  /**
   * A run stops on the operator's word only after a Ctrl-e: once the
   * verdicts say quit, some earlier key was Ctrl-e and the key that
   * decided it was space.
   */
  lemma {:induction false} QuitNeedsCtrlE(keys: seq<int>, cycles: nat)
    requires KeyRun(keys, cycles).Quit?
    ensures var n := KeyRun(keys, cycles).next;
      && 0 < n <= |keys| && keys[n - 1] == SpaceKey
      && exists i :: 0 <= i < n - 1 && keys[i] == CtrlE
  {
    var prev := KeyRun(keys, cycles - 1);
    if prev.Quit? {
      QuitNeedsCtrlE(keys, cycles - 1);
    } else {
      var at := prev.next;
      assert at < |keys| && keys[at] == CtrlE;
      DecisionMeaning(keys, at + 1);
    }
  }

  /** Once the operator has stopped or the keys are stuck, no later cycle goes on. */
  lemma {:induction false} KeyRunSticky(keys: seq<int>, m: nat, j: nat)
    requires j <= m && KeyRun(keys, m).Proceed?
    ensures KeyRun(keys, j).Proceed?
    decreases m - j
  {
    if j < m {
      KeyRunSticky(keys, m - 1, j);
    }
  }

  /** The wait loop after Ctrl-e, reading one key per iteration. */
  method AwaitDecision(keys: seq<int>, from: nat) returns (v: Verdict)
    ensures v == Decision(keys, from)
  {
    var i := from;
    while i < |keys|
      invariant from <= i
      invariant Decision(keys, i) == Decision(keys, from)
      decreases |keys| - i
    {
      if keys[i] == SpaceKey {
        return Quit(i + 1);
      } else if keys[i] == ContinueKey {
        return Proceed(i + 1);
      }
      i := i + 1;
    }
    return Stuck;
  }

  // ---------------------------------------------------------------- cycles

  /** The three durations measured in a cycle, in seconds. */
  datatype Durations = Durations(preparing: real, recording: real, exporting: real)

  /** What a cycle takes from outside: the local time and the measured durations. */
  datatype Cycle = Cycle(stamp: DateTime, times: Durations)

  function Add(a: Durations, b: Durations): Durations {
    Durations(a.preparing + b.preparing, a.recording + b.recording, a.exporting + b.exporting)
  }

  /** The sums of each duration over a run of cycles. */
  function Totals(cs: seq<Cycle>): Durations {
    if cs == [] then Durations(0.0, 0.0, 0.0)
    else Add(Totals(cs[..|cs| - 1]), cs[|cs| - 1].times)
  }

  /** Totals add up piecewise: the totals of two runs are the sum of their totals. */
  lemma {:induction false} TotalsAppend(a: seq<Cycle>, b: seq<Cycle>)
    ensures Totals(a + b) == Add(Totals(a), Totals(b))
    decreases |b|
  {
    if b == [] {
      assert a + b == a;
    } else {
      var init, last := b[..|b| - 1], b[|b| - 1];
      assert (a + b)[..|a + b| - 1] == a + init;
      assert (a + b)[|a + b| - 1] == last;
      assert Totals(a + b) == Add(Totals(a + init), last.times);
      TotalsAppend(a, init);
      assert Totals(b) == Add(Totals(init), last.times);
    }
  }

  function FileNameOf(c: Cycle): string {
    FileName(c.stamp)
  }

  /** One header file: where it is written and the metadata it holds. */
  datatype Header = Header(path: string, metadata: map<string, JsonValue>)

  function HeaderOf(p: Params, c: Cycle): Header {
    Header(HeaderPath(FileNameOf(c)), HeaderMetadata(p, Timestamp(c.stamp)))
  }

  /**
   * A header names its recording and carries its time: the path is the
   * folder, the file name and `.wvh`; the file name reads back as the
   * cycle's date and time, the timestamp as its date, time and offset, and
   * the metadata as the run's parameters.
   */
  lemma HeaderOfReadsBack(p: Params, c: Cycle)
    requires Valid(c.stamp)
    ensures var h := HeaderOf(p, c);
      && |h.path| == |Folder| + 19
      && h.path[..|Folder|] == Folder && h.path[|Folder| + 15..] == ".wvh"
      && ParseFileName(h.path[|Folder|..|Folder| + 15]) == Some(c.stamp.(utcOffset := 0))
      && "timestamp" in h.metadata && h.metadata["timestamp"].Str?
      && ParseTimestamp(h.metadata["timestamp"].s) == Some(c.stamp.(utcOffset := MinuteOffset(c.stamp.utcOffset)))
      && ParamsOf(h.metadata) == Some(p)
  {
    var h := HeaderOf(p, c);
    FileNameRoundTrip(c.stamp);
    assert h.path[|Folder|..|Folder| + 15] == FileName(c.stamp);
    TimestampRoundTrip(c.stamp);
    MetadataRoundTrip(p, Timestamp(c.stamp));
  }

  function Headers(p: Params, cs: seq<Cycle>): (hs: seq<Header>)
    ensures |hs| == |cs|
  {
    seq(|cs|, i requires 0 <= i < |cs| => HeaderOf(p, cs[i]))
  }

  /** What `main` does that is visible outside the instruments, in order. */
  datatype Event =
    | Acquired(number: nat)
    | Recorded(number: nat, fileName: string)
    | Exported(number: nat, fileName: string)
    | HeaderWritten(number: nat, path: string)
    | Disconnected

  /** One completed cycle: acquire, record, export, header, under one file number. */
  function CycleEvents(number: nat, c: Cycle): seq<Event> {
    [ Acquired(number), Recorded(number, FileNameOf(c)), Exported(number, FileNameOf(c)),
      HeaderWritten(number, HeaderPath(FileNameOf(c))) ]
  }

  function Trace(cs: seq<Cycle>): seq<Event> {
    if cs == [] then [] else Trace(cs[..|cs| - 1]) + CycleEvents(|cs|, cs[|cs| - 1])
  }

  /**
   * Cycle `i` occupies events 4i to 4i+3 of the trace, under file number
   * i+1: record after acquire, export after record, header after export,
   * and the number goes up by one from each cycle to the next.
   */
  lemma {:induction false} TraceAt(cs: seq<Cycle>, i: nat)
    requires i < |cs|
    ensures |Trace(cs)| == 4 * |cs|
    ensures Trace(cs)[4 * i..4 * i + 4] == CycleEvents(i + 1, cs[i])
  {
    var init := cs[..|cs| - 1];
    var t, e := Trace(init), CycleEvents(|cs|, cs[|cs| - 1]);
    TraceLength(init);
    assert Trace(cs) == t + e;
    if i < |cs| - 1 {
      TraceAt(init, i);
      assert init[i] == cs[i];
      assert (t + e)[4 * i..4 * i + 4] == t[4 * i..4 * i + 4];
    } else {
      assert (t + e)[4 * i..4 * i + 4] == e;
    }
  }

  lemma {:induction false} TraceLength(cs: seq<Cycle>)
    ensures |Trace(cs)| == 4 * |cs|
  {
    if cs != [] {
      TraceLength(cs[..|cs| - 1]);
    }
  }

  // ---------------------------------------------------------------- recorder session

  /** One cycle as the recorder sees it: a recording, then, if it finished, an export. */
  function CycleExchange(fileName: string, rs: seq<string>): (e: Recorder.Exchange)
    ensures e.consumed <= |rs|
  {
    var r := Recorder.RecordExchange(fileName, rs);
    if !r.done then r
    else Recorder.Then(r, Recorder.ExportExchange(fileName, rs[r.consumed..]))
  }

  /** The recorder's part of a run of cycles, each taking up the replies where the last one stopped. */
  function Session(cs: seq<Cycle>, rs: seq<string>): (e: Recorder.Exchange)
    ensures e.consumed <= |rs|
  {
    if cs == [] then Recorder.Exchange([], 0, true)
    else
      var prev := Session(cs[..|cs| - 1], rs);
      if !prev.done then prev
      else Recorder.Then(prev, CycleExchange(FileNameOf(cs[|cs| - 1]), rs[prev.consumed..]))
  }

  // ---------------------------------------------------------------- main

  /** Why the cycle loop ended. */
  datatype Stop =
    | Operator       // space after Ctrl-e: both instruments disconnected
    | OutOfCycles    // no more cycle inputs (the program itself would go on)
    | DeviceSilent(recorded: bool)  // the recorder's replies ran out inside a polling loop,
                                    // during the export when `recorded`, else during the recording
    | KeysExhausted  // the keys ran out while waiting for space or `b`

  /** The general-format (`g`) renderings that the analyser settings are sent as. */
  datatype Rendering = Rendering(centerFrequencyMHz: string, samplingRateMHz: string, referenceLevelDbm: string)

  /** What the analyser is sent by `main`: the reset, the configuration, then one `INITiate` per cycle. */
  function AnalyzerPrelude(r: Rendering): seq<string> {
    [Line(ResetCommand)] + Lines(Analyzer.IniCommands(r.centerFrequencyMHz, r.samplingRateMHz, r.referenceLevelDbm))
  }

  function AnalyzerSent(r: Rendering, cycles: nat): seq<string> {
    if cycles == 0 then AnalyzerPrelude(r) else AnalyzerSent(r, cycles - 1) + [Line(Analyzer.InitiateCommand)]
  }

  /** The analyser's transcript is its prelude followed by exactly one `INITiate` per cycle started. */
  lemma {:induction false} AnalyzerSentShape(r: Rendering, cycles: nat)
    ensures AnalyzerSent(r, cycles) == AnalyzerPrelude(r) + Repeat(Line(Analyzer.InitiateCommand), cycles)
  {
    if cycles > 0 {
      AnalyzerSentShape(r, cycles - 1);
      ConcatAssoc(AnalyzerPrelude(r), Repeat(Line(Analyzer.InitiateCommand), cycles - 1), [Line(Analyzer.InitiateCommand)]);
    }
  }

  /** What the recorder is sent before the first cycle: the reset and the configuration. */
  function RecorderPrelude(p: Params): seq<string> {
    [Line(ResetCommand)] + Lines(Recorder.IniCommands(FileSize(p)))
  }

  /**
   * The two instruments as `main` leaves them: what each was sent, the
   * recorder's replies still to come, and whether each is connected.
   */
  datatype Wire = Wire(analyzerSent: seq<string>, recorderSent: seq<string>, recorderReplies: seq<string>,
                       analyzerConnected: bool, recorderConnected: bool)

  function WireOf(fsvr: Analyzer.Fsvr, iqr: Recorder.Iqr): Wire
    reads fsvr.dev, iqr.dev
  {
    Wire(fsvr.dev.sent, iqr.dev.sent, iqr.dev.replies, fsvr.dev.connected, iqr.dev.connected)
  }

  /**
   * The instruments, still connected, once cycles `0` to `k - 1` have been
   * started: the analyser has been started `k` times, and the recorder has
   * gone through those cycles, up to the first it did not finish.
   */
  function WireAt(p: Params, r: Rendering, replies: seq<string>, cycles: seq<Cycle>, k: nat): Wire
    requires k <= |cycles|
  {
    var e := Session(cycles[..k], replies);
    Wire(AnalyzerSent(r, k), RecorderPrelude(p) + e.lines, replies[e.consumed..], true, true)
  }

  /** Whether the recording of cycle `n` finished, all cycles before it having finished. */
  function RecordedIn(cycles: seq<Cycle>, replies: seq<string>, n: nat): bool
    requires n < |cycles|
  {
    Recorder.RecordExchange(FileNameOf(cycles[n]), replies[Session(cycles[..n], replies).consumed..]).done
  }

  /** What `main` keeps from cycle to cycle, beside the instruments. */
  datatype Books = Books(
    fileNumber: nat,
    metadata: map<string, JsonValue>,
    headers: seq<Header>,
    trace: seq<Event>,
    totals: Durations)

  /** The bookkeeping after `n` completed cycles. */
  function BooksAfter(p: Params, cycles: seq<Cycle>, n: nat): Books
    requires n <= |cycles|
  {
    Books(n + 1,
          if n == 0 then BaseMetadata(p) else HeaderMetadata(p, Timestamp(cycles[n - 1].stamp)),
          Headers(p, cycles[..n]),
          Trace(cycles[..n]),
          Totals(cycles[..n]))
  }

  /** What a run leaves behind: cycles completed, the bookkeeping, what happened after the last completed cycle, the instruments, and why it stopped. */
  datatype Summary = Summary(completed: nat, books: Books, trace: seq<Event>, wire: Wire, stop: Stop)

  /** Each bookkeeping function takes one cycle more by one step. */
  lemma PrefixStep(p: Params, cs: seq<Cycle>, n: nat)
    requires n < |cs|
    ensures Totals(cs[..n + 1]) == Add(Totals(cs[..n]), cs[n].times)
    ensures Headers(p, cs[..n + 1]) == Headers(p, cs[..n]) + [HeaderOf(p, cs[n])]
    ensures Trace(cs[..n + 1]) == Trace(cs[..n]) + CycleEvents(n + 1, cs[n])
  {
    assert cs[..n + 1][..n] == cs[..n];
  }

  /** How many of a cycle's events happened: the acquisition, then the recording, then the export. */
  function Reach(recorded: bool, exported: bool): (k: nat)
    ensures 1 <= k <= 3
    ensures k == 3 <==> exported
  {
    if exported then 3 else if recorded then 2 else 1
  }

  /** A cycle's events from the acquisition on, the acquisition first. */
  lemma CycleEventsFrom(base: seq<Event>, number: nat, c: Cycle, k: nat)
    requires 1 <= k <= 4
    ensures base + [Acquired(number)] + CycleEvents(number, c)[1..k] == base + CycleEvents(number, c)[..k]
  {
    var events := CycleEvents(number, c);
    assert events[..k] == [Acquired(number)] + events[1..k];
    ConcatAssoc(base, [Acquired(number)], events[1..k]);
  }

  /** The recorder's events of a cycle, appended one at a time. */
  lemma RecorderEvents(base: seq<Event>, number: nat, c: Cycle)
    ensures base == base + CycleEvents(number, c)[1..1]
    ensures base + [Recorded(number, FileNameOf(c))] == base + CycleEvents(number, c)[1..2]
    ensures base + [Recorded(number, FileNameOf(c))] + [Exported(number, FileNameOf(c))]
         == base + CycleEvents(number, c)[1..3]
  {
    var events := CycleEvents(number, c);
    assert events[1..1] == [];
    assert events[1..2] == [Recorded(number, FileNameOf(c))];
    assert events[1..3] == [Recorded(number, FileNameOf(c))] + [Exported(number, FileNameOf(c))];
  }

  /** The header event completes a cycle whose first three events are in. */
  lemma CycleEventsEnd(base: seq<Event>, number: nat, c: Cycle)
    ensures base + CycleEvents(number, c)[..3] + [HeaderWritten(number, HeaderPath(FileNameOf(c)))]
         == base + CycleEvents(number, c)
  {
    var events := CycleEvents(number, c);
    assert events[..3] + [events[3]] == events;
    ConcatAssoc(base, events[..3], [events[3]]);
  }

  /** The verdicts take one cycle more by one step. */
  lemma KeyRunStep(keys: seq<int>, n: nat, at: nat)
    requires KeyRun(keys, n) == Proceed(at)
    ensures KeyRun(keys, n + 1) == AfterCycle(keys, at)
  {
  }

  /** The recorder's session takes one cycle more by one step. */
  lemma SessionStep(cs: seq<Cycle>, n: nat, rs: seq<string>)
    requires n < |cs|
    ensures var e := Session(cs[..n], rs);
      e.done ==> Session(cs[..n + 1], rs) == Recorder.Then(e, CycleExchange(FileNameOf(cs[n]), rs[e.consumed..]))
  {
    assert cs[..n + 1][..n] == cs[..n];
  }

  /**
   * One cycle on the wire: the analyser gets one more `INITiate`, the
   * recorder the lines of the cycle's exchange, which takes up the next
   * replies.
   */
  lemma WireStep(p: Params, r: Rendering, replies: seq<string>, cycles: seq<Cycle>, n: nat)
    requires n < |cycles| && Session(cycles[..n], replies).done
    ensures var w := WireAt(p, r, replies, cycles, n);
      var c := CycleExchange(FileNameOf(cycles[n]), w.recorderReplies);
      && WireAt(p, r, replies, cycles, n + 1) ==
           Wire(w.analyzerSent + [Line(Analyzer.InitiateCommand)], w.recorderSent + c.lines,
                w.recorderReplies[c.consumed..], true, true)
  {
    var before := Session(cycles[..n], replies);
    var c := CycleExchange(FileNameOf(cycles[n]), replies[before.consumed..]);
    SessionStep(cycles, n, replies);
    ConcatAssoc(RecorderPrelude(p), before.lines, c.lines);
    DropDrop(replies, before.consumed, c.consumed);
  }

  /**
   * Whether cycle `n` finished, and whether its recording did, is decided
   * by the replies left after the cycles before it.
   */
  lemma CycleOutcome(p: Params, r: Rendering, replies: seq<string>, cycles: seq<Cycle>, n: nat)
    requires n < |cycles| && Session(cycles[..n], replies).done
    ensures var rest := WireAt(p, r, replies, cycles, n).recorderReplies;
      && Session(cycles[..n + 1], replies).done == CycleExchange(FileNameOf(cycles[n]), rest).done
      && RecordedIn(cycles, replies, n) == Recorder.RecordExchange(FileNameOf(cycles[n]), rest).done
  {
    SessionStep(cycles, n, replies);
  }

  /**
   * `record` and then, if the recording finished, `export`: one cycle on the
   * recorder. Each step that finishes is reported, under the cycle's file
   * number, as soon as it has finished.
   */
  method RecordAndExport(iqr: Recorder.Iqr, c: Cycle, number: nat, trace: seq<Event>)
    returns (recorded: bool, exported: bool, trace': seq<Event>)
    requires iqr.dev.connected
    modifies iqr.dev`sent, iqr.dev`replies
    ensures recorded == Recorder.RecordExchange(FileNameOf(c), old(iqr.dev.replies)).done
    ensures var e := CycleExchange(FileNameOf(c), old(iqr.dev.replies));
      && exported == e.done && (exported ==> recorded)
      && iqr.dev.sent == old(iqr.dev.sent) + e.lines
      && iqr.dev.replies == old(iqr.dev.replies)[e.consumed..]
    ensures trace' == trace + CycleEvents(number, c)[1..Reach(recorded, exported)]
  {
    var fileName := FileNameOf(c);
    ghost var rs := iqr.dev.replies;
    ghost var r := Recorder.RecordExchange(fileName, rs);
    RecorderEvents(trace, number, c);
    recorded := iqr.Record(fileName);
    if !recorded {
      assert CycleExchange(fileName, rs) == r;
      assert iqr.dev.replies == rs[r.consumed..];
      return recorded, false, trace;
    }
    trace' := trace + [Recorded(number, fileName)];
    ghost var x := Recorder.ExportExchange(fileName, rs[r.consumed..]);
    exported := iqr.Export(fileName);
    if exported {
      trace' := trace' + [Exported(number, fileName)];
    }
    DropDrop(rs, r.consumed, x.consumed);
    ConcatAssoc(old(iqr.dev.sent), r.lines, x.lines);
    assert CycleExchange(fileName, rs) == Recorder.Then(r, x);
  }

  /**
   * One pass of the loop body up to the header: `acquire` on the analyser,
   * then `record` and `export` on the recorder.
   */
  method RunCycle(fsvr: Analyzer.Fsvr, iqr: Recorder.Iqr, c: Cycle, number: nat, trace: seq<Event>)
    returns (recorded: bool, exported: bool, trace': seq<Event>)
    requires fsvr.dev != iqr.dev && fsvr.dev.connected && iqr.dev.connected
    modifies fsvr.dev`sent, iqr.dev`sent, iqr.dev`replies
    ensures var w := old(WireOf(fsvr, iqr));
      var e := CycleExchange(FileNameOf(c), w.recorderReplies);
      && WireOf(fsvr, iqr) == Wire(w.analyzerSent + [Line(Analyzer.InitiateCommand)], w.recorderSent + e.lines,
                                   w.recorderReplies[e.consumed..], true, true)
      && recorded == Recorder.RecordExchange(FileNameOf(c), w.recorderReplies).done
      && exported == e.done
    ensures trace' == trace + CycleEvents(number, c)[..Reach(recorded, exported)]
  {
    ghost var w := WireOf(fsvr, iqr);
    ghost var e := CycleExchange(FileNameOf(c), w.recorderReplies);
    fsvr.Acquire();
    ghost var acquired := fsvr.dev.sent;
    trace' := trace + [Acquired(number)];
    recorded, exported, trace' := RecordAndExport(iqr, c, number, trace');
    assert fsvr.dev.sent == acquired && fsvr.dev.connected;
    assert iqr.dev.sent == w.recorderSent + e.lines && iqr.dev.replies == w.recorderReplies[e.consumed..];
    CycleEventsFrom(trace, number, c, Reach(recorded, exported));
  }

  /**
   * The end of a cycle whose export finished: the sample format joins the
   * metadata, the header is written with it, the file number moves on and
   * the durations are added to the totals. `trace` holds the events so
   * far, up to the export of this cycle.
   */
  method Conclude(p: Params, cycles: seq<Cycle>, n: nat, books: Books, trace: seq<Event>) returns (books': Books)
    requires n < |cycles|
    requires var b := BooksAfter(p, cycles, n);
      books == b.(metadata := b.metadata["timestamp" := Str(Timestamp(cycles[n].stamp))])
    requires trace == books.trace + CycleEvents(n + 1, cycles[n])[..3]
    ensures books' == BooksAfter(p, cycles, n + 1)
  {
    var c := cycles[n];
    var fileName := FileName(c.stamp);
    PrefixStep(p, cycles, n);
    MetadataRefresh(p, if n == 0 then "" else Timestamp(cycles[n - 1].stamp), Timestamp(c.stamp));
    var metadata := books.metadata["format" := Str("int16")]["endian" := Str("little")]["resolution" := Int(16)];
    var path := HeaderPath(fileName);
    CycleEventsEnd(books.trace, n + 1, c);
    books' := Books(
      books.fileNumber + 1,
      metadata,
      books.headers + [Header(path, metadata)],
      trace + [HeaderWritten(books.fileNumber, path)],
      Add(books.totals, c.times));
  }

  /**
   * The key check after a cycle: one `getch`, and the wait when it was
   * Ctrl-e. Without Ctrl-e the loop goes on past that key (or past nothing,
   * when no key was pressed); after Ctrl-e the first space or `b` decides,
   * and with neither the wait never ends.
   */
  method CheckKeys(keys: seq<int>, at: nat) returns (v: Verdict)
    ensures v == AfterCycle(keys, at)
    ensures !(at < |keys| && keys[at] == CtrlE) ==> v == Proceed(if at < |keys| then at + 1 else at)
    ensures at < |keys| && keys[at] == CtrlE ==>
      match v
      case Quit(n) =>
        && at + 1 < n <= |keys| && keys[n - 1] == SpaceKey
        && forall i :: at < i < n - 1 ==> keys[i] != SpaceKey && keys[i] != ContinueKey
      case Proceed(n) =>
        && at + 1 < n <= |keys| && keys[n - 1] == ContinueKey
        && forall i :: at < i < n - 1 ==> keys[i] != SpaceKey && keys[i] != ContinueKey
      case Stuck =>
        forall i :: at < i < |keys| ==> keys[i] != SpaceKey && keys[i] != ContinueKey
  {
    if at < |keys| && keys[at] == CtrlE {
      DecisionMeaning(keys, at + 1);
      v := AwaitDecision(keys, at + 1);
    } else {
      v := Proceed(if at < |keys| then at + 1 else at);
    }
  }

  /**
   * Connects to both instruments, each of which is reset, then configures
   * the analyser and the recorder, in that order.
   */
  method Connect(p: Params, r: Rendering, replies: seq<string>) returns (fsvr: Analyzer.Fsvr, iqr: Recorder.Iqr)
    ensures fresh(fsvr.dev) && fresh(iqr.dev) && fsvr.dev != iqr.dev
    ensures fsvr.dev.ip == AnalyzerAddress && iqr.dev.ip == RecorderAddress
    ensures fsvr.dev.connected && iqr.dev.connected
    ensures fsvr.dev.sent == AnalyzerSent(r, 0)
    ensures iqr.dev.sent == RecorderPrelude(p)
    ensures iqr.dev.replies == replies
  {
    fsvr := new Analyzer.Fsvr(AnalyzerAddress, []);
    iqr := new Recorder.Iqr(RecorderAddress, replies);
    fsvr.IniSet(r.centerFrequencyMHz, r.samplingRateMHz, r.referenceLevelDbm);
    iqr.IniSet(FileSize(p));
  }

  /** What holds while the loop runs, before cycle `n` (counted from 0) starts. */
  predicate Going(fsvr: Analyzer.Fsvr, iqr: Recorder.Iqr, r: Rendering, p: Params, cycles: seq<Cycle>,
                  keys: seq<int>, replies: seq<string>, n: nat, books: Books, at: nat)
    reads fsvr.dev, iqr.dev
  {
    && n <= |cycles| && fsvr.dev != iqr.dev
    && Session(cycles[..n], replies).done
    && WireOf(fsvr, iqr) == WireAt(p, r, replies, cycles, n)
    && books == BooksAfter(p, cycles, n)
    && KeyRun(keys, n) == Proceed(at)
  }

  /**
   * One pass of the loop body up to the key check: `acquire`, `record`,
   * `export`; then, if the export finished, the header, the counters and
   * the key check.
   */
  method CyclePass(fsvr: Analyzer.Fsvr, iqr: Recorder.Iqr, r: Rendering, p: Params, cycles: seq<Cycle>,
                   keys: seq<int>, n: nat, at: nat, books: Books, ghost replies: seq<string>)
    returns (recorded: bool, exported: bool, books': Books, trace: seq<Event>, v: Verdict)
    requires n < |cycles| && Going(fsvr, iqr, r, p, cycles, keys, replies, n, books, at)
    modifies fsvr.dev`sent, iqr.dev`sent, iqr.dev`replies
    ensures WireOf(fsvr, iqr) == WireAt(p, r, replies, cycles, n + 1)
    ensures recorded == RecordedIn(cycles, replies, n)
    ensures exported == Session(cycles[..n + 1], replies).done
    ensures exported ==> books' == BooksAfter(p, cycles, n + 1) && v == KeyRun(keys, n + 1)
    ensures !exported ==> trace == books.trace + CycleEvents(n + 1, cycles[n])[..if recorded then 2 else 1]
  {
    var c := cycles[n];
    books' := books.(metadata := books.metadata["timestamp" := Str(Timestamp(c.stamp))]);
    WireStep(p, r, replies, cycles, n);
    CycleOutcome(p, r, replies, cycles, n);
    recorded, exported, trace := RunCycle(fsvr, iqr, c, books.fileNumber, books.trace);
    if exported {
      books' := Conclude(p, cycles, n, books', trace);
      KeyRunStep(keys, n, at);
      v := CheckKeys(keys, at);
    } else {
      v := Proceed(at);  // no key check: the recorder never finished
    }
  }

  /** What `main` has to show at a point of the run, read off the instruments. */
  function Snapshot(fsvr: Analyzer.Fsvr, iqr: Recorder.Iqr, n: nat, books: Books, trace: seq<Event>, stop: Stop): Summary
    reads fsvr.dev, iqr.dev
  {
    Summary(n, books, trace, WireOf(fsvr, iqr), stop)
  }

  /**
   * How `main` goes on from the start of cycle `n` (counted from 0), every
   * earlier cycle having finished and the operator having let the loop go
   * on: the summary the run ends with.
   */
  function Finish(p: Params, r: Rendering, replies: seq<string>, cycles: seq<Cycle>, keys: seq<int>, n: nat): Summary
    requires n <= |cycles| && Session(cycles[..n], replies).done && KeyRun(keys, n).Proceed?
    decreases |cycles| - n
  {
    var books := BooksAfter(p, cycles, n);
    if n == |cycles| then
      Summary(n, books, books.trace, WireAt(p, r, replies, cycles, n), OutOfCycles)
    else if !Session(cycles[..n + 1], replies).done then
      var recorded := RecordedIn(cycles, replies, n);
      Summary(n, books, books.trace + CycleEvents(n + 1, cycles[n])[..if recorded then 2 else 1],
              WireAt(p, r, replies, cycles, n + 1), DeviceSilent(recorded))
    else
      var books' := BooksAfter(p, cycles, n + 1);
      match KeyRun(keys, n + 1)
      case Stuck =>
        Summary(n + 1, books', books'.trace, WireAt(p, r, replies, cycles, n + 1), KeysExhausted)
      case Quit(_) =>
        Summary(n + 1, books', books'.trace + [Disconnected], WireAt(p, r, replies, cycles, n + 1).(analyzerConnected := false, recorderConnected := false), Operator)
      case Proceed(_) =>
        Finish(p, r, replies, cycles, keys, n + 1)
  }

  /** What `main` ends with, given everything it takes from outside. */
  function Main(p: Params, r: Rendering, replies: seq<string>, cycles: seq<Cycle>, keys: seq<int>): Summary {
    assert cycles[..0] == [];
    Finish(p, r, replies, cycles, keys, 0)
  }

  /**
   * How a run that completed `k` cycles ends, read off the verdict after
   * them: space disconnects both instruments, keys that run out leave
   * them as they are, and on a go-on verdict the run ends either with no
   * cycle left or in the next cycle, which the recorder left half done.
   */
  function Ending(p: Params, r: Rendering, replies: seq<string>, cycles: seq<Cycle>, keys: seq<int>, k: nat): Summary
    requires k <= |cycles|
  {
    var books := BooksAfter(p, cycles, k);
    match KeyRun(keys, k)
    case Quit(_) => Summary(k, books, books.trace + [Disconnected], WireAt(p, r, replies, cycles, k).(analyzerConnected := false, recorderConnected := false), Operator)
    case Stuck => Summary(k, books, books.trace, WireAt(p, r, replies, cycles, k), KeysExhausted)
    case Proceed(_) =>
      if k == |cycles| then Summary(k, books, books.trace, WireAt(p, r, replies, cycles, k), OutOfCycles)
      else
        var recorded := RecordedIn(cycles, replies, k);
        Summary(k, books, books.trace + CycleEvents(k + 1, cycles[k])[..if recorded then 2 else 1],
                WireAt(p, r, replies, cycles, k + 1), DeviceSilent(recorded))
  }

  /** Every run ends as `Ending` says, after the cycles it completed. */
  lemma {:induction false} FinishEnding(p: Params, r: Rendering, replies: seq<string>, cycles: seq<Cycle>, keys: seq<int>, n: nat)
    requires n <= |cycles| && Session(cycles[..n], replies).done && KeyRun(keys, n).Proceed?
    ensures var s := Finish(p, r, replies, cycles, keys, n);
      n <= s.completed <= |cycles| && s == Ending(p, r, replies, cycles, keys, s.completed)
    decreases |cycles| - n
  {
    if n == |cycles| {
    } else if !Session(cycles[..n + 1], replies).done {
      FinishSilent(p, r, replies, cycles, keys, n);
    } else {
      FinishDecided(p, r, replies, cycles, keys, n);
      if KeyRun(keys, n + 1).Proceed? {
        FinishEnding(p, r, replies, cycles, keys, n + 1);
      }
    }
  }

  /**
   * Where a run can end after `k` completed cycles: the recorder finished
   * all of them, and if the operator lets the loop go on still, either no
   * cycle is left or the recorder does not finish the next one.
   */
  predicate Reached(replies: seq<string>, cycles: seq<Cycle>, keys: seq<int>, k: nat)
    requires k <= |cycles|
  {
    && Session(cycles[..k], replies).done
    && (KeyRun(keys, k).Proceed? && k < |cycles| ==> !Session(cycles[..k + 1], replies).done)
  }

  /** A run ends at a point it can end at. */
  lemma {:induction false} FinishReached(p: Params, r: Rendering, replies: seq<string>, cycles: seq<Cycle>, keys: seq<int>, n: nat)
    requires n <= |cycles| && Session(cycles[..n], replies).done && KeyRun(keys, n).Proceed?
    ensures var k := Finish(p, r, replies, cycles, keys, n).completed;
      n <= k <= |cycles| && Reached(replies, cycles, keys, k)
    decreases |cycles| - n
  {
    if n == |cycles| {
    } else if !Session(cycles[..n + 1], replies).done {
      FinishSilent(p, r, replies, cycles, keys, n);
    } else {
      FinishDecided(p, r, replies, cycles, keys, n);
      if KeyRun(keys, n + 1).Proceed? {
        FinishReached(p, r, replies, cycles, keys, n + 1);
      }
    }
  }

  /** The operator let the loop go on after every cycle but the last one completed. */
  lemma {:induction false} FinishWentOn(p: Params, r: Rendering, replies: seq<string>, cycles: seq<Cycle>, keys: seq<int>, n: nat, j: nat)
    requires n <= |cycles| && Session(cycles[..n], replies).done && KeyRun(keys, n).Proceed?
    requires n <= j < Finish(p, r, replies, cycles, keys, n).completed
    ensures KeyRun(keys, j).Proceed?
    decreases |cycles| - n
  {
    if j > n {
      if n == |cycles| {
      } else if !Session(cycles[..n + 1], replies).done {
        FinishSilent(p, r, replies, cycles, keys, n);
      } else {
        FinishDecided(p, r, replies, cycles, keys, n);
        if KeyRun(keys, n + 1).Proceed? {
          FinishWentOn(p, r, replies, cycles, keys, n + 1, j);
        }
      }
    }
  }

  /**
   * What `main` ends with, in its own terms: the cycles it completed, all
   * of which the recorder finished and after all but the last of which the
   * operator let it go on, and the ending those cycles call for.
   */
  lemma MainEnding(p: Params, r: Rendering, replies: seq<string>, cycles: seq<Cycle>, keys: seq<int>)
    ensures var s := Main(p, r, replies, cycles, keys);
      && s.completed <= |cycles|
      && s == Ending(p, r, replies, cycles, keys, s.completed)
      && Reached(replies, cycles, keys, s.completed)
  {
    assert cycles[..0] == [];
    FinishEnding(p, r, replies, cycles, keys, 0);
    FinishReached(p, r, replies, cycles, keys, 0);
  }

  /** `main` stops at the first verdict that is not a go-on. */
  lemma MainWentOn(p: Params, r: Rendering, replies: seq<string>, cycles: seq<Cycle>, keys: seq<int>, j: nat)
    requires j < Main(p, r, replies, cycles, keys).completed
    ensures KeyRun(keys, j).Proceed?
  {
    assert cycles[..0] == [];
    FinishWentOn(p, r, replies, cycles, keys, 0, j);
  }

  /**
   * `main` stops on the operator's word only after a Ctrl-e and then a
   * space among the keys, and it then leaves both instruments disconnected.
   */
  lemma MainOperatorStop(p: Params, r: Rendering, replies: seq<string>, cycles: seq<Cycle>, keys: seq<int>)
    requires Main(p, r, replies, cycles, keys).stop == Operator
    ensures var w := Main(p, r, replies, cycles, keys).wire;
      !w.analyzerConnected && !w.recorderConnected
    ensures exists i, j :: 0 <= i < j < |keys| && keys[i] == CtrlE && keys[j] == SpaceKey
  {
    var s := Main(p, r, replies, cycles, keys);
    MainEnding(p, r, replies, cycles, keys);
    EndingStop(p, r, replies, cycles, keys, s.completed);
    QuitNeedsCtrlE(keys, s.completed);
  }

  /**
   * Why a run ends: it stops on space exactly when the verdicts say quit,
   * for lack of keys exactly when they are stuck, for lack of cycles
   * exactly when they say go on and every cycle was used, and otherwise
   * because the recorder did not finish the next cycle; the analyser and
   * the recorder are each left connected unless it stopped on space.
   */
  lemma EndingStop(p: Params, r: Rendering, replies: seq<string>, cycles: seq<Cycle>, keys: seq<int>, k: nat)
    requires k <= |cycles| && Reached(replies, cycles, keys, k)
    ensures var s := Ending(p, r, replies, cycles, keys, k);
      && s.completed == k
      && (s.stop == Operator <==> KeyRun(keys, k).Quit?)
      && (s.stop == KeysExhausted <==> KeyRun(keys, k).Stuck?)
      && (s.stop == OutOfCycles <==> KeyRun(keys, k).Proceed? && k == |cycles|)
      && (s.stop.DeviceSilent? <==> KeyRun(keys, k).Proceed? && k < |cycles| && !Session(cycles[..k + 1], replies).done)
      && (s.wire.analyzerConnected <==> s.stop != Operator)
      && (s.wire.recorderConnected <==> s.stop != Operator)
  {
  }

  /**
   * What a run leaves behind on file: file number `k + 1`, one header and
   * the summed durations per completed cycle, and the events of the
   * completed cycles followed by at most the disconnection or the start of
   * a cycle.
   */
  lemma EndingBooks(p: Params, r: Rendering, replies: seq<string>, cycles: seq<Cycle>, keys: seq<int>, k: nat)
    requires k <= |cycles| && Reached(replies, cycles, keys, k)
    ensures var s := Ending(p, r, replies, cycles, keys, k);
      && s.books.fileNumber == k + 1
      && s.books.headers == Headers(p, cycles[..k])
      && s.books.totals == Totals(cycles[..k])
      && Trace(cycles[..k]) <= s.trace
      && 4 * k <= |s.trace| <= 4 * k + 2
  {
    TraceLength(cycles[..k]);
  }

  /**
   * What the instruments were sent by the end of a run: the analyser was
   * started once per cycle begun, and the recorder went through the
   * cycles begun.
   */
  lemma EndingWire(p: Params, r: Rendering, replies: seq<string>, cycles: seq<Cycle>, keys: seq<int>, k: nat)
    requires k <= |cycles| && Reached(replies, cycles, keys, k)
    ensures var s := Ending(p, r, replies, cycles, keys, k);
      var begun := if s.stop.DeviceSilent? then k + 1 else k;
      && begun <= |cycles|
      && s.wire.analyzerSent == AnalyzerPrelude(r) + Repeat(Line(Analyzer.InitiateCommand), begun)
      && s.wire.recorderSent == RecorderPrelude(p) + Session(cycles[..begun], replies).lines
  {
    var s := Ending(p, r, replies, cycles, keys, k);
    AnalyzerSentShape(r, if s.stop.DeviceSilent? then k + 1 else k);
  }

  /** How the run ends when the recorder falls silent in cycle `n`. */
  lemma FinishSilent(p: Params, r: Rendering, replies: seq<string>, cycles: seq<Cycle>, keys: seq<int>, n: nat)
    requires n < |cycles| && Session(cycles[..n], replies).done && KeyRun(keys, n).Proceed?
    requires !Session(cycles[..n + 1], replies).done
    ensures var recorded := RecordedIn(cycles, replies, n);
      var books := BooksAfter(p, cycles, n);
      Finish(p, r, replies, cycles, keys, n) ==
        Summary(n, books, books.trace + CycleEvents(n + 1, cycles[n])[..if recorded then 2 else 1],
                WireAt(p, r, replies, cycles, n + 1), DeviceSilent(recorded))
  {
  }

  /** How the run ends, or goes on, once cycle `n` has finished and the keys were checked. */
  lemma FinishDecided(p: Params, r: Rendering, replies: seq<string>, cycles: seq<Cycle>, keys: seq<int>, n: nat)
    requires n < |cycles| && Session(cycles[..n], replies).done && KeyRun(keys, n).Proceed?
    requires Session(cycles[..n + 1], replies).done
    ensures var books := BooksAfter(p, cycles, n + 1);
      var wire := WireAt(p, r, replies, cycles, n + 1);
      Finish(p, r, replies, cycles, keys, n) ==
        match KeyRun(keys, n + 1)
        case Stuck => Summary(n + 1, books, books.trace, wire, KeysExhausted)
        case Quit(_) => Summary(n + 1, books, books.trace + [Disconnected], wire.(analyzerConnected := false, recorderConnected := false), Operator)
        case Proceed(_) => Finish(p, r, replies, cycles, keys, n + 1)
  {
  }

  /** On space: both instruments are disconnected, the analyser first. */
  method Hangup(fsvr: Analyzer.Fsvr, iqr: Recorder.Iqr)
    modifies fsvr.dev`connected, iqr.dev`connected
    ensures !fsvr.dev.connected && !iqr.dev.connected
    ensures WireOf(fsvr, iqr) == old(WireOf(fsvr, iqr)).(analyzerConnected := false, recorderConnected := false)
  {
    fsvr.dev.Disconnect();
    iqr.dev.Disconnect();
  }

  /**
   * The end of a turn whose cycle finished: the key check has decided
   * whether the loop goes on, stops for lack of keys, or stops on space.
   */
  method Decide(fsvr: Analyzer.Fsvr, iqr: Recorder.Iqr, r: Rendering, p: Params, cycles: seq<Cycle>,
                keys: seq<int>, ghost replies: seq<string>, n: nat, books: Books, v: Verdict)
    returns (run: bool, at': nat, trace: seq<Event>, stop: Stop)
    requires n < |cycles| && Session(cycles[..n], replies).done && KeyRun(keys, n).Proceed?
    requires Session(cycles[..n + 1], replies).done && WireOf(fsvr, iqr) == WireAt(p, r, replies, cycles, n + 1)
    requires fsvr.dev != iqr.dev && books == BooksAfter(p, cycles, n + 1) && v == KeyRun(keys, n + 1)
    modifies fsvr.dev`connected, iqr.dev`connected
    ensures run ==> Going(fsvr, iqr, r, p, cycles, keys, replies, n + 1, books, at')
    ensures run ==> Finish(p, r, replies, cycles, keys, n + 1) == Finish(p, r, replies, cycles, keys, n)
    ensures !run ==> Snapshot(fsvr, iqr, n + 1, books, trace, stop) == Finish(p, r, replies, cycles, keys, n)
  {
    FinishDecided(p, r, replies, cycles, keys, n);
    match v
    case Stuck =>
      return false, 0, books.trace, KeysExhausted;
    case Quit(_) =>
      Hangup(fsvr, iqr);
      return false, 0, books.trace + [Disconnected], Operator;
    case Proceed(next) =>
      return true, next, [], OutOfCycles;
  }

  /**
   * One turn of the `while run` loop of `main`: either there is no cycle
   * left, or one cycle runs, after which the loop goes on or ends.
   */
  method Advance(fsvr: Analyzer.Fsvr, iqr: Recorder.Iqr, r: Rendering, p: Params, cycles: seq<Cycle>,
                 keys: seq<int>, ghost replies: seq<string>, n: nat, books: Books, at: nat)
    returns (run: bool, n': nat, books': Books, at': nat, trace: seq<Event>, stop: Stop)
    requires Going(fsvr, iqr, r, p, cycles, keys, replies, n, books, at)
    modifies fsvr.dev`sent, fsvr.dev`connected, iqr.dev`sent, iqr.dev`replies, iqr.dev`connected
    ensures n <= n' <= |cycles| && (run ==> n' == n + 1)
    ensures run ==> Going(fsvr, iqr, r, p, cycles, keys, replies, n', books', at')
    ensures run ==> Finish(p, r, replies, cycles, keys, n') == Finish(p, r, replies, cycles, keys, n)
    ensures !run ==> Snapshot(fsvr, iqr, n', books', trace, stop) == Finish(p, r, replies, cycles, keys, n)
  {
    if n == |cycles| {
      return false, n, books, at, books.trace, OutOfCycles;
    }
    var recorded, exported, next, events, v := CyclePass(fsvr, iqr, r, p, cycles, keys, n, at, books, replies);
    if !exported {
      // the recorder fell silent: the run ends with the events of this cycle so far
      FinishSilent(p, r, replies, cycles, keys, n);
      return false, n, books, at, events, DeviceSilent(recorded);
    }
    n', books' := n + 1, next;
    run, at', trace, stop := Decide(fsvr, iqr, r, p, cycles, keys, replies, n, next, v);
  }

  /**
   * The `while run` loop of `main`, from the first cycle until one of the
   * reasons in `Stop`.
   */
  method Loop(fsvr: Analyzer.Fsvr, iqr: Recorder.Iqr, r: Rendering, p: Params, cycles: seq<Cycle>,
              keys: seq<int>, ghost replies: seq<string>)
    returns (n: nat, books: Books, trace: seq<Event>, stop: Stop)
    requires fsvr.dev != iqr.dev && WireOf(fsvr, iqr) == Wire(AnalyzerSent(r, 0), RecorderPrelude(p), replies, true, true)
    modifies fsvr.dev`sent, fsvr.dev`connected, iqr.dev`sent, iqr.dev`replies, iqr.dev`connected
    ensures Snapshot(fsvr, iqr, n, books, trace, stop) == Main(p, r, replies, cycles, keys)
  {
    books := Books(1, BaseMetadata(p), [], [], Durations(0.0, 0.0, 0.0));
    n, trace, stop := 0, [], OutOfCycles;
    var run, at := true, 0;
    assert cycles[..0] == [];
    while run
      invariant n <= |cycles|
      invariant run ==> Going(fsvr, iqr, r, p, cycles, keys, replies, n, books, at)
      invariant run ==> Finish(p, r, replies, cycles, keys, n) == Main(p, r, replies, cycles, keys)
      invariant !run ==> Snapshot(fsvr, iqr, n, books, trace, stop) == Main(p, r, replies, cycles, keys)
      decreases |cycles| - n, run
    {
      run, n, books, at, trace, stop := Advance(fsvr, iqr, r, p, cycles, keys, replies, n, books, at);
    }
  }

  /**
   * The inputs on which `main` runs without raising and with the fields the
   * model renders: a zero sampling rate makes the recorder's duration
   * (daq.py:85) divide by zero, and so does a zero sample count in the
   * recording progress (daq.py:123); `%Y` has four digits only for the years
   * 1000 to 9999, and the clock gives only dates and times within range.
   */
  predicate Admissible(p: Params, cycles: seq<Cycle>) {
    && SampleRate(p.span) != 0.0 && FileSize(p) != 0
    && forall c <- cycles :: Valid(c.stamp)
  }

  /**
   * The program's own settings pass: a 5 MHz span samples at 6.25 MHz, and
   * 2 s of it fill five blocks.
   */
  lemma DefaultsAdmissible(cycles: seq<Cycle>)
    requires forall c <- cycles :: Valid(c.stamp)
    ensures Admissible(Defaults, cycles)
    ensures SampleRate(Defaults.span) == 6250000.0 && FileSize(Defaults) == 5 * BlockSize
  {
    var x := SampleRate(Defaults.span) * Defaults.duration as real;
    assert 4.0 <= x / BlockSize as real < 5.0;
    assert Trunc(x / BlockSize as real) == 4;
  }

  /**
   * `main`: connect and configure both instruments, then run cycles until
   * one of the reasons in `Stop`; the summary is the one `Main` describes.
   */
  method Run(p: Params, r: Rendering, replies: seq<string>, cycles: seq<Cycle>, keys: seq<int>)
    returns (s: Summary)
    requires Admissible(p, cycles)
    ensures s == Main(p, r, replies, cycles, keys)
  {
    var fsvr, iqr := Connect(p, r, replies);
    var n, books, trace, stop := Loop(fsvr, iqr, r, p, cycles, keys, replies);
    s := Snapshot(fsvr, iqr, n, books, trace, stop);
  }
}

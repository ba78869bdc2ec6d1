/**
 * The I/Q recorder (`IQR` in daq.py): its configuration sequence and the two
 * polling state machines, `record` and `export`.
 *
 * Each polling loop sends one query, consumes one reply and stops on a
 * reply it recognises. What a loop does to a given reply queue is described
 * by an `Exchange`: the lines it sends, how many replies it consumes, and
 * whether it reached its terminal reply (`done`) or ran out of replies.
 */
module Recorder {
  import opened Wrappers
  import opened Text
  import opened Transport

  const Port: nat := 5025

  const StatusQuery: string := "STATus:RECorder?"
  const ArmCommand: string := "TRIGger:RECorder:ARM ONNO"
  const StartCommand: string := "TRIGger:RECorder:STARt"
  const RunningQuery: string := "SYSTem:ARCHive:RUNNing?"
  const ProgressQuery: string := "SYSTem:ARCHive:PROGress?"
  /** The progress reply that ends the export, quotes included. */
  const Complete: string := "\"100 %\""

  /** The exit condition of one polling loop, tested on the stripped reply. */
  datatype Until = Is(v: string) | IsNot(v: string)

  predicate Stops(u: Until, reply: string) {
    match u
    case Is(v) => reply == v
    case IsNot(v) => reply != v
  }

  /** Index of the first reply that ends a loop with exit condition `u`. */
  function FirstStop(u: Until, rs: seq<string>): (r: Option<nat>)
    ensures r.Some? ==> r.value < |rs|
  {
    if rs == [] then None
    else if Stops(u, Strip(rs[0])) then Some(0)
    else match FirstStop(u, rs[1..])
      case None => None
      case Some(k) => Some(k + 1)
  }

  /**
   * `FirstStop` finds the first stopping reply: the one it names stops the
   * loop and none before it does; when it names none, no reply stops the loop.
   */
  lemma {:induction false} FirstStopSpec(u: Until, rs: seq<string>)
    ensures var r := FirstStop(u, rs);
      && (r.Some? ==> Stops(u, Strip(rs[r.value])))
      && (r.Some? ==> forall i :: 0 <= i < r.value ==> !Stops(u, Strip(rs[i])))
      && (r.None? ==> forall i :: 0 <= i < |rs| ==> !Stops(u, Strip(rs[i])))
  {
    if rs != [] && !Stops(u, Strip(rs[0])) {
      FirstStopSpec(u, rs[1..]);
      assert forall i :: 1 <= i < |rs| ==> rs[1..][i - 1] == rs[i];
    }
  }

  /** Lines sent, replies consumed, and whether the terminal reply was seen. */
  datatype Exchange = Exchange(lines: seq<string>, consumed: nat, done: bool)

  /** Sequential composition: `b` starts where `a` left the reply queue. */
  function Then(a: Exchange, b: Exchange): Exchange {
    Exchange(a.lines + b.lines, a.consumed + b.consumed, b.done)
  }

  /** Commands sent without waiting for any reply. */
  function Send(cmds: seq<string>): Exchange {
    Exchange(Lines(cmds), 0, true)
  }

  /**
   * One polling loop: a query per iteration, one reply consumed per query,
   * until the first reply satisfying `u`. When the replies run out the last
   * query stays unanswered.
   */
  function PollExchange(query: string, u: Until, rs: seq<string>): (e: Exchange)
    ensures e.consumed <= |rs|
  {
    match FirstStop(u, rs)
    case Some(k) => Exchange(Repeat(Line(query), k + 1), k + 1, true)
    case None => Exchange(Repeat(Line(query), |rs| + 1), |rs|, false)
  }

  // ---------------------------------------------------------------- record

  function RecordSetup(fileName: string): seq<string> {
    [ "INPut:RECorder:WAVeform:SELect 'e:/" + fileName + "'",
      ArmCommand,
      StartCommand ]
  }

  /** `record`: select, arm, start; poll until armed ("1"), then until idle ("0"). */
  function RecordExchange(fileName: string, rs: seq<string>): (e: Exchange)
    ensures e.consumed <= |rs|
  {
    var armed := PollExchange(StatusQuery, Is("1"), rs);
    if !armed.done then Then(Send(RecordSetup(fileName)), armed)
    else Then(Then(Send(RecordSetup(fileName)), armed),
              PollExchange(StatusQuery, Is("0"), rs[armed.consumed..]))
  }

  /**
   * The recorder sees the three setup commands and then nothing but status
   * queries, one per reply consumed, plus one unanswered query when the
   * replies ran out (in which case all of them were consumed).
   */
  lemma RecordShape(fileName: string, rs: seq<string>)
    ensures var e := RecordExchange(fileName, rs);
      && e.lines == Lines(RecordSetup(fileName)) + Repeat(Line(StatusQuery), e.consumed + (if e.done then 0 else 1))
      && (!e.done ==> e.consumed == |rs|)
  {
    var armed := PollExchange(StatusQuery, Is("1"), rs);
    if armed.done {
      var rec := PollExchange(StatusQuery, Is("0"), rs[armed.consumed..]);
      RepeatAdd(Line(StatusQuery), armed.consumed, |rec.lines|);
    }
  }

  /**
   * The arming loop ends on the first reply that is exactly "1", the
   * recording loop on the next reply that is exactly "0", and on nothing else.
   */
  lemma RecordExits(fileName: string, rs: seq<string>)
    ensures var e := RecordExchange(fileName, rs);
      e.done ==> exists k ::
        && 0 <= k && k + 1 < e.consumed
        && Strip(rs[k]) == "1" && (forall i :: 0 <= i < k ==> Strip(rs[i]) != "1")
        && (forall i :: k < i < e.consumed - 1 ==> Strip(rs[i]) != "0")
        && Strip(rs[e.consumed - 1]) == "0"
  {
    var e := RecordExchange(fileName, rs);
    var armed := FirstStop(Is("1"), rs);
    FirstStopSpec(Is("1"), rs);
    if e.done {
      var k := armed.value;
      var rest := rs[k + 1..];
      FirstStopSpec(Is("0"), rest);
      var idle := FirstStop(Is("0"), rest).value;
      assert e.consumed == k + 1 + idle + 1;
      assert rest[idle] == rs[e.consumed - 1];
      forall i | k < i < e.consumed - 1 ensures Strip(rs[i]) != "0" {
        assert rest[i - k - 1] == rs[i];
      }
    }
  }

  /** `record` completes exactly when some "1" is followed, later, by a "0". */
  lemma RecordDoneIff(fileName: string, rs: seq<string>)
    ensures RecordExchange(fileName, rs).done <==>
      exists k, j :: 0 <= k < j < |rs| && Strip(rs[k]) == "1" && Strip(rs[j]) == "0"
  {
    var armed := FirstStop(Is("1"), rs);
    FirstStopSpec(Is("1"), rs);
    if armed.Some? {
      var rest := rs[armed.value + 1..];
      var idle := FirstStop(Is("0"), rest);
      FirstStopSpec(Is("0"), rest);
      if idle.Some? {
        var j := armed.value + 1 + idle.value;
        assert rest[idle.value] == rs[j];
      } else {
        forall k, j | 0 <= k < j < |rs| && Strip(rs[k]) == "1" ensures Strip(rs[j]) != "0" {
          assert rest[j - armed.value - 1] == rs[j];
        }
      }
    }
  }

  // ---------------------------------------------------------------- export

  function ExportSetup(fileName: string): seq<string> {
    [ "SYSTem:ARCHive:SOURce:FILEname 'e:/" + fileName + "'",
      "SYSTem:ARCHive:DESTination:FILEname 'z:/" + fileName + "'",
      "SYSTem:ARCHive:FORMat RAW",
      "SYSTem:ARCHive:STARt" ]
  }

  /** Deletes the waveform files on `e:` (.ws1, .wsm) and then on `f:` (.ws2). */
  function Cleanup(fileName: string): seq<string> {
    [ "MMEMory:CDIRectory 'e:'",
      "MMEMory:DELete '" + fileName + ".ws1'; *WAI",
      "MMEMory:DELete '" + fileName + ".wsm'; *WAI",
      "MMEMory:CDIRectory 'f:'",
      "MMEMory:DELete '" + fileName + ".ws2'; *WAI" ]
  }

  /**
   * The end of `export`: poll PROGress? until it is "\"100 %\""; only then
   * clean up.
   */
  function ArchiveExchange(fileName: string, rs: seq<string>): (e: Exchange)
    ensures e.consumed <= |rs|
  {
    var progress := PollExchange(ProgressQuery, Is(Complete), rs);
    if !progress.done then progress
    else Then(progress, Send(Cleanup(fileName)))
  }

  /**
   * `export`: source, destination, format, start; poll RUNNing? until it is
   * not "0", then wait for the archive to finish.
   */
  function ExportExchange(fileName: string, rs: seq<string>): (e: Exchange)
    ensures e.consumed <= |rs|
  {
    var picked := PollExchange(RunningQuery, IsNot("0"), rs);
    if !picked.done then Then(Send(ExportSetup(fileName)), picked)
    else Then(Then(Send(ExportSetup(fileName)), picked), ArchiveExchange(fileName, rs[picked.consumed..]))
  }

  /**
   * The recorder sees the four setup commands, `a` RUNNing? queries, `b`
   * PROGress? queries and, on completion only, the five cleanup commands;
   * one query per reply, plus one unanswered query when the replies ran out.
   */
  lemma ExportShape(fileName: string, rs: seq<string>)
    ensures var e := ExportExchange(fileName, rs);
      && (!e.done ==> e.consumed == |rs|)
      && exists a: nat, b: nat ::
        && a + b == e.consumed + (if e.done then 0 else 1)
        && e.lines == Lines(ExportSetup(fileName)) + Repeat(Line(RunningQuery), a) +
                      Repeat(Line(ProgressQuery), b) + (if e.done then Lines(Cleanup(fileName)) else [])
  {
    var e := ExportExchange(fileName, rs);
    var picked := PollExchange(RunningQuery, IsNot("0"), rs);
    var setup := Lines(ExportSetup(fileName));
    if !picked.done {
      assert e.lines == setup + Repeat(Line(RunningQuery), |rs| + 1) + Repeat(Line(ProgressQuery), 0) + [];
    } else {
      var progress := PollExchange(ProgressQuery, Is(Complete), rs[picked.consumed..]);
      var tail: seq<string> := if e.done then Lines(Cleanup(fileName)) else [];
      assert e.lines == setup + picked.lines + progress.lines + tail;
    }
  }

  /** A completed export, taken apart at the reply that ended each of its loops. */
  lemma ExportSplit(fileName: string, rs: seq<string>) returns (k: nat, last: nat)
    ensures var e := ExportExchange(fileName, rs);
      e.done ==>
        && FirstStop(IsNot("0"), rs) == Some(k)
        && FirstStop(Is(Complete), rs[k + 1..]) == Some(last)
        && e.consumed == k + 1 + last + 1
        && e.lines == Lines(ExportSetup(fileName)) + Repeat(Line(RunningQuery), k + 1) +
                      Repeat(Line(ProgressQuery), last + 1) + Lines(Cleanup(fileName))
  {
    var e := ExportExchange(fileName, rs);
    k, last := 0, 0;
    if e.done {
      var picked := PollExchange(RunningQuery, IsNot("0"), rs);
      var progress := PollExchange(ProgressQuery, Is(Complete), rs[picked.consumed..]);
      k := FirstStop(IsNot("0"), rs).value;
      last := FirstStop(Is(Complete), rs[k + 1..]).value;
      assert e.lines == Lines(ExportSetup(fileName)) + picked.lines + progress.lines + Lines(Cleanup(fileName));
    }
  }

  /**
   * The RUNNing? loop ends on the first reply other than "0", at index `k`,
   * and the PROGress? loop on the next reply that is exactly "\"100 %\"",
   * and on nothing else; the recorder sees one query of each kind per reply
   * given to that loop, and the cleanup after the last.
   */
  lemma ExportExits(fileName: string, rs: seq<string>) returns (k: nat)
    ensures var e := ExportExchange(fileName, rs);
      e.done ==>
        && k + 1 < e.consumed
        && Strip(rs[k]) != "0" && (forall i :: 0 <= i < k ==> Strip(rs[i]) == "0")
        && (forall i :: k < i < e.consumed - 1 ==> Strip(rs[i]) != Complete)
        && Strip(rs[e.consumed - 1]) == Complete
    ensures var e := ExportExchange(fileName, rs);
      e.done ==>
        e.lines == Lines(ExportSetup(fileName)) + Repeat(Line(RunningQuery), k + 1) +
                   Repeat(Line(ProgressQuery), e.consumed - k - 1) + Lines(Cleanup(fileName))
  {
    var e := ExportExchange(fileName, rs);
    var last;
    k, last := ExportSplit(fileName, rs);
    if e.done {
      var rest := rs[k + 1..];
      FirstStopSpec(IsNot("0"), rs);
      FirstStopSpec(Is(Complete), rest);
      assert rest[last] == rs[e.consumed - 1];
      forall i | k < i < e.consumed - 1 ensures Strip(rs[i]) != Complete {
        assert rest[i - k - 1] == rs[i];
      }
    }
  }

  /** The export completes exactly when a reply other than "0" is followed, later, by "\"100 %\"". */
  lemma ExportDoneIff(fileName: string, rs: seq<string>)
    ensures ExportExchange(fileName, rs).done <==>
      exists k, j :: 0 <= k < j < |rs| && Strip(rs[k]) != "0" && Strip(rs[j]) == Complete
  {
    var picked := FirstStop(IsNot("0"), rs);
    FirstStopSpec(IsNot("0"), rs);
    if picked.Some? {
      var rest := rs[picked.value + 1..];
      var progress := FirstStop(Is(Complete), rest);
      FirstStopSpec(Is(Complete), rest);
      if progress.Some? {
        var j := picked.value + 1 + progress.value;
        assert rest[progress.value] == rs[j];
      } else {
        forall k, j | 0 <= k < j < |rs| && Strip(rs[k]) != "0" ensures Strip(rs[j]) != Complete {
          assert rest[j - picked.value - 1] == rs[j];
        }
      }
    }
  }

  predicate IsMassMemory(line: string) {
    |line| >= 7 && line[..7] == "MMEMory"
  }

  /** A completed export ends with the cleanup, which comes after "\"100 %\"". */
  lemma CleanupLast(fileName: string, rs: seq<string>)
    ensures var e := ExportExchange(fileName, rs);
      e.done ==> |e.lines| >= 5 && e.lines[|e.lines| - 5..] == Lines(Cleanup(fileName))
  {
    var e := ExportExchange(fileName, rs);
    if e.done {
      var picked := PollExchange(RunningQuery, IsNot("0"), rs);
      var progress := PollExchange(ProgressQuery, Is(Complete), rs[picked.consumed..]);
      var head := Lines(ExportSetup(fileName)) + picked.lines + progress.lines;
      assert e.lines == head + Lines(Cleanup(fileName));
    }
  }

  /** None of the lines is a mass-memory (file) command. */
  predicate NoMassMemory(ls: seq<string>) {
    forall i :: 0 <= i < |ls| ==> !IsMassMemory(ls[i])
  }

  lemma NoMassMemoryConcat(a: seq<string>, b: seq<string>)
    requires NoMassMemory(a) && NoMassMemory(b)
    ensures NoMassMemory(a + b)
  {
    forall i | 0 <= i < |a + b|
      ensures !IsMassMemory((a + b)[i])
    {
      if i >= |a| {
        assert (a + b)[i] == b[i - |a|];
      }
    }
  }

  lemma NoMassMemoryRepeat(line: string, n: nat)
    requires !IsMassMemory(line)
    ensures NoMassMemory(Repeat(line, n))
  {
    forall i | 0 <= i < n
      ensures !IsMassMemory(Repeat(line, n)[i])
    {
      RepeatAt(line, n, i);
    }
  }

  /** The four setup commands of `export` are archive commands, not file commands. */
  lemma ExportSetupNoMassMemory(fileName: string)
    ensures NoMassMemory(Lines(ExportSetup(fileName)))
  {
    var setup := ExportSetup(fileName);
    forall i | 0 <= i < 4
      ensures !IsMassMemory(Line(setup[i]))
    {
      assert setup[i][0] == 'S' by {
        if i == 0 {
          assert setup[i] == "SYSTem:ARCHive:SOURce:FILEname 'e:/" + (fileName + "'");
        } else if i == 1 {
          assert setup[i] == "SYSTem:ARCHive:DESTination:FILEname 'z:/" + (fileName + "'");
        }
      }
      assert Line(setup[i])[0] == setup[i][0];
    }
  }

  /** An export that never completes sends no MMEMory command at all. */
  lemma NoCleanupUnlessDone(fileName: string, rs: seq<string>)
    ensures var e := ExportExchange(fileName, rs);
      !e.done ==> NoMassMemory(e.lines)
  {
    var e := ExportExchange(fileName, rs);
    var picked := PollExchange(RunningQuery, IsNot("0"), rs);
    var progress := PollExchange(ProgressQuery, Is(Complete), rs[picked.consumed..]);
    var setup := Lines(ExportSetup(fileName));
    ExportSetupNoMassMemory(fileName);
    assert Line(RunningQuery)[0] == 'S' && Line(ProgressQuery)[0] == 'S';
    NoMassMemoryRepeat(Line(RunningQuery), |picked.lines|);
    NoMassMemoryConcat(setup, picked.lines);
    if picked.done && !progress.done {
      NoMassMemoryRepeat(Line(ProgressQuery), |progress.lines|);
      NoMassMemoryConcat(setup + picked.lines, progress.lines);
    }
  }

  // ---------------------------------------------------------------- device

  /** The recorder configuration: file-size-limited recording, standalone, manual trigger. */
  function IniCommands(fileSize: int): seq<string> {
    [ "INSTrument:SELect:MODE RECorder",
      "INPut:RECorder:LIMits:CONDition FILesize",
      "INPut:RECorder:LIMits:FILesize " + IntText(fileSize),
      "TRIGger:RECorder:SYNC SALone",
      "TRIGger:RECorder:SOURce MANual" ]
  }

  /** The file-size limit the recorder is given reads back as `fileSize`. */
  lemma IniFileSizeRoundTrip(fileSize: int)
    ensures ParseInt(IniCommands(fileSize)[2][31..]) == Some(fileSize)
  {
    assert IniCommands(fileSize)[2][31..] == IntText(fileSize);
    IntTextRoundTrip(fileSize);
  }

  /** One polling loop over the instrument: query, read, stop on `u`. */
  method Poll(dev: Instrument, query: string, u: Until) returns (done: bool)
    requires dev.connected
    modifies dev`sent, dev`replies
    ensures var e := PollExchange(query, u, old(dev.replies));
      && done == e.done
      && dev.sent == old(dev.sent) + e.lines
      && dev.replies == old(dev.replies)[e.consumed..]
  {
    ghost var rs := dev.replies;
    ghost var n := 0;
    FirstStopSpec(u, rs);
    while true
      invariant 0 <= n <= |rs| && dev.replies == rs[n..]
      invariant dev.sent == old(dev.sent) + Repeat(Line(query), n)
      invariant forall i :: 0 <= i < n ==> !Stops(u, Strip(rs[i]))
      decreases |dev.replies|
    {
      dev.Write(query);
      var data := dev.Read();
      if data.Err? {
        return false;
      }
      if Stops(u, data.value) {
        return true;
      }
      n := n + 1;
    }
  }

  class Iqr {
    const dev: Instrument

    /** Connects to the recorder on port 5025; the reset is sent on connection. */
    constructor (ip: string, replies: seq<string>)
      ensures fresh(dev) && dev.ip == ip && dev.port == Port && dev.replies == replies
      ensures dev.connected && dev.sent == [Line(ResetCommand)]
    {
      dev := new Instrument(ip, Port, replies);
    }

    /** Sends the five configuration commands of `IniCommands`, in order, and nothing else. */
    method IniSet(fileSize: int)
      requires dev.connected
      modifies dev`sent
      ensures dev.sent == old(dev.sent) + Lines(IniCommands(fileSize))
      ensures dev.replies == old(dev.replies)
    {
      dev.Write("INSTrument:SELect:MODE RECorder");
      dev.Write("INPut:RECorder:LIMits:CONDition FILesize");
      dev.Write("INPut:RECorder:LIMits:FILesize " + IntText(fileSize));
      dev.Write("TRIGger:RECorder:SYNC SALone");
      dev.Write("TRIGger:RECorder:SOURce MANual");
    }

    /** Records one file; `done` is false only when the replies ran out. */
    method Record(fileName: string) returns (done: bool)
      requires dev.connected
      modifies dev`sent, dev`replies
      ensures var e := RecordExchange(fileName, old(dev.replies));
        && done == e.done
        && dev.sent == old(dev.sent) + e.lines
        && dev.replies == old(dev.replies)[e.consumed..]
    {
      dev.Write("INPut:RECorder:WAVeform:SELect 'e:/" + fileName + "'");
      dev.Write(ArmCommand);
      dev.Write(StartCommand);
      assert dev.sent == old(dev.sent) + Lines(RecordSetup(fileName));
      ghost var rs := dev.replies;
      ghost var a := PollExchange(StatusQuery, Is("1"), rs);
      var armed := Poll(dev, StatusQuery, Is("1"));
      ConcatAssoc(old(dev.sent), Lines(RecordSetup(fileName)), a.lines);
      if !armed {
        return false;
      }
      ghost var b := PollExchange(StatusQuery, Is("0"), rs[a.consumed..]);
      done := Poll(dev, StatusQuery, Is("0"));
      DropDrop(rs, a.consumed, b.consumed);
      ConcatAssoc(old(dev.sent) + Lines(RecordSetup(fileName)), a.lines, b.lines);
      ConcatAssoc(old(dev.sent), Lines(RecordSetup(fileName)), a.lines);
    }

    /** The cleanup at the end of `export`: the recorded files on `e:`, then on `f:`. */
    method RemoveWaveforms(fileName: string)
      requires dev.connected
      modifies dev`sent
      ensures dev.sent == old(dev.sent) + Lines(Cleanup(fileName))
    {
      var cleanup := Cleanup(fileName);
      dev.Write(cleanup[0]);  // change to e:
      dev.Write(cleanup[1]);  // .ws1
      dev.Write(cleanup[2]);  // .wsm
      dev.Write(cleanup[3]);  // change to f:
      dev.Write(cleanup[4]);  // .ws2
    }

    /** The start of `export`: archive `e:/<name>` to `z:/<name>` in raw format. */
    method StartArchive(fileName: string)
      requires dev.connected
      modifies dev`sent
      ensures dev.sent == old(dev.sent) + Lines(ExportSetup(fileName))
    {
      dev.Write("SYSTem:ARCHive:SOURce:FILEname 'e:/" + fileName + "'");
      dev.Write("SYSTem:ARCHive:DESTination:FILEname 'z:/" + fileName + "'");
      dev.Write("SYSTem:ARCHive:FORMat RAW");
      dev.Write("SYSTem:ARCHive:STARt");
    }

    /** The end of `export`: waits for the archive, then removes the recorded files. */
    method AwaitArchive(fileName: string) returns (done: bool)
      requires dev.connected
      modifies dev`sent, dev`replies
      ensures var e := ArchiveExchange(fileName, old(dev.replies));
        && done == e.done
        && dev.sent == old(dev.sent) + e.lines
        && dev.replies == old(dev.replies)[e.consumed..]
    {
      done := Poll(dev, ProgressQuery, Is(Complete));
      if done {
        ghost var polled := dev.sent;
        RemoveWaveforms(fileName);
        ConcatAssoc(old(dev.sent), polled[|old(dev.sent)|..], Lines(Cleanup(fileName)));
      }
    }

    /** Exports one file to `z:` and cleans up; `done` is false only when the replies ran out. */
    method Export(fileName: string) returns (done: bool)
      requires dev.connected
      modifies dev`sent, dev`replies
      ensures var e := ExportExchange(fileName, old(dev.replies));
        && done == e.done
        && dev.sent == old(dev.sent) + e.lines
        && dev.replies == old(dev.replies)[e.consumed..]
    {
      ghost var rs := dev.replies;
      StartArchive(fileName);
      ghost var p := PollExchange(RunningQuery, IsNot("0"), rs);
      var picked := Poll(dev, RunningQuery, IsNot("0"));
      ConcatAssoc(old(dev.sent), Lines(ExportSetup(fileName)), p.lines);
      if !picked {
        return false;
      }
      ghost var q := ArchiveExchange(fileName, rs[p.consumed..]);
      done := AwaitArchive(fileName);
      DropDrop(rs, p.consumed, q.consumed);
      ConcatAssoc(old(dev.sent) + Lines(ExportSetup(fileName)), p.lines, q.lines);
      ConcatAssoc(old(dev.sent), Lines(ExportSetup(fileName)), p.lines);
    }
  }
}

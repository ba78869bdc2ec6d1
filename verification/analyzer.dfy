/**
 * The spectrum analyser (`FSVR` in daq.py): one calibration query, a fixed
 * configuration sequence, and the command that starts the I/Q stream.
 */
module Analyzer {
  import opened Text
  import opened Transport

  const Port: nat := 5025
  const CalibrationQuery: string := "*CAL?"
  const InitiateCommand: string := "INITiate"

  /**
   * The commands `iniSet` sends, in order. The three numbers arrive already
   * rendered by Python's general (`g`) number format: the centre frequency and the sampling rate in MHz,
   * the reference level in dBm.
   */
  function IniCommands(cfMHz: string, sRatMHz: string, rLevDbm: string): seq<string> {
    [ CalibrationQuery,
      "TRAC:IQ ON",
      "FREQuency:CENTer " + cfMHz + "MHz",
      "TRACe:IQ:SRATe " + sRatMHz + "MHz",
      "DISP:TRAC:Y:RLEV " + rLevDbm + "dBm",
      "INP:ATT:AUTO OFF",
      "INP:ATT 0dB",
      "OUTPut:DIQ ON",
      "OUTPut:UPOR:STAT ON" ]
  }

  /**
   * The configuration reaches the analyser intact: calibration comes
   * first, and every command is recovered separately from the stream.
   */
  lemma IniCommandsFramed(cfMHz: string, sRatMHz: string, rLevDbm: string)
    requires NoNewline(cfMHz) && NoNewline(sRatMHz) && NoNewline(rLevDbm)
    ensures var cmds := IniCommands(cfMHz, sRatMHz, rLevDbm);
      Frames(Stream(Lines(cmds))) == cmds && cmds[0] == CalibrationQuery
  {
    var cmds := IniCommands(cfMHz, sRatMHz, rLevDbm);
    NoNewlineConcat3("FREQuency:CENTer ", cfMHz, "MHz");
    NoNewlineConcat3("TRACe:IQ:SRATe ", sRatMHz, "MHz");
    NoNewlineConcat3("DISP:TRAC:Y:RLEV ", rLevDbm, "dBm");
    assert NoNewline(CalibrationQuery) && NoNewline("TRAC:IQ ON") && NoNewline("INP:ATT:AUTO OFF");
    assert NoNewline("INP:ATT 0dB") && NoNewline("OUTPut:DIQ ON") && NoNewline("OUTPut:UPOR:STAT ON");
    FramesOfStream(cmds);
  }

  /** Each number is carried verbatim between its keyword and its unit. */
  lemma IniCommandsCarry(cfMHz: string, sRatMHz: string, rLevDbm: string)
    ensures var cmds := IniCommands(cfMHz, sRatMHz, rLevDbm);
      && cmds[2][17..|cmds[2]| - 3] == cfMHz
      && cmds[3][15..|cmds[3]| - 3] == sRatMHz
      && cmds[4][17..|cmds[4]| - 3] == rLevDbm
  {
    assert |"FREQuency:CENTer "| == 17 && |"TRACe:IQ:SRATe "| == 15 && |"DISP:TRAC:Y:RLEV "| == 17;
    assert |"MHz"| == 3 && |"dBm"| == 3;
    Concat3Parts("FREQuency:CENTer ", cfMHz, "MHz");
    Concat3Parts("TRACe:IQ:SRATe ", sRatMHz, "MHz");
    Concat3Parts("DISP:TRAC:Y:RLEV ", rLevDbm, "dBm");
  }

  class Fsvr {
    const dev: Instrument

    /** Connects to the analyser on port 5025; the reset is sent on connection. */
    constructor (ip: string, replies: seq<string>)
      ensures fresh(dev) && dev.ip == ip && dev.port == Port && dev.replies == replies
      ensures dev.connected && dev.sent == [Line(ResetCommand)]
    {
      dev := new Instrument(ip, Port, replies);
    }

    /**
     * Calibrates and configures: `*CAL?` and then the eight settings, in
     * the order of `IniCommands`, and nothing else. The 12 s settling
     * delay after `*CAL?` is not modelled; the calibration reply is never read.
     */
    method IniSet(cfMHz: string, sRatMHz: string, rLevDbm: string)
      requires dev.connected
      modifies dev`sent
      ensures dev.sent == old(dev.sent) + Lines(IniCommands(cfMHz, sRatMHz, rLevDbm))
    {
      dev.Write(CalibrationQuery);
      dev.Write("TRAC:IQ ON");
      dev.Write("FREQuency:CENTer " + cfMHz + "MHz");
      dev.Write("TRACe:IQ:SRATe " + sRatMHz + "MHz");
      dev.Write("DISP:TRAC:Y:RLEV " + rLevDbm + "dBm");
      dev.Write("INP:ATT:AUTO OFF");
      dev.Write("INP:ATT 0dB");
      dev.Write("OUTPut:DIQ ON");
      dev.Write("OUTPut:UPOR:STAT ON");
    }

    /** Starts the stream: exactly one `INITiate`. */
    method Acquire()
      requires dev.connected
      modifies dev`sent
      ensures dev.sent == old(dev.sent) + [Line(InitiateCommand)]
    {
      dev.Write(InitiateCommand);
    }
  }
}

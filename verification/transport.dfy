/**
 * The command/response client (`instrument` in daq.py). The TCP socket is
 * replaced by two pieces of state: `sent`, the transcript of every line
 * written to the instrument, and `replies`, the replies the instrument has
 * still to give, oldest first. One `Read` consumes exactly one reply.
 */
module Transport {
  import opened Wrappers
  import opened Text

  /** The IEEE 488.2 common commands reset, wait-to-continue and clear-status. */
  const ResetCommand: string := "*RST; *WAI; *CLS"

  class Instrument {
    const ip: string
    const port: nat
    /** Every line written to the socket, in order, newline included. */
    var sent: seq<string>
    /** The replies the instrument will give, oldest first. */
    var replies: seq<string>
    var connected: bool

    /** Connects, then resets the instrument: the reset is the first and only line sent. */
    constructor (ip: string, port: nat, replies: seq<string>)
      ensures this.ip == ip && this.port == port && this.replies == replies
      ensures connected && sent == [Line(ResetCommand)]
    {
      this.ip := ip;
      this.port := port;
      this.replies := replies;
      sent := [];
      connected := true;
      new;
      Reset();
    }

    /** Closes the connection; closing twice is harmless. */
    method Disconnect()
      modifies this`connected
      ensures !connected
    {
      connected := false;
    }

    /** Sends one command, terminated by one newline. */
    method Write(cmd: string)
      requires connected
      modifies this`sent
      ensures sent == old(sent) + [Line(cmd)]
    {
      sent := sent + [Line(cmd)];
    }

    /**
     * Receives one reply and strips surrounding whitespace. When the
     * instrument has no reply left daq.py would block forever; here
     * the read fails instead and consumes nothing.
     */
    method Read() returns (r: Result<string>)
      requires connected
      modifies this`replies
      ensures old(replies) == [] ==> r.Err? && replies == []
      ensures old(replies) != [] ==> r == Ok(Strip(old(replies)[0])) && replies == old(replies)[1..]
    {
      if replies == [] {
        r := Err("no reply");
      } else {
        r := Ok(Strip(replies[0]));
        replies := replies[1..];
      }
    }

    method Reset()
      requires connected
      modifies this`sent
      ensures sent == old(sent) + [Line(ResetCommand)]
    {
      Write(ResetCommand);
    }
  }
}

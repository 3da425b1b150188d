/** The two pieces of the outside world the readout functions touch: the
    serial handle `ser` and the wall clock `time.time()`. */
module Serial {

  /** The open serial handle. Opening and configuring the port (baud rate,
      parity, timeout) is not modelled; what the readout code observes of it
      is what it has written and the lines it gets back. */
  class SerialPort {
    /** Every string passed to `ser.write`, oldest first. */
    var written: seq<string>
    /** The lines the board has sent and nobody has read yet. */
    var pending: seq<string>

    constructor (pending: seq<string>)
      ensures written == [] && this.pending == pending
    {
      written := [];
      this.pending := pending;
    }

    /** `ser.write(data)`: appended to the log; the input queue is untouched. */
    method Write(data: string)
      modifies this
      ensures written == old(written) + [data]
      ensures pending == old(pending)
    {
      written := written + [data];
    }

    /** `ser.readlines()`: returns every pending line and leaves none. */
    method ReadLines() returns (lines: seq<string>)
      modifies this
      ensures lines == old(pending)
      ensures pending == [] && written == old(written)
    {
      lines := pending;
      pending := [];
    }
  }

  /** `time.time()`. The k-th reading of the clock is `time(k)`; nothing is
      assumed about the values (in particular not that they increase). */
  class Clock {
    const time: nat -> real
    /** How many times the clock has been read. */
    var ticks: nat

    constructor (time: nat -> real)
      ensures this.time == time && ticks == 0
    {
      this.time := time;
      ticks := 0;
    }

    method Now() returns (t: real)
      modifies this
      ensures t == time(old(ticks))
      ensures ticks == old(ticks) + 1
    {
      t := time(ticks);
      ticks := ticks + 1;
    }
  }
}

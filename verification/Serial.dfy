/** The serial port driver: linear buffers with moving pointers, refined to SerialModel. */
module SerialDriver {
  import opened SerialModel

  class Serial {
    const inbuffer: array<nat>
    var inlast: nat
    var innext: nat
    var incount: nat
    const outbuffer: array<nat>
    var outlast: nat
    var outnext: nat
    var outcount: nat
    var sending: bool
    var txd: seq<nat>  // bytes handed to the transmitter, oldest first

    ghost predicate Valid()
      reads this
    {
      && inbuffer != outbuffer && inbuffer.Length == outbuffer.Length == BUF_SIZE
      && innext <= inlast <= BUF_SIZE && incount == inlast - innext
      && outnext <= outlast <= BUF_SIZE && outcount == outlast - outnext
    }

    ghost function View(): Sio
      requires Valid()
      reads this, inbuffer, outbuffer
    {
      Sio(inbuffer[innext..inlast], inlast, outbuffer[outnext..outlast], outlast, sending, txd)
    }

    /** The variables set by _sio_init. */
    constructor ()
      ensures Valid() && View() == Sio([], 0, [], 0, false, [])
      ensures fresh(inbuffer) && fresh(outbuffer)
    {
      inbuffer := new nat[BUF_SIZE](_ => 0);
      outbuffer := new nat[BUF_SIZE](_ => 0);
      inlast, innext, incount := 0, 0, 0;
      outlast, outnext, outcount := 0, 0, 0;
      sending := false;
      txd := [];
    }

    /** _sio_read: the next input character, or -1. */
    method Read() returns (ch: int)
      requires Valid()
      modifies this
      ensures Valid()
      ensures old(View()).input == [] ==> ch == -1 && View() == old(View())
      ensures old(View()).input != [] ==> ch == old(View()).input[0] && View() == Fetch(old(View()))
    {
      ch := -1;
      if incount > 0 {
        ch := inbuffer[innext];
        innext := innext + 1;
        incount := incount - 1;
        if incount < 1 {
          inlast, innext := 0, 0;
        }
      }
    }

    /** The store in _isr_sio, for a character nobody waits for; `ok` is false when it falls outside the buffer. */
    method StoreInput(ch: nat) returns (ok: bool)
      requires Valid()
      modifies this, inbuffer
      ensures Valid() && (ok <==> Store(old(View()), ch).Fine?)
      ensures ok ==> View() == Store(old(View()), ch).sio
    {
      ok := true;
      if incount < BUF_SIZE {
        if inlast == BUF_SIZE {
          return false;
        }
        inbuffer[inlast] := ch;
        inlast := inlast + 1;
        incount := incount + 1;
      }
    }

    /** The transmitter branch of _isr_sio. */
    method SendNext()
      requires Valid()
      modifies this
      ensures Valid() && View() == Transmit(old(View()))
    {
      if sending && outcount > 0 {
        txd := txd + [outbuffer[outnext]];
        outnext := outnext + 1;
        outcount := outcount - 1;
      } else {
        outcount := 0;
        outlast, outnext := 0, 0;
        sending := false;
      }
    }

    /** _sio_write; `ok` is false when a byte falls outside the buffer. */
    method Write(ch: nat) returns (ok: bool)
      requires Valid()
      modifies this, outbuffer
      ensures Valid() && (ok <==> SerialModel.Write(old(View()), ch).Fine?)
      ensures ok ==> View() == SerialModel.Write(old(View()), ch).sio
      decreases ch == LF
    {
      ok := true;
      if ch == LF {
        ok := Write(CR);
        if !ok {
          return;
        }
      }
      if sending {
        if outlast == BUF_SIZE {
          return false;
        }
        outbuffer[outlast] := ch % 256;
        outlast := outlast + 1;
        outcount := outcount + 1;
        return;
      }
      sending := true;
      txd := txd + [ch % 256];
    }
  }
}

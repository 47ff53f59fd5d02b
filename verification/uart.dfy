/**
 * PAD-Flasher/src/protocols/uart.cpp: the `UARTProtocol` serial link.
 *
 * Operating-system calls are parameters: the descriptor `open` returns,
 * whether `tcgetattr`/`tcsetattr` succeed, the successive results of
 * `write` (a negative one is an error) and what `read` delivers (`None`
 * for an error).  Two logs stand for what the device and the kernel see:
 * `tx`, the bytes accepted by `write`, and `closes`, the descriptors
 * passed to `close`.
 */
module Uart {
  import opened Wrappers
  import opened Bits

  /** The termios speed constants `get_baud_rate` can return. */
  datatype Speed = B9600 | B19200 | B38400 | B57600 | B115200 | B230400 | B460800 | B921600

  /** The rate in baud each constant stands for. */
  function RateOf(s: Speed): int {
    match s
      case B9600 => 9600
      case B19200 => 19200
      case B38400 => 38400
      case B57600 => 57600
      case B115200 => 115200
      case B230400 => 230400
      case B460800 => 460800
      case B921600 => 921600
  }

  /** The `switch` of `get_baud_rate`: the constant for a supported rate, none for any other. */
  function SpeedFor(rate: int): (r: Option<Speed>)
    ensures r.Some? <==> rate in {9600, 19200, 38400, 57600, 115200, 230400, 460800, 921600}
  {
    if rate == 9600 then Some(B9600)
    else if rate == 19200 then Some(B19200)
    else if rate == 38400 then Some(B38400)
    else if rate == 57600 then Some(B57600)
    else if rate == 115200 then Some(B115200)
    else if rate == 230400 then Some(B230400)
    else if rate == 460800 then Some(B460800)
    else if rate == 921600 then Some(B921600)
    else None
  }

  /** Each supported rate maps to the constant for exactly that rate, and every constant is reached. */
  lemma SpeedForIsExact(rate: int, s: Speed)
    ensures SpeedFor(RateOf(s)) == Some(s)
    ensures SpeedFor(rate) == Some(s) ==> RateOf(s) == rate
  {
  }

  /** The rate `baudrate_` holds after `get_baud_rate`: unsupported rates fall back to 115200. */
  function EffectiveRate(rate: int): (r: int)
    ensures SpeedFor(r).Some?
    ensures SpeedFor(rate).Some? ==> r == rate
    ensures SpeedFor(rate).None? ==> r == 115200
  {
    if SpeedFor(rate).Some? then rate else 115200
  }

  /** Falling back is idempotent: a second `get_baud_rate` changes nothing. */
  lemma EffectiveRateIdempotent(rate: int)
    ensures EffectiveRate(EffectiveRate(rate)) == EffectiveRate(rate)
  {
  }

  /** How a `send_data` run ends. */
  datatype SendOutcome =
    | Sent        // every byte accepted; `send_data` returns true
    | WriteError  // a write returned a negative count; `send_data` returns false
    | Stalled     // the write results ran out first; the source would keep calling `write`

  /** `write` never reports more bytes than it was asked to write. */
  predicate Plausible(remaining: nat, writes: seq<int>)
    decreases |writes|
  {
    writes == [] || remaining == 0 || writes[0] < 0
    || (writes[0] <= remaining && Plausible(remaining - writes[0], writes[1..]))
  }

  /** How the write loop ends with `remaining` bytes still to go. */
  function Send(remaining: nat, writes: seq<int>): SendOutcome
    requires Plausible(remaining, writes)
    decreases |writes|
  {
    if remaining == 0 then Sent
    else if writes == [] then Stalled
    else if writes[0] < 0 then WriteError
    else Send(remaining - writes[0], writes[1..])
  }

  /** How many of the `remaining` bytes the write loop gets accepted before it ends. */
  function Accepted(remaining: nat, writes: seq<int>): (n: nat)
    requires Plausible(remaining, writes)
    ensures n <= remaining
    decreases |writes|
  {
    if remaining == 0 || writes == [] || writes[0] < 0 then 0
    else writes[0] + Accepted(remaining - writes[0], writes[1..])
  }

  /** The loop only reports success once every byte has been accepted. */
  lemma {:induction false} SentMeansAllAccepted(remaining: nat, writes: seq<int>)
    requires Plausible(remaining, writes)
    ensures Send(remaining, writes) == Sent <==> Accepted(remaining, writes) == remaining
    decreases |writes|
  {
    if remaining > 0 && writes != [] && writes[0] >= 0 {
      SentMeansAllAccepted(remaining - writes[0], writes[1..]);
    }
  }

  /** Writes that accept nothing make no progress: with bytes to send the loop never finishes. */
  lemma {:induction false} ZeroWritesStall(remaining: nat, writes: seq<int>)
    requires remaining > 0 && forall i :: 0 <= i < |writes| ==> writes[i] == 0
    ensures Plausible(remaining, writes) && Send(remaining, writes) == Stalled
    decreases |writes|
  {
    if writes != [] {
      ZeroWritesStall(remaining, writes[1..]);
    }
  }

  /** The handshake `sync_connection` sends. */
  const SYNC_BYTES: seq<u8> := [0x7E, 0xFF, 0xFF, 0x7E]
  /** The byte a synchronised device echoes. */
  const SYNC_MARK: u8 := 0x7E
  /** The size of the reply buffer of `sync_connection`. */
  const SYNC_REPLY_SIZE: nat := 8

  class UartProtocol {
    var port: string
    var baudrate: int
    var fd: int
    var connected: bool
    /** Bytes accepted by `write` on this link, oldest first. */
    var tx: seq<u8>
    /** Descriptors passed to `close`, oldest first. */
    var closes: seq<int>
    /** The speed last applied with `tcsetattr`. */
    var lineSpeed: Option<Speed>

    /** A connected link holds an open descriptor. */
    ghost predicate Valid()
      reads this
    {
      connected ==> fd >= 0
    }

    constructor (port: string, baudrate: int)
      ensures this.port == port && this.baudrate == baudrate
      ensures fd == -1 && !connected && tx == [] && closes == [] && lineSpeed == None
      ensures Valid()
    {
      this.port := port;
      this.baudrate := baudrate;
      fd := -1;
      connected := false;
      tx := [];
      closes := [];
      lineSpeed := None;
    }

    /** `get_baud_rate`: the constant for `baudrate_`, after falling back to 115200 if it is unsupported. */
    method GetBaudRate() returns (s: Speed)
      modifies this
      ensures baudrate == EffectiveRate(old(baudrate))
      ensures Some(s) == SpeedFor(baudrate)
      ensures port == old(port) && fd == old(fd) && connected == old(connected)
      ensures tx == old(tx) && closes == old(closes) && lineSpeed == old(lineSpeed)
    {
      var speed := SpeedFor(baudrate);
      if speed.None? {
        baudrate := 115200;
        return B115200;
      }
      return speed.value;
    }

    /**
     * `connect`: opens the port, reads and rewrites the attributes for raw
     * 8N1 at the configured speed, and only then marks the link connected.
     * A failed attribute call closes the descriptor but leaves `connected_`
     * as it was and `fd_` holding the closed descriptor.  A failed `open` on
     * a link that is already connected leaves it connected with `fd_ == -1`,
     * which `disconnect` then cannot undo.
     */
    method Connect(openFd: int, getAttrOk: bool, setAttrOk: bool) returns (ok: bool)
      modifies this
      ensures !old(connected) || openFd >= 0 ==> Valid()
      ensures ok <==> openFd >= 0 && getAttrOk && setAttrOk
      ensures fd == openFd
      ensures connected == (ok || old(connected))
      ensures closes == old(closes) + (if openFd >= 0 && !(getAttrOk && setAttrOk) then [openFd] else [])
      ensures baudrate == (if openFd >= 0 && getAttrOk then EffectiveRate(old(baudrate)) else old(baudrate))
      ensures lineSpeed == (if ok then SpeedFor(baudrate) else old(lineSpeed))
      ensures port == old(port) && tx == old(tx)
    {
      fd := openFd;
      if fd < 0 {
        return false;
      }
      if !getAttrOk {
        closes := closes + [fd];
        return false;
      }
      var outSpeed := GetBaudRate();
      var inSpeed := GetBaudRate();
      EffectiveRateIdempotent(old(baudrate));
      if !setAttrOk {
        closes := closes + [fd];
        return false;
      }
      lineSpeed := Some(inSpeed);
      connected := true;
      return true;
    }

    /** `disconnect`: closes an open connection; always returns true. */
    method Disconnect() returns (r: bool)
      modifies this
      ensures r
      ensures old(connected) && old(fd) >= 0 ==> !connected && fd == -1 && closes == old(closes) + [old(fd)]
      ensures !(old(connected) && old(fd) >= 0) ==> connected == old(connected) && fd == old(fd) && closes == old(closes)
      ensures old(Valid()) ==> Valid() && !connected
      ensures port == old(port) && baudrate == old(baudrate) && tx == old(tx) && lineSpeed == old(lineSpeed)
    {
      if connected && fd >= 0 {
        closes := closes + [fd];
        fd := -1;
        connected := false;
      }
      return true;
    }

    /**
     * `send_data`: nothing is written when not connected; otherwise `write`
     * is called until every byte is accepted or a call fails.
     */
    method SendData(data: seq<u8>, writes: seq<int>) returns (outcome: SendOutcome)
      requires Plausible(|data|, writes)
      modifies this
      ensures !old(connected) ==> outcome == WriteError && tx == old(tx)
      ensures old(connected) ==> outcome == Send(|data|, writes)
      ensures old(connected) ==> tx == old(tx) + data[..Accepted(|data|, writes)]
      ensures port == old(port) && baudrate == old(baudrate) && fd == old(fd) && connected == old(connected)
      ensures closes == old(closes) && lineSpeed == old(lineSpeed)
    {
      if !connected {
        return WriteError;
      }
      var total := 0;
      var k := 0;
      while total < |data|
        invariant 0 <= total <= |data| && 0 <= k <= |writes|
        invariant Plausible(|data| - total, writes[k..])
        invariant Send(|data|, writes) == Send(|data| - total, writes[k..])
        invariant Accepted(|data|, writes) == total + Accepted(|data| - total, writes[k..])
        invariant tx == old(tx) + data[..total]
        invariant port == old(port) && baudrate == old(baudrate) && fd == old(fd) && connected == old(connected)
        invariant closes == old(closes) && lineSpeed == old(lineSpeed)
        decreases |writes| - k
      {
        if k == |writes| {
          return Stalled;
        }
        var written := writes[k];
        assert writes[k..][1..] == writes[k + 1..];
        k := k + 1;
        if written < 0 {
          return WriteError;
        }
        assert data[..total + written] == data[..total] + data[total..total + written];
        tx := tx + data[total..total + written];
        total := total + written;
      }
      return Sent;
    }

    /** `receive_data`: nothing is read when not connected; otherwise the bytes `read` delivers. */
    method ReceiveData(maxLength: nat, incoming: Option<seq<u8>>) returns (ok: bool, received: seq<u8>)
      requires incoming.Some? ==> |incoming.value| <= maxLength
      ensures ok <==> connected && incoming.Some?
      ensures ok ==> received == incoming.value && |received| <= maxLength
      ensures !ok ==> received == []
    {
      if !connected || incoming.None? {
        return false, [];
      }
      return true, incoming.value;
    }

    /**
     * `sync_connection`: sends the four handshake bytes, then reads at most
     * eight reply bytes and succeeds when any of them is 0x7E.
     */
    method SyncConnection(writes: seq<int>, reply: Option<seq<u8>>) returns (ok: bool)
      requires Plausible(|SYNC_BYTES|, writes)
      requires reply.Some? ==> |reply.value| <= SYNC_REPLY_SIZE
      modifies this
      ensures ok <==> old(connected) && Send(|SYNC_BYTES|, writes) == Sent && reply.Some? && SYNC_MARK in reply.value
      ensures old(connected) ==> tx == old(tx) + SYNC_BYTES[..Accepted(|SYNC_BYTES|, writes)]
      ensures !old(connected) ==> tx == old(tx)
      ensures port == old(port) && baudrate == old(baudrate) && fd == old(fd) && connected == old(connected)
      ensures closes == old(closes) && lineSpeed == old(lineSpeed)
    {
      var sent := SendData(SYNC_BYTES, writes);
      if sent != Sent {
        return false;
      }
      var got, response := ReceiveData(SYNC_REPLY_SIZE, reply);
      if got {
        for i := 0 to |response|
          invariant SYNC_MARK !in response[..i]
        {
          if response[i] == SYNC_MARK {
            return true;
          }
          assert response[..i + 1] == response[..i] + [response[i]];
        }
        assert response[..|response|] == response;
      }
      return false;
    }
  }
}

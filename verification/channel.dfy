/**
 One channel's bookkeeping in the connection layer, as the runtimes see it: flow-control windows,
 half-close flags and the errors each operation reports.  Messages are counted in payload bytes.
 */
module Channels {
  import opened Prelude

  datatype ChannelState = ChannelState(
    localWindow: u32,          // bytes the peer may still send us
    remoteWindow: u32,         // bytes we may still send
    localMaxPacket: u32,
    remoteMaxPacket: u32,
    localEof: bool,
    remoteEof: bool,
    localClosed: bool,
    remoteClosed: bool,
    initialLocalWindow: u32,
    pendingReplenish: u32)     // consumed but not yet granted back

  datatype Fault = BadChannelState | Protocol

  predicate Sendable(ch: ChannelState) {
    !ch.localClosed && !ch.remoteClosed
  }

  /** Data and extended data are refused on a closed channel and after our own EOF. */
  predicate CanSendData(ch: ChannelState) {
    Sendable(ch) && !ch.localEof
  }

  /** Payload room in one packet: 9 header bytes for data, 13 for extended data. */
  function Capacity(ch: ChannelState, extended: bool): nat {
    var header := if extended then 13 else 9;
    if ch.remoteMaxPacket < header then 0 else Min(ch.remoteMaxPacket - header, ch.remoteWindow)
  }

  /** `send_data` / `send_extended_data` on `len` bytes: the new state and how many were taken. */
  function SendData(ch: ChannelState, extended: bool, len: nat): Result<(ChannelState, nat), Fault> {
    if !CanSendData(ch) then Err(BadChannelState)
    else
      var take := Min(len, Capacity(ch, extended));
      Ok((ch.(remoteWindow := SatSub(ch.remoteWindow, take)), take))
  }

  /** `send_datagram`: all of it, or nothing. */
  function SendDatagram(ch: ChannelState, len: nat): Result<Option<ChannelState>, Fault> {
    if !CanSendData(ch) then Err(BadChannelState)
    else if len > Capacity(ch, false) then Ok(None)
    else Ok(Some(ch.(remoteWindow := SatSub(ch.remoteWindow, len))))
  }

  function SendEof(ch: ChannelState): Result<ChannelState, Fault> {
    if ch.localClosed then Err(BadChannelState) else Ok(ch.(localEof := true))
  }

  function SendClose(ch: ChannelState): Result<ChannelState, Fault> {
    if ch.localClosed then Err(BadChannelState) else Ok(ch.(localClosed := true))
  }

  /** How much consumed data is saved up before a window adjustment is worth a packet. */
  function Threshold(ch: ChannelState): (t: nat)
    ensures 1 <= t <= Max(1, ch.initialLocalWindow / 2)
  {
    Max(1, Min(ch.initialLocalWindow / 2, Min(3 * ch.localMaxPacket, U32_MAX)))
  }

  /** `replenish_window`: the new state, and the adjustment to send if the threshold was reached. */
  function Replenish(ch: ChannelState, n: u32): (ChannelState, Option<u32>) {
    if ch.localClosed || n == 0 then (ch, None)
    else
      var pending := SatAdd(ch.pendingReplenish, n);
      if pending < Threshold(ch) then (ch.(pendingReplenish := pending), None)
      else (ch.(pendingReplenish := 0, localWindow := SatAdd(ch.localWindow, pending)), Some(pending))
  }

  /** The receive checks shared by `CHANNEL_DATA` and `CHANNEL_EXTENDED_DATA`. */
  function OnData(ch: ChannelState, len: nat): Result<ChannelState, Fault> {
    if ch.remoteEof || ch.remoteClosed then Err(Protocol)
    else if len > ch.localWindow || len > ch.localMaxPacket then Err(Protocol)
    else Ok(ch.(localWindow := ch.localWindow - len))
  }

  function OnWindowAdjust(ch: ChannelState, added: u32): ChannelState {
    ch.(remoteWindow := SatAdd(ch.remoteWindow, added))
  }

  /**
   A zero-length take is how every emitter decides to park.  The documentation reads it as "window
   exhausted"; it is that or a peer whose maximum packet leaves no room for payload.
   */
  lemma NothingTaken(ch: ChannelState, extended: bool, len: nat)
    requires CanSendData(ch)
    ensures SendData(ch, extended, len).Ok?
    ensures SendData(ch, extended, len).value.1 == 0 <==>
            len == 0 || ch.remoteWindow == 0 || ch.remoteMaxPacket <= (if extended then 13 else 9)
  {
  }

  /** Crediting moves bytes between the two counters and out to the peer; it never makes any up. */
  lemma ReplenishConserves(ch: ChannelState, n: u32)
    requires ch.localWindow + ch.pendingReplenish + n <= U32_MAX
    ensures var (ch', adjust) := Replenish(ch, n);
            && ch' == ch.(localWindow := ch'.localWindow, pendingReplenish := ch'.pendingReplenish)
            && ch'.localWindow == ch.localWindow + (if adjust.Some? then adjust.value else 0)
            && ch'.localWindow + ch'.pendingReplenish
               == ch.localWindow + ch.pendingReplenish + (if ch.localClosed then 0 else n)
            && (ch.pendingReplenish < Threshold(ch) ==> ch'.pendingReplenish < Threshold(ch'))
  {
  }
}

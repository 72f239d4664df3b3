/** Vocabulary shared by the websocket machine, the HTTP machine and the session layer. */
module Types {

  datatype Option<+T> = None | Some(value: T)

  // xrsr_src_t: the valid sources are 0 (PTT), 1 (FF), 2 (MICROPHONE) and 3 (MICROPHONE_TAP).
  const SRC_QTY: nat := 4
  const SRC_INVALID: nat := 4
  const SRC_MICROPHONE_TAP: nat := 3

  // The value -1 marks a file descriptor, a socket or a timer that is not held.
  const NONE: int := -1

  // xrsr_stream_end_reason_t
  datatype StreamWhy = AudioEof | RemoteDisconnect | LocalDisconnect | AudioReadError | DidNotBegin | NoStreamReason

  // xrsr_session_end_reason_t
  datatype SessionWhy = EndOfSpeech | EndOfText | RemoteEnd | Terminated | InternalError | WsSendError
    | AudioBeginError | AudioDurationError | ConnectFailure | ConnectTimedOut | SessionTimedOut
    | UnexpectedRemoteEnd | NoSessionReason

  /** xrsr_session_t: what the router keeps for one session group.  One destination per source, so one
      cached read end. */
  datatype Session = Session(firstStreamReq: bool, src: nat, pipeFd: int)

  /** What the library says to bytes handed to it: how many it took, that it would block, or that it failed. */
  datatype Reply = Took(n: nat) | TryLater | Refused

  /** What the outside can see a connection do, in order. */
  datatype Call =
    | PipeOpened(fd: int)
    | PipeClosed(fd: int)
    | SessionStarted
    | StreamBegan
    | StreamEnded(streamWhy: StreamWhy)
    | SessionEnded(sessionWhy: SessionWhy)
    | ConnectNotified
    | DisconnectNotified(disconnectWhy: SessionWhy)
    | ConnectionClosed
    | TimerInserted(id: int, at: int)
    | TimerUpdated(id: int, at: int)
    | TimerRemoved(id: int)
    | KeywordInfo(wanted: nat)
    | KeywordRaised(sent: nat)
    | AudioRead(bytes: nat)
    | TextSent(text: seq<char>, textReply: Reply)
    | AudioSent(offered: nat, audioReply: Reply)
    | WriteFlushed
    | FlushIncomplete

  /** Conversion to a 32-bit signed integer. */
  function ToInt32(x: int): (r: int)
    ensures -0x8000_0000 <= r < 0x8000_0000
    ensures -0x8000_0000 <= x < 0x8000_0000 ==> r == x
  {
    var m := x % 0x1_0000_0000;
    if m < 0x8000_0000 then m else m - 0x1_0000_0000
  }
}

/** Two runs of the relay: one in which a client that stays open is given the
    whole response and its end of file, and one in which a failed read truncates
    what the target gets. */
module RelayRuns {
  import opened Prelude
  import opened Streams
  import BridgeSpec
  import CopierSpec
  import opened Relay
  import opened RelayTheorems

  lemma {:induction false} RunSnoc(s: System, actions: seq<Action>, s': System, a: Action)
    requires Run(s, actions, s') && Enabled(s', a)
    ensures Run(s, actions + [a], Apply(s', a))
  {
    assert Run(Apply(s', a), [], Apply(s', a));
    assert Run(s', [a], Apply(s', a));
    RunOn(s, actions, s', [a], Apply(s', a));
  }

  lemma ReachedStep(s: System, a: Action, toTarget: seq<byte>, toClient: seq<byte>)
    requires Reached(s, toTarget, toClient) && Enabled(s, a)
    ensures Reached(Apply(s, a), toTarget, toClient)
  {
    RunSnoc(s, [], s, a);
    ReachedOn(s, [a], Apply(s, a), toTarget, toClient);
  }

  // ------------------------------------------------------------ a client that stays open

  // The system with only the target's direction under way: the client has sent
  // nothing of what it may yet send.
  function Served(script: seq<byte>, back: Path, down: CopierSpec.Copier, b: BridgeSpec.BridgeState,
                  joined: nat): System {
    System(Path(script, EMPTY, EMPTY, EMPTY, false), back, CopierSpec.Reading, down, b, 0, joined, false, false,
           NO_FAULTS, NO_FAULTS)
  }

  // A pipe through which the one byte of the response has passed, or not yet.
  function Byte(x: byte, taken: nat, eof: bool): Pipe {
    Pipe([x], taken, eof)
  }

  const ANSWERING := BridgeSpec.START.(mode := BridgeSpec.Poised(false, true))
  const ENDING := BridgeSpec.START.(mode := BridgeSpec.Shutting(1, false))
  const ANSWERED := BridgeSpec.START.(open1 := false)

  lemma Answers(script: seq<byte>, x: byte)
    ensures Reached(Served(script, Path([], Byte(x, 0, true), EMPTY, EMPTY, false), CopierSpec.Reading,
                           BridgeSpec.START, 0), script, [x])
  {
    var s := Served(script, Path([x], EMPTY, EMPTY, EMPTY, false), CopierSpec.Reading, BridgeSpec.START, 0);
    assert Run(s, [], s);
    ReachedStep(s, Send(false, 1), script, [x]);
    assert PeerStep(s.back, Send(false, 1)) == Path([], Byte(x, 0, false), EMPTY, EMPTY, false);
    s := Served(script, Path([], Byte(x, 0, false), EMPTY, EMPTY, false), CopierSpec.Reading, BridgeSpec.START, 0);
    ReachedStep(s, HalfClose(false), script, [x]);
  }

  // Poll reports the answer, and the bridge reads it.
  lemma AnswerPolled(script: seq<byte>, x: byte)
    ensures Reached(Served(script, Path([], Byte(x, 0, true), EMPTY, EMPTY, false), CopierSpec.Reading,
                           ANSWERING, 0), script, [x])
  {
    Answers(script, x);
    var s := Served(script, Path([], Byte(x, 0, true), EMPTY, EMPTY, false), CopierSpec.Reading, BridgeSpec.START, 0);
    ReachedStep(s, BridgeDo(Polled(false, true), false), script, [x]);
  }

  lemma AnswerRead(script: seq<byte>, x: byte)
    ensures Reached(Served(script, Path([], Byte(x, 1, true), EMPTY, EMPTY, false), CopierSpec.Reading,
                           BridgeSpec.START.(mode := BridgeSpec.Writing(1, [x], false)), 0), script, [x])
  {
    AnswerPolled(script, x);
    var s := Served(script, Path([], Byte(x, 0, true), EMPTY, EMPTY, false), CopierSpec.Reading, ANSWERING, 0);
    ReachedStep(s, BridgeDo(Got(1, [x]), false), script, [x]);
  }

  // The bridge writes it to the guest's stdout.
  lemma AnswerWritten(script: seq<byte>, x: byte)
    ensures Reached(Served(script, Path([], Byte(x, 1, true), Byte(x, 0, false), EMPTY, false), CopierSpec.Reading,
                           BridgeSpec.START, 0), script, [x])
  {
    AnswerRead(script, x);
    var s := Served(script, Path([], Byte(x, 1, true), EMPTY, EMPTY, false), CopierSpec.Reading,
                    BridgeSpec.START.(mode := BridgeSpec.Writing(1, [x], false)), 0);
    ReachedStep(s, BridgeDo(Put(1, [x]), false), script, [x]);
    assert HopDst(EMPTY, Put(1, [x])) == Byte(x, 0, false);
  }

  // The bridge sees the end of the response and closes stdout.
  lemma AnswerEnds(script: seq<byte>, x: byte)
    ensures Reached(Served(script, Path([], Byte(x, 1, true), Byte(x, 0, false), EMPTY, false), CopierSpec.Reading,
                           ENDING, 0), script, [x])
  {
    AnswerWritten(script, x);
    var back := Path([], Byte(x, 1, true), Byte(x, 0, false), EMPTY, false);
    var s := Served(script, back, CopierSpec.Reading, BridgeSpec.START, 0);
    ReachedStep(s, BridgeDo(Polled(false, true), false), script, [x]);
    s := Served(script, back, CopierSpec.Reading, ANSWERING, 0);
    ReachedStep(s, BridgeDo(Ended(1), false), script, [x]);
  }

  lemma StdoutClosed(script: seq<byte>, x: byte)
    ensures Reached(Served(script, Path([], Byte(x, 1, true), Byte(x, 0, true), EMPTY, false), CopierSpec.Reading,
                           ANSWERED, 0), script, [x])
  {
    AnswerEnds(script, x);
    var s := Served(script, Path([], Byte(x, 1, true), Byte(x, 0, false), EMPTY, false), CopierSpec.Reading, ENDING, 0);
    ReachedStep(s, BridgeDo(Shut(1), false), script, [x]);
  }

  // The copier takes the byte to the client's connection.
  lemma AnswerCopied(script: seq<byte>, x: byte)
    ensures Reached(Served(script, Path([], Byte(x, 1, true), Byte(x, 1, true), Byte(x, 0, false), false),
                           CopierSpec.Reading, ANSWERED, 0), script, [x])
  {
    StdoutClosed(script, x);
    var s := Served(script, Path([], Byte(x, 1, true), Byte(x, 0, true), EMPTY, false), CopierSpec.Reading,
                    ANSWERED, 0);
    ReachedStep(s, DownDo(Got(0, [x]), false), script, [x]);
    s := Served(script, Path([], Byte(x, 1, true), Byte(x, 1, true), EMPTY, false), CopierSpec.Writing([x]),
                ANSWERED, 0);
    ReachedStep(s, DownDo(Put(0, [x]), false), script, [x]);
    assert HopDst(EMPTY, Put(0, [x])) == Byte(x, 0, false);
  }

  // And forwards the half-close.
  lemma AnswerDone(script: seq<byte>, x: byte)
    ensures Reached(Served(script, Path([], Byte(x, 1, true), Byte(x, 1, true), Byte(x, 0, true), false),
                           CopierSpec.Done, ANSWERED, 0), script, [x])
  {
    AnswerCopied(script, x);
    var back := Path([], Byte(x, 1, true), Byte(x, 1, true), Byte(x, 0, false), false);
    var s := Served(script, back, CopierSpec.Reading, ANSWERED, 0);
    ReachedStep(s, DownDo(Ended(0), false), script, [x]);
    s := Served(script, back, CopierSpec.Closing, ANSWERED, 0);
    ReachedStep(s, DownDo(Shut(0), false), script, [x]);
  }

  // The client takes the byte and sees the end of file.
  lemma AnswerSeen(script: seq<byte>, x: byte)
    ensures Reached(Served(script, Path([], Byte(x, 1, true), Byte(x, 1, true), Byte(x, 1, true), true),
                           CopierSpec.Done, ANSWERED, 0), script, [x])
  {
    AnswerDone(script, x);
    var s := Served(script, Path([], Byte(x, 1, true), Byte(x, 1, true), Byte(x, 0, true), false), CopierSpec.Done,
                    ANSWERED, 0);
    ReachedStep(s, Receive(false, 1), script, [x]);
    s := Served(script, Path([], Byte(x, 1, true), Byte(x, 1, true), Byte(x, 1, true), false), CopierSpec.Done,
                ANSWERED, 0);
    ReachedStep(s, SeeEof(false), script, [x]);
  }

  // With one copier joined, short of a failure only the client's direction can go on.
  lemma ServedIsAtRest(script: seq<byte>, x: byte)
    ensures var s := Served(script, Path([], Byte(x, 1, true), Byte(x, 1, true), Byte(x, 1, true), true),
                            CopierSpec.Done, ANSWERED, 1);
      AtRest(s, false)
  {
  }

  /** A run in which nothing fails and the client never half-closes, whatever it
      still means to send: it has been given the whole response and its end of
      file, its own direction is still open at every hop, and the proxy is waiting
      for nothing but the client. */
  lemma OpenClientIsServed(script: seq<byte>, x: byte) returns (s: System)
    ensures Reached(s, script, [x]) && AtRest(s, false) && Clean(s, true) && Clean(s, false)
    ensures s.back.seenEof && s.back.p2.Drained() && s.back.p2.all == [x]
    ensures !s.fwd.p0.eof && s.fwd.script == script && s.up.Reading? && s.bridge.open0 && !s.bridge.mode.Aborted?
    ensures !s.guestClosed && !s.clientClosed
  {
    AnswerSeen(script, x);
    s := Served(script, Path([], Byte(x, 1, true), Byte(x, 1, true), Byte(x, 1, true), true), CopierSpec.Done,
                ANSWERED, 0);
    ReachedStep(s, Join, script, [x]); s := Apply(s, Join);
    ServedIsAtRest(script, x);
  }

  // ------------------------------------------------------------ a failed read

  // The system with only the client's direction under way.
  function Alone(fwd: Path, up: CopierSpec.Copier, bridge: BridgeSpec.BridgeState, f: Faults): System {
    System(fwd, Path([], EMPTY, EMPTY, EMPTY, false), up, CopierSpec.Reading, bridge, 0, 0, false, false, f, NO_FAULTS)
  }

  const POISED := BridgeSpec.START.(mode := BridgeSpec.Poised(true, false))
  const SHUTTING := BridgeSpec.START.(mode := BridgeSpec.Shutting(0, false))
  const HALF_SHUT := BridgeSpec.START.(open0 := false)

  lemma ByteSent(x: byte)
    ensures Reached(Alone(Path([], Pipe([x], 0, false), EMPTY, EMPTY, false), CopierSpec.Reading, BridgeSpec.START,
                          NO_FAULTS), [x], [])
  {
    var s := Alone(Path([x], EMPTY, EMPTY, EMPTY, false), CopierSpec.Reading, BridgeSpec.START, NO_FAULTS);
    assert Run(s, [], s);
    ReachedStep(s, Send(true, 1), [x], []);
    assert PeerStep(s.fwd, Send(true, 1)) == Path([], Pipe([x], 0, false), EMPTY, EMPTY, false);
  }

  lemma ByteCopied(x: byte)
    ensures Reached(Alone(Path([], Pipe([x], 1, false), Pipe([x], 0, false), EMPTY, false), CopierSpec.Reading,
                          BridgeSpec.START, NO_FAULTS), [x], [])
  {
    ByteSent(x);
    var s := Alone(Path([], Pipe([x], 0, false), EMPTY, EMPTY, false), CopierSpec.Reading, BridgeSpec.START, NO_FAULTS);
    ReachedStep(s, UpDo(Got(0, [x]), false), [x], []);
    s := Alone(Path([], Pipe([x], 1, false), EMPTY, EMPTY, false), CopierSpec.Writing([x]), BridgeSpec.START,
               NO_FAULTS);
    ReachedStep(s, UpDo(Put(0, [x]), false), [x], []);
    assert HopDst(EMPTY, Put(0, [x])) == Pipe([x], 0, false);
  }

  // The client's direction when its byte is on the guest's stdin.
  function Arrived(x: byte): Path {
    Path([], Pipe([x], 1, false), Pipe([x], 0, false), EMPTY, false)
  }

  lemma ByteUnread(x: byte)
    ensures Reached(Alone(Arrived(x), CopierSpec.Reading, SHUTTING, Faults(true, false)), [x], [])
  {
    ByteCopied(x);
    var s := Alone(Arrived(x), CopierSpec.Reading, BridgeSpec.START, NO_FAULTS);
    ReachedStep(s, BridgeDo(Polled(true, false), false), [x], []);
    s := Alone(Arrived(x), CopierSpec.Reading, POISED, NO_FAULTS);
    ReachedStep(s, BridgeDo(Ended(0), true), [x], []);
  }

  /** A run in which the bridge cannot read the one byte the client sent, and
      nothing else fails: the target sees the end of an empty stream, though the
      bridge lives on and the client has not even half-closed. */
  lemma ReadErrorTruncates(x: byte) returns (s: System)
    ensures Reached(s, [x], []) && !s.bridge.mode.Aborted? && Kept(s, true)
    ensures s.fwd.seenEof && s.fwd.p2.Drained() && s.fwd.p2.all == [] && !s.fwd.p0.eof
  {
    ByteUnread(x);
    s := Alone(Arrived(x), CopierSpec.Reading, SHUTTING, Faults(true, false));
    ReachedStep(s, BridgeDo(Shut(0), false), [x], []);
    s := Alone(Arrived(x).(p2 := Pipe([], 0, true)), CopierSpec.Reading, HALF_SHUT, Faults(true, false));
    ReachedStep(s, SeeEof(true), [x], []); s := Apply(s, SeeEof(true));
  }
}

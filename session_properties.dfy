/**
 * What one request, and a run of requests, does to a ServerWorker session:
 * which transitions exist, which requests are ignored, what every reply
 * contains, and the quirks of SETUP and TEARDOWN as the code has them.
 */
module SessionProperties {
  import opened Wrappers
  import opened Tokens
  import opened RtspMessage
  import opened SessionSpec

  /** The transition the request makes, if its method and the state allow one. */
  predicate Moves(s: Session, data: string, fileOpens: bool) {
    ParseRequest(data).Success? &&
    var verb := ParseRequest(data).value.verb;
    (verb == SETUP && s.state == Init && fileOpens) ||
    (verb == PLAY && s.state == Ready) ||
    (verb == PAUSE && s.state == Playing)
  }

  /**
   * The state changes exactly on three edges: INIT to READY on SETUP when the
   * file opens, READY to PLAYING on PLAY, PLAYING to READY on PAUSE; these
   * happen even when the request raises later on. TEARDOWN, unknown methods
   * and malformed requests never change the state.
   */
  lemma StateChangesOnlyOnEdges(s: Session, data: string, fileOpens: bool, draw: nat)
    ensures
      var next := Step(s, data, fileOpens, draw).0;
      (next.state != s.state <==> Moves(s, data, fileOpens)) &&
      (next.state != s.state ==>
        (s.state == Init && next.state == Ready) ||
        (s.state == Ready && next.state == Playing) ||
        (s.state == Playing && next.state == Ready))
  {
  }

  /**
   * SETUP outside INIT, PLAY outside READY, PAUSE outside PLAYING and any
   * other method are ignored: nothing changes, nothing is sent, nothing raised.
   */
  lemma OutOfStateRequestIgnored(s: Session, data: string, fileOpens: bool, draw: nat)
    requires ParseRequest(data).Success?
    requires
      var verb := ParseRequest(data).value.verb;
      (verb == SETUP && s.state != Init) ||
      (verb == PLAY && s.state != Ready) ||
      (verb == PAUSE && s.state != Playing) ||
      (verb != SETUP && verb != PLAY && verb != PAUSE && verb != TEARDOWN)
    ensures Step(s, data, fileOpens, draw) == (s, Done)
  {
  }

  /**
   * A request with one line only, or whose first line has no space, raises
   * before anything is read or written.
   */
  lemma MalformedRequestChangesNothing(s: Session, data: string, fileOpens: bool, draw: nat)
    requires '\n' !in data || ' ' !in Split(data, '\n')[0]
    ensures Step(s, data, fileOpens, draw) == (s, Raised(IndexOutOfRange))
  {
  }

  /**
   * SETUP in INIT, step by step as the code goes. A file that opens moves to
   * READY; one that fails sends nothing for its 404, and without a CSeq token
   * the 404 call itself raises before the id is drawn. Otherwise the drawn id
   * is stored, one 200 reply is sent with it (so a failed open still gets its
   * 200), and then the RTP port is stored, or, when line 3 has no fourth
   * token, the request raises with the id and the reply already in place.
   */
  lemma SetupInInit(s: Session, data: string, fileOpens: bool, draw: nat)
    requires s.state == Init
    requires ParseRequest(data).Success? && ParseRequest(data).value.verb == SETUP
    ensures
      var req := ParseRequest(data).value;
      var afterOpen := if fileOpens then s.(state := Ready, videoStream := true) else s;
      var drawn := afterOpen.(sessionId := Some(draw));
      Step(s, data, fileOpens, draw) ==
        if CSeq(req).None? then
          (if fileOpens then drawn else s, Raised(IndexOutOfRange))
        else
          var replied := drawn.(outbox := s.outbox + [ReplyText(CSeq(req).value, draw)]);
          if RtpPort(req).None? then (replied, Raised(IndexOutOfRange))
          else (replied.(rtpPort := RtpPort(req)), Done)
  {
  }

  /**
   * PLAY in READY: PLAYING and an open RTP socket first; then exactly one 200
   * reply, a fresh unset event and one more streaming worker, with nothing
   * else changed. Without a CSeq token the request raises after the first
   * two changes, leaving a PLAYING session with no event and no worker.
   */
  lemma PlayFromReady(s: Session, data: string, fileOpens: bool, draw: nat)
    requires Inv(s) && s.state == Ready
    requires ParseRequest(data).Success? && ParseRequest(data).value.verb == PLAY
    ensures
      var c := CSeq(ParseRequest(data).value);
      var playing := s.(state := Playing, rtpSocket := Some(Open));
      Step(s, data, fileOpens, draw) ==
        if c.None? then (playing, Raised(IndexOutOfRange))
        else
          (playing.(outbox := s.outbox + [ReplyText(c.value, s.sessionId.value)],
                    event := Some(Event(false)), workers := s.workers + 1), Done)
  {
  }

  /**
   * PAUSE in PLAYING: READY first. Without an event (a PLAY that raised) the
   * request then raises a KeyError on 'event' without replying; otherwise the
   * event is set, and one 200 reply is sent, or, without a CSeq token, the
   * request raises with the event already set.
   */
  lemma PauseFromPlaying(s: Session, data: string, fileOpens: bool, draw: nat)
    requires Inv(s) && s.state == Playing
    requires ParseRequest(data).Success? && ParseRequest(data).value.verb == PAUSE
    ensures
      var c := CSeq(ParseRequest(data).value);
      var signalled := s.(state := Ready, event := Some(Event(true)));
      Step(s, data, fileOpens, draw) ==
        if s.event.None? then (s.(state := Ready), Raised(MissingEntry("event")))
        else if c.None? then (signalled, Raised(IndexOutOfRange))
        else (signalled.(outbox := s.outbox + [ReplyText(c.value, s.sessionId.value)]), Done)
  {
  }

  /**
   * TEARDOWN in any state: the state never changes. With no event stored (no
   * PLAY got that far) it raises a KeyError and changes nothing. Otherwise it
   * sets the event; then, without a CSeq token, it raises with the RTP socket
   * still open, and with one it sends one 200 reply and closes the socket.
   */
  lemma TeardownInAnyState(s: Session, data: string, fileOpens: bool, draw: nat)
    requires Inv(s)
    requires ParseRequest(data).Success? && ParseRequest(data).value.verb == TEARDOWN
    ensures Step(s, data, fileOpens, draw).0.state == s.state
    ensures
      var c := CSeq(ParseRequest(data).value);
      var signalled := s.(event := Some(Event(true)));
      Step(s, data, fileOpens, draw) ==
        if s.event.None? then (s, Raised(MissingEntry("event")))
        else if c.None? then (signalled, Raised(IndexOutOfRange))
        else
          (signalled.(outbox := s.outbox + [ReplyText(c.value, s.sessionId.value)],
                      rtpSocket := Some(Closed)), Done)
  {
  }

  /**
   * Every request sends at most one reply, and that reply is the 200 text with
   * the request's CSeq token and the session id; a client reading it back gets
   * that CSeq token unchanged.
   */
  lemma EveryReplyEchoesCSeq(s: Session, data: string, fileOpens: bool, draw: nat)
    ensures
      var next := Step(s, data, fileOpens, draw).0;
      next.outbox == s.outbox ||
      (ParseRequest(data).Success? && CSeq(ParseRequest(data).value).Some? &&
       next.sessionId.Some? &&
       next.outbox == s.outbox + [ReplyText(CSeq(ParseRequest(data).value).value, next.sessionId.value)] &&
       ParseReply(next.outbox[|s.outbox|]) ==
         Some((CSeq(ParseRequest(data).value).value, next.sessionId.value)))
  {
    var next := Step(s, data, fileOpens, draw).0;
    StepSendsAtMostOneReply(s, data, fileOpens, draw);
    if next.outbox != s.outbox {
      CSeqIsSecondTokenOfLineTwo(data);
      var t := CSeq(ParseRequest(data).value).value;
      ReplyRoundTrip(t, next.sessionId.value);
    }
  }

  /** The shape of what one request sends: nothing, or one 200 reply. */
  lemma StepSendsAtMostOneReply(s: Session, data: string, fileOpens: bool, draw: nat)
    ensures
      var next := Step(s, data, fileOpens, draw).0;
      next.outbox == s.outbox ||
      (ParseRequest(data).Success? && CSeq(ParseRequest(data).value).Some? &&
       next.sessionId.Some? &&
       next.outbox == s.outbox + [ReplyText(CSeq(ParseRequest(data).value).value, next.sessionId.value)])
  {
    if ParseRequest(data).Success? {
      VerbSendsAtMostOneReply(s, ParseRequest(data).value, fileOpens, draw);
    }
  }

  /** `StepSendsAtMostOneReply` for an already parsed request. */
  lemma VerbSendsAtMostOneReply(s: Session, req: Request, fileOpens: bool, draw: nat)
    ensures
      var next := Dispatch(s, req, fileOpens, draw).0;
      next.outbox == s.outbox ||
      (CSeq(req).Some? && next.sessionId.Some? &&
       next.outbox == s.outbox + [ReplyText(CSeq(req).value, next.sessionId.value)])
  {
  }

  /**
   * Every step keeps the session invariant, given a drawn id in randint's range.
   */
  lemma StepKeepsInv(s: Session, data: string, fileOpens: bool, draw: nat)
    requires Inv(s) && InSessionRange(draw)
    ensures Inv(Step(s, data, fileOpens, draw).0)
  {
    if ParseRequest(data).Success? {
      VerbKeepsInv(s, ParseRequest(data).value, fileOpens, draw);
    }
  }

  /** `StepKeepsInv` for an already parsed request. */
  lemma VerbKeepsInv(s: Session, req: Request, fileOpens: bool, draw: nat)
    requires Inv(s) && InSessionRange(draw)
    ensures Inv(Dispatch(s, req, fileOpens, draw).0)
  {
  }

  /**
   * In a session that keeps the invariant, the only clientInfo entry a request
   * can find missing is 'event': 'session' and 'rtpSocket' are always there
   * when they are read.
   */
  lemma OnlyEventCanBeMissing(s: Session, data: string, fileOpens: bool, draw: nat)
    requires Inv(s)
    ensures
      var o := Step(s, data, fileOpens, draw).1;
      o.Raised? ==> o.fault == IndexOutOfRange || o.fault == MissingEntry("event")
  {
    if ParseRequest(data).Success? {
      VerbOnlyEventCanBeMissing(s, ParseRequest(data).value, fileOpens, draw);
    }
  }

  /** `OnlyEventCanBeMissing` for an already parsed request. */
  lemma VerbOnlyEventCanBeMissing(s: Session, req: Request, fileOpens: bool, draw: nat)
    requires Inv(s)
    ensures
      var o := Dispatch(s, req, fileOpens, draw).1;
      o.Raised? ==> o.fault == IndexOutOfRange || o.fault == MissingEntry("event")
  {
  }

  predicate DrawsInRange(inputs: seq<Input>) {
    forall i :: 0 <= i < |inputs| ==> InSessionRange(inputs[i].draw)
  }

  /**
   * Every session a run of requests reaches keeps the invariant; in particular
   * every session id ever stored lies in [100000, 999999].
   */
  lemma {:induction false} RunKeepsInv(s: Session, inputs: seq<Input>)
    requires Inv(s) && DrawsInRange(inputs)
    ensures Inv(Run(s, inputs))
    decreases |inputs|
  {
    if inputs != [] {
      var i := inputs[0];
      StepKeepsInv(s, i.data, i.fileOpens, i.draw);
      var (next, o) := Step(s, i.data, i.fileOpens, i.draw);
      if !o.Raised? {
        assert DrawsInRange(inputs[1..]) by {
          forall k | 0 <= k < |inputs[1..]| ensures InSessionRange(inputs[1..][k].draw) {
            assert inputs[1..][k] == inputs[k + 1];
          }
        }
        RunKeepsInv(next, inputs[1..]);
      }
    }
  }

  /**
   * Once a session has left INIT it never returns there, whatever arrives:
   * there is no edge back, TEARDOWN included.
   */
  lemma {:induction false} RunNeverReturnsToInit(s: Session, inputs: seq<Input>)
    requires s.state != Init
    ensures Run(s, inputs).state != Init
    decreases |inputs|
  {
    if inputs != [] {
      var i := inputs[0];
      StateChangesOnlyOnEdges(s, i.data, i.fileOpens, i.draw);
      var (next, o) := Step(s, i.data, i.fileOpens, i.draw);
      if !o.Raised? {
        RunNeverReturnsToInit(next, inputs[1..]);
      }
    }
  }
}

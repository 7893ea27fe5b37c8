/**
 * The per-client RTSP session of ServerWorker as values: a `Session` holds
 * everything processRtspRequest reads or writes (the state, the clientInfo
 * entries it stores, and the replies sent on the control socket), and `Step`
 * is the effect of one request on it. The class in module ServerWorker is
 * proved to do exactly what `Step` says.
 *
 * A Python exception ends a request half-way: everything assigned before it
 * stays assigned. `Step` therefore returns the session as it stands when the
 * exception is raised, together with an `Outcome` naming the exception.
 */
module SessionSpec {
  import opened Wrappers
  import opened RtspMessage

  datatype State = Init | Ready | Playing

  /** The RTP/UDP socket: created by PLAY, closed by TEARDOWN. */
  datatype Socket = Open | Closed

  /** The threading.Event a streaming worker polls for cancellation. */
  datatype Event = Event(isSet: bool)

  datatype ReplyCode = Ok200 | FileNotFound404 | ConnError500

  datatype Outcome = Done | Raised(fault: Fault)

  /**
   * One client's session. `videoStream`, `sessionId`, `rtpPort`, `rtpSocket`
   * and `event` are the clientInfo entries of those names (absent until first
   * stored), `workers` counts the streaming threads started, and `outbox`
   * is every reply written to the control socket, oldest first.
   */
  datatype Session = Session(
    state: State,
    videoStream: bool,
    sessionId: Option<nat>,
    rtpPort: Option<string>,
    rtpSocket: Option<Socket>,
    event: Option<Event>,
    workers: nat,
    outbox: seq<string>)

  /** A new worker: state INIT and a clientInfo holding only the control socket. */
  const Initial := Session(Init, false, None, None, None, None, 0, [])

  /** randint(100000, 999999) */
  predicate InSessionRange(n: nat) {
    100000 <= n <= 999999
  }

  /**
   * What holds of every session the requests can reach from `Initial`: a
   * drawn session id is in range; a video stream is open exactly when the
   * state has left INIT, and then a session id exists; the RTP socket exists
   * only after INIT; an event only beside an RTP socket; a worker only after
   * an event.
   */
  predicate Inv(s: Session) {
    (s.sessionId.Some? ==> InSessionRange(s.sessionId.value)) &&
    (s.videoStream <==> s.state != Init) &&
    (s.state != Init ==> s.sessionId.Some?) &&
    (s.rtpSocket.Some? ==> s.state != Init) &&
    (s.event.Some? ==> s.rtpSocket.Some?) &&
    (s.workers > 0 ==> s.event.Some?)
  }

  /**
   * replyRtsp: a 200 writes the reply text, which needs clientInfo['session']
   * (a KeyError when it was never stored); 404 and 500 only print locally.
   */
  function Reply(s: Session, code: ReplyCode, cseq: string): (r: (Session, Outcome))
    ensures r.0 == s.(outbox := r.0.outbox)
    ensures r.1.Raised? <==> code == Ok200 && s.sessionId.None?
    ensures r.1.Raised? ==> r.0 == s && r.1.fault == MissingEntry("session")
    ensures code != Ok200 ==> r.0 == s
    ensures code == Ok200 && s.sessionId.Some? ==>
      r.0.outbox == s.outbox + [ReplyText(cseq, s.sessionId.value)]
  {
    if code == Ok200 then
      match s.sessionId
      case None => (s, Raised(MissingEntry("session")))
      case Some(id) => (s.(outbox := s.outbox + [ReplyText(cseq, id)]), Done)
    else (s, Done)
  }

  /**
   * One request, lines 48-116 of processRtspRequest. A request too short to
   * name a method and a resource raises before anything changes, and replies
   * already sent are never taken back.
   */
  function Step(s: Session, data: string, fileOpens: bool, draw: nat): (r: (Session, Outcome))
    ensures ParseRequest(data).Failure? ==> r == (s, Raised(IndexOutOfRange))
    ensures s.outbox <= r.0.outbox
  {
    match ParseRequest(data)
    case Failure(f) => (s, Raised(f))
    case Success(req) => Dispatch(s, req, fileOpens, draw)
  }

  /** The branch on the request's method; any other method is ignored. */
  function Dispatch(s: Session, req: Request, fileOpens: bool, draw: nat): (r: (Session, Outcome))
    ensures req.verb !in {SETUP, PLAY, PAUSE, TEARDOWN} ==> r == (s, Done)
    ensures s.outbox <= r.0.outbox
  {
    if req.verb == SETUP then SetupStep(s, req, fileOpens, draw)
    else if req.verb == PLAY then PlayStep(s, req)
    else if req.verb == PAUSE then PauseStep(s, req)
    else if req.verb == TEARDOWN then TeardownStep(s, req)
    else (s, Done)
  }

  /**
   * SETUP, only in INIT: open the video stream (READY on success, a silent
   * 404 otherwise), draw the session id, reply 200 and store the RTP port.
   */
  function SetupStep(s: Session, req: Request, fileOpens: bool, draw: nat): (r: (Session, Outcome))
    ensures s.state != Init ==> r == (s, Done)
    ensures r.0.state != s.state <==> s.state == Init && fileOpens
    ensures r.0.state != s.state ==> r.0.state == Ready
  {
    if s.state != Init then (s, Done)
    else
      var (afterOpen, o1) :=
        if fileOpens then (s.(videoStream := true, state := Ready), Done)
        else if CSeq(req).None? then (s, Raised(IndexOutOfRange))
        else Reply(s, FileNotFound404, CSeq(req).value);
      if o1.Raised? then (afterOpen, o1)
      else
        var drawn := afterOpen.(sessionId := Some(draw));
        match CSeq(req)
        case None => (drawn, Raised(IndexOutOfRange))
        case Some(t) =>
          var (replied, o2) := Reply(drawn, Ok200, t);
          if o2.Raised? then (replied, o2)
          else
            match RtpPort(req)
            case None => (replied, Raised(IndexOutOfRange))
            case Some(p) => (replied.(rtpPort := Some(p)), Done)
  }

  /**
   * PLAY, only in READY: go to PLAYING, create the RTP socket, reply 200,
   * then install a fresh unset event and start one streaming worker.
   */
  function PlayStep(s: Session, req: Request): (r: (Session, Outcome))
    ensures s.state != Ready ==> r == (s, Done)
    ensures s.state == Ready ==> r.0.state == Playing && r.0.rtpSocket == Some(Open)
  {
    if s.state != Ready then (s, Done)
    else
      var playing := s.(state := Playing, rtpSocket := Some(Open));
      match CSeq(req)
      case None => (playing, Raised(IndexOutOfRange))
      case Some(t) =>
        var (replied, o) := Reply(playing, Ok200, t);
        if o.Raised? then (replied, o)
        else (replied.(event := Some(Event(false)), workers := replied.workers + 1), Done)
  }

  /** PAUSE, only in PLAYING: go to READY, set the event, reply 200. */
  function PauseStep(s: Session, req: Request): (r: (Session, Outcome))
    ensures s.state != Playing ==> r == (s, Done)
    ensures s.state == Playing ==> r.0.state == Ready
  {
    if s.state != Playing then (s, Done)
    else
      var ready := s.(state := Ready);
      match ready.event
      case None => (ready, Raised(MissingEntry("event")))
      case Some(_) =>
        var signalled := ready.(event := Some(Event(true)));
        match CSeq(req)
        case None => (signalled, Raised(IndexOutOfRange))
        case Some(t) => Reply(signalled, Ok200, t)
  }

  /** TEARDOWN, in any state: set the event, reply 200, close the RTP socket. */
  function TeardownStep(s: Session, req: Request): (r: (Session, Outcome))
    ensures r.0.state == s.state
    ensures r.1.Done? ==> r.0.event == Some(Event(true)) && r.0.rtpSocket == Some(Closed)
  {
    match s.event
    case None => (s, Raised(MissingEntry("event")))
    case Some(_) =>
      var signalled := s.(event := Some(Event(true)));
      match CSeq(req)
      case None => (signalled, Raised(IndexOutOfRange))
      case Some(t) =>
        var (replied, o) := Reply(signalled, Ok200, t);
        if o.Raised? then (replied, o)
        else
          match replied.rtpSocket
          case None => (replied, Raised(MissingEntry("rtpSocket")))
          case Some(_) => (replied.(rtpSocket := Some(Closed)), Done)
  }

  /** One request as it arrives, with the two facts outside the worker's control. */
  datatype Input = Input(data: string, fileOpens: bool, draw: nat)

  /**
   * The control thread: requests in arrival order; the first exception ends
   * the thread, and later requests are never processed. The replies of
   * earlier requests are never altered or withdrawn.
   */
  function Run(s: Session, inputs: seq<Input>): (r: Session)
    ensures s.outbox <= r.outbox
    decreases |inputs|
  {
    if inputs == [] then s
    else
      var (next, o) := Step(s, inputs[0].data, inputs[0].fileOpens, inputs[0].draw);
      if o.Raised? then next else Run(next, inputs[1..])
  }
}

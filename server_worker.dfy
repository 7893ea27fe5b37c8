/**
 * ServerWorker: one client's RTSP controller. Each object owns its state and
 * its clientInfo entries; processRtspRequest updates them in place and writes
 * replies to the control socket, modelled as the `outbox` sequence.
 *
 * The two facts the worker gets from outside are parameters: whether the
 * video file opens (`fileOpens`) and the number randint drew (`draw`).
 */
module ServerWorker {
  import opened Wrappers
  import opened RtspMessage
  import opened SessionSpec
  import SessionProperties

  class ServerWorker {
    var state: State
    var videoStream: bool
    var sessionId: Option<nat>
    var rtpPort: Option<string>
    var rtpSocket: Option<Socket>
    var event: Option<Event>
    var workers: nat
    var outbox: seq<string>

    /** The object's fields as a `Session` value. */
    function Snapshot(): Session
      reads this
    {
      Session(state, videoStream, sessionId, rtpPort, rtpSocket, event, workers, outbox)
    }

    ghost predicate Valid()
      reads this
    {
      Inv(Snapshot())
    }

    /** A worker for a freshly accepted connection: INIT, nothing stored, nothing sent. */
    constructor ()
      ensures Snapshot() == Initial && Valid()
    {
      state := Init;
      videoStream := false;
      sessionId := None;
      rtpPort := None;
      rtpSocket := None;
      event := None;
      workers := 0;
      outbox := [];
    }

    /** replyRtsp: only a 200 writes to the control socket. */
    method ReplyRtsp(code: ReplyCode, cseq: string) returns (outcome: Outcome)
      modifies this
      ensures (Snapshot(), outcome) == Reply(old(Snapshot()), code, cseq)
    {
      outcome := Done;
      if code == Ok200 {
        if sessionId.None? {
          outcome := Raised(MissingEntry("session"));
          return;
        }
        outbox := outbox + [ReplyText(cseq, sessionId.value)];
      }
      // FileNotFound404 and ConnError500 are printed on the server only.
    }

    /**
     * processRtspRequest. The new fields are exactly what `Step` gives for the
     * old ones, and a worker that satisfied the session invariant still does.
     * Each branch of the method's if/elif chain is one of the methods below.
     */
    method ProcessRtspRequest(data: string, fileOpens: bool, draw: nat) returns (outcome: Outcome)
      requires InSessionRange(draw)
      modifies this
      ensures (Snapshot(), outcome) == Step(old(Snapshot()), data, fileOpens, draw)
      ensures old(Valid()) ==> Valid()
    {
      if Valid() {
        SessionProperties.StepKeepsInv(Snapshot(), data, fileOpens, draw);
      }
      var parsed := ParseRequest(data);
      if parsed.Failure? {
        return Raised(parsed.error);
      }
      var req := parsed.value;
      if req.verb == SETUP {
        outcome := Setup(req, fileOpens, draw);
      } else if req.verb == PLAY {
        outcome := Play(req);
      } else if req.verb == PAUSE {
        outcome := Pause(req);
      } else if req.verb == TEARDOWN {
        outcome := Teardown(req);
      } else {
        outcome := Done;
      }
    }

    /** The SETUP branch: acts only in INIT. */
    method Setup(req: Request, fileOpens: bool, draw: nat) returns (outcome: Outcome)
      modifies this
      ensures (Snapshot(), outcome) == SetupStep(old(Snapshot()), req, fileOpens, draw)
    {
      outcome := Done;
      if state == Init {
        var cseq := CSeq(req);
        if fileOpens {
          videoStream := true;
          state := Ready;
        } else {
          if cseq.None? {
            return Raised(IndexOutOfRange);
          }
          outcome := ReplyRtsp(FileNotFound404, cseq.value);
        }
        sessionId := Some(draw);
        if cseq.None? {
          return Raised(IndexOutOfRange);
        }
        outcome := ReplyRtsp(Ok200, cseq.value);
        if outcome.Raised? {
          return;
        }
        var port := RtpPort(req);
        if port.None? {
          return Raised(IndexOutOfRange);
        }
        rtpPort := port;
      }
    }

    /** The PLAY branch: acts only in READY. */
    method Play(req: Request) returns (outcome: Outcome)
      modifies this
      ensures (Snapshot(), outcome) == PlayStep(old(Snapshot()), req)
    {
      outcome := Done;
      if state == Ready {
        state := Playing;
        rtpSocket := Some(Open);
        var cseq := CSeq(req);
        if cseq.None? {
          return Raised(IndexOutOfRange);
        }
        outcome := ReplyRtsp(Ok200, cseq.value);
        if outcome.Raised? {
          return;
        }
        event := Some(Event(false));
        workers := workers + 1;
      }
    }

    /** The PAUSE branch: acts only in PLAYING. */
    method Pause(req: Request) returns (outcome: Outcome)
      modifies this
      ensures (Snapshot(), outcome) == PauseStep(old(Snapshot()), req)
    {
      outcome := Done;
      if state == Playing {
        state := Ready;
        if event.None? {
          return Raised(MissingEntry("event"));
        }
        event := Some(Event(true));
        var cseq := CSeq(req);
        if cseq.None? {
          return Raised(IndexOutOfRange);
        }
        outcome := ReplyRtsp(Ok200, cseq.value);
      }
    }

    /** The TEARDOWN branch: acts in every state. */
    method Teardown(req: Request) returns (outcome: Outcome)
      modifies this
      ensures (Snapshot(), outcome) == TeardownStep(old(Snapshot()), req)
    {
      if event.None? {
        return Raised(MissingEntry("event"));
      }
      event := Some(Event(true));
      var cseq := CSeq(req);
      if cseq.None? {
        return Raised(IndexOutOfRange);
      }
      outcome := ReplyRtsp(Ok200, cseq.value);
      if outcome.Raised? {
        return;
      }
      if rtpSocket.None? {
        return Raised(MissingEntry("rtpSocket"));
      }
      rtpSocket := Some(Closed);
    }
  }
}

/**
 * A whole session as a client drives it: SETUP, PLAY, PAUSE, TEARDOWN on one
 * video file, with the request texts a client writes (three lines, the
 * transport line carrying the client's RTP port as its fourth token).
 */
module Scenario {
  import opened Wrappers
  import opened Tokens
  import opened RtspMessage
  import opened SessionSpec
  import opened SessionProperties

  /** Three separator-free lines joined by the separator split back into those lines. */
  lemma SplitThree(a: string, b: string, c: string, sep: char)
    requires sep !in a && sep !in b && sep !in c
    ensures Split(a + [sep] + b + [sep] + c, sep) == [a, b, c]
  {
    SplitTwo(b, c, sep);
    SplitAfterHead(a, sep, b + [sep] + c);
    assert a + [sep] + b + [sep] + c == a + [sep] + (b + [sep] + c);
  }

  lemma SplitTwo(a: string, b: string, sep: char)
    requires sep !in a && sep !in b
    ensures Split(a + [sep] + b, sep) == [a, b]
  {
    SplitWithoutSep(b, sep);
    SplitAfterHead(a, sep, b);
  }

  /** A token: no space, no newline. */
  predicate IsToken(t: string) {
    ' ' !in t && '\n' !in t
  }

  /** A three-line request: "<verb> <resource> <version>", "<key> <cseq>", then `last`. */
  function Request(verb: string, resource: string, version: string, key: string, cseq: string, last: string): string
  {
    verb + " " + resource + " " + version + "\n" + key + " " + cseq + "\n" + last
  }

  /** A transport line whose fourth token is the client's RTP port. */
  function TransportLine(t0: string, t1: string, t2: string, port: string): string
  {
    t0 + " " + t1 + " " + t2 + " " + port
  }

  lemma TokensOf(verb: string, resource: string, version: string)
    requires IsToken(verb) && IsToken(resource) && IsToken(version)
    ensures Split(verb + " " + resource + " " + version, ' ') == [verb, resource, version]
    ensures '\n' !in verb + " " + resource + " " + version
  {
    SplitThree(verb, resource, version, ' ');
    assert verb + " " + resource + " " + version == verb + [' '] + resource + [' '] + version;
  }

  /** How a request of that shape is read. */
  lemma ReadRequest(verb: string, resource: string, version: string, key: string, cseq: string, last: string)
    requires IsToken(verb) && IsToken(resource) && IsToken(version) && IsToken(key) && IsToken(cseq)
    requires '\n' !in last
    ensures ParseRequest(Request(verb, resource, version, key, cseq, last)) ==
      Success(RtspMessage.Request([verb + " " + resource + " " + version, key + " " + cseq, last],
                                  verb, resource, [key, cseq]))
  {
    var line1 := verb + " " + resource + " " + version;
    var line2 := key + " " + cseq;
    TokensOf(verb, resource, version);
    SplitTwo(key, cseq, ' ');
    assert line2 == key + [' '] + cseq;
    assert '\n' !in line2 by {
      forall x | x in line2 ensures x != '\n' {
        assert x in key || x == ' ' || x in cseq;
      }
    }
    SplitThree(line1, line2, last, '\n');
    assert Request(verb, resource, version, key, cseq, last) == line1 + ['\n'] + line2 + ['\n'] + last;
  }

  /** The port is the fourth ' '-token of a transport line. */
  lemma PortOfTransport(t0: string, t1: string, t2: string, port: string)
    requires IsToken(t0) && IsToken(t1) && IsToken(t2) && IsToken(port)
    ensures Split(TransportLine(t0, t1, t2, port), ' ') == [t0, t1, t2, port]
    ensures '\n' !in TransportLine(t0, t1, t2, port)
  {
    var pieces := [t0, t1, t2, port];
    SplitJoin(pieces, ' ');
    assert Join(pieces[3..], ' ') == port;
    assert Join(pieces[2..], ' ') == t2 + [' '] + port;
    assert Join(pieces[1..], ' ') == t1 + [' '] + (t2 + [' '] + port);
    assert Join(pieces, ' ') == TransportLine(t0, t1, t2, port);
    SplitMany(TransportLine(t0, t1, t2, port), '\n');
  }

  /**
   * Any well-formed SETUP (file present, id drawn in range), PLAY, PAUSE,
   * TEARDOWN sequence: four 200 replies echoing the four CSeq tokens with the
   * drawn id, the RTP port taken from the transport line, the state back at
   * READY after the PAUSE and left there by TEARDOWN, the event set, the RTP
   * socket closed and exactly one streaming worker started.
   */
  lemma SetupPlayPauseTeardown(
    resource: string, version: string, key: string,
    c1: string, c2: string, c3: string, c4: string,
    t0: string, t1: string, t2: string, port: string, last: string, id: nat)
    requires IsToken(resource) && IsToken(version) && IsToken(key)
    requires IsToken(c1) && IsToken(c2) && IsToken(c3) && IsToken(c4)
    requires IsToken(t0) && IsToken(t1) && IsToken(t2) && IsToken(port) && '\n' !in last
    requires InSessionRange(id)
    ensures
      var inputs := [
        Input(Request(SETUP, resource, version, key, c1, TransportLine(t0, t1, t2, port)), true, id),
        Input(Request(PLAY, resource, version, key, c2, last), true, id),
        Input(Request(PAUSE, resource, version, key, c3, last), true, id),
        Input(Request(TEARDOWN, resource, version, key, c4, last), true, id)];
      Run(Initial, inputs) ==
        Session(Ready, true, Some(id), Some(port), Some(Closed), Some(Event(true)), 1,
                [ReplyText(c1, id), ReplyText(c2, id), ReplyText(c3, id), ReplyText(c4, id)])
  {
    var s1 := SetupStepOf(resource, version, key, c1, t0, t1, t2, port, id);
    var s2 := PlayStepOf(s1, resource, version, key, c2, last, id);
    var s3 := PauseStepOf(s2, resource, version, key, c3, last, id);
    var s4 := TeardownStepOf(s3, resource, version, key, c4, last, id);
    assert s2 == Session(Playing, true, Some(id), Some(port), Some(Open), Some(Event(false)), 1,
                         [ReplyText(c1, id), ReplyText(c2, id)]);
    assert s3 == Session(Ready, true, Some(id), Some(port), Some(Open), Some(Event(true)), 1,
                         [ReplyText(c1, id), ReplyText(c2, id), ReplyText(c3, id)]);
    assert s4 == Session(Ready, true, Some(id), Some(port), Some(Closed), Some(Event(true)), 1,
                         [ReplyText(c1, id), ReplyText(c2, id), ReplyText(c3, id), ReplyText(c4, id)]);
    RunOfFour(Initial, s1, s2, s3, s4,
      Request(SETUP, resource, version, key, c1, TransportLine(t0, t1, t2, port)),
      Request(PLAY, resource, version, key, c2, last),
      Request(PAUSE, resource, version, key, c3, last),
      Request(TEARDOWN, resource, version, key, c4, last), id);
  }

  /** Four requests that each complete, one after the other. */
  lemma RunOfFour(s0: Session, s1: Session, s2: Session, s3: Session, s4: Session,
                  d1: string, d2: string, d3: string, d4: string, id: nat)
    requires Step(s0, d1, true, id) == (s1, Done)
    requires Step(s1, d2, true, id) == (s2, Done)
    requires Step(s2, d3, true, id) == (s3, Done)
    requires Step(s3, d4, true, id) == (s4, Done)
    ensures Run(s0, [Input(d1, true, id), Input(d2, true, id), Input(d3, true, id), Input(d4, true, id)]) == s4
  {
    var i1, i2, i3, i4 := Input(d1, true, id), Input(d2, true, id), Input(d3, true, id), Input(d4, true, id);
    assert Run(s4, []) == s4;
    assert [i4][1..] == [];
    assert Run(s3, [i4]) == s4;
    assert [i3, i4][1..] == [i4];
    assert Run(s2, [i3, i4]) == s4;
    assert [i2, i3, i4][1..] == [i3, i4];
    assert Run(s1, [i2, i3, i4]) == s4;
    assert [i1, i2, i3, i4][1..] == [i2, i3, i4];
  }

  lemma SetupStepOf(resource: string, version: string, key: string, c1: string,
                    t0: string, t1: string, t2: string, port: string, id: nat)
      returns (s1: Session)
    requires IsToken(resource) && IsToken(version) && IsToken(key) && IsToken(c1)
    requires IsToken(t0) && IsToken(t1) && IsToken(t2) && IsToken(port)
    ensures s1 == Session(Ready, true, Some(id), Some(port), None, None, 0, [ReplyText(c1, id)])
    ensures Step(Initial, Request(SETUP, resource, version, key, c1, TransportLine(t0, t1, t2, port)), true, id)
      == (s1, Done)
  {
    var d := Request(SETUP, resource, version, key, c1, TransportLine(t0, t1, t2, port));
    assert IsToken(SETUP);
    PortOfTransport(t0, t1, t2, port);
    ReadRequest(SETUP, resource, version, key, c1, TransportLine(t0, t1, t2, port));
    var req := ParseRequest(d).value;
    assert req.lines[2] == TransportLine(t0, t1, t2, port);
    assert RtpPort(req) == Some(port);
    assert CSeq(req) == Some(c1);
    SetupInInit(Initial, d, true, id);
    s1 := Session(Ready, true, Some(id), Some(port), None, None, 0, [ReplyText(c1, id)]);
    assert Initial.outbox + [ReplyText(c1, id)] == [ReplyText(c1, id)];
    var replied := Initial.(sessionId := Some(id), outbox := Initial.outbox + [ReplyText(c1, id)],
                            rtpPort := RtpPort(req));
    assert replied.(state := Ready, videoStream := true) == s1;
  }

  lemma PlayStepOf(s: Session, resource: string, version: string, key: string, c: string, last: string, id: nat)
      returns (next: Session)
    requires s == Session(Ready, true, Some(id), s.rtpPort, None, None, 0, s.outbox) && InSessionRange(id)
    requires IsToken(resource) && IsToken(version) && IsToken(key) && IsToken(c) && '\n' !in last
    ensures next == s.(state := Playing, rtpSocket := Some(Open), event := Some(Event(false)),
                       workers := 1, outbox := s.outbox + [ReplyText(c, id)])
    ensures Step(s, Request(PLAY, resource, version, key, c, last), true, id) == (next, Done)
  {
    assert IsToken(PLAY);
    ReadRequest(PLAY, resource, version, key, c, last);
    PlayFromReady(s, Request(PLAY, resource, version, key, c, last), true, id);
    next := s.(state := Playing, rtpSocket := Some(Open), event := Some(Event(false)),
               workers := 1, outbox := s.outbox + [ReplyText(c, id)]);
  }

  lemma PauseStepOf(s: Session, resource: string, version: string, key: string, c: string, last: string, id: nat)
      returns (next: Session)
    requires s.state == Playing && s.videoStream && s.sessionId == Some(id) && InSessionRange(id)
    requires s.rtpSocket == Some(Open) && s.event == Some(Event(false)) && s.workers == 1
    requires IsToken(resource) && IsToken(version) && IsToken(key) && IsToken(c) && '\n' !in last
    ensures next == s.(state := Ready, event := Some(Event(true)), outbox := s.outbox + [ReplyText(c, id)])
    ensures Step(s, Request(PAUSE, resource, version, key, c, last), true, id) == (next, Done)
  {
    assert IsToken(PAUSE);
    ReadRequest(PAUSE, resource, version, key, c, last);
    PauseFromPlaying(s, Request(PAUSE, resource, version, key, c, last), true, id);
    next := s.(state := Ready, event := Some(Event(true)), outbox := s.outbox + [ReplyText(c, id)]);
  }

  lemma TeardownStepOf(s: Session, resource: string, version: string, key: string, c: string, last: string, id: nat)
      returns (next: Session)
    requires s.state == Ready && s.videoStream && s.sessionId == Some(id) && InSessionRange(id)
    requires s.rtpSocket == Some(Open) && s.event == Some(Event(true)) && s.workers == 1
    requires IsToken(resource) && IsToken(version) && IsToken(key) && IsToken(c) && '\n' !in last
    ensures next == s.(rtpSocket := Some(Closed), outbox := s.outbox + [ReplyText(c, id)])
    ensures Step(s, Request(TEARDOWN, resource, version, key, c, last), true, id) == (next, Done)
  {
    assert IsToken(TEARDOWN);
    ReadRequest(TEARDOWN, resource, version, key, c, last);
    TeardownInAnyState(s, Request(TEARDOWN, resource, version, key, c, last), true, id);
    next := s.(rtpSocket := Some(Closed), outbox := s.outbox + [ReplyText(c, id)]);
  }
}

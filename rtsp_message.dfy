/**
 * The text side of the RTSP control channel handled by ServerWorker: picking
 * the fields out of a request (method, resource, CSeq line, transport line)
 * and writing the one reply the server ever transmits, "200 OK".
 */
module RtspMessage {
  import opened Wrappers
  import opened Tokens
  import Decimal

  /** The four request methods, matched case-sensitively and exactly. */
  const SETUP := "SETUP"
  const PLAY := "PLAY"
  const PAUSE := "PAUSE"
  const TEARDOWN := "TEARDOWN"

  /**
   * The exceptions processRtspRequest lets escape: a list index past the end
   * (a request with too few lines or tokens) or a dictionary key that was
   * never stored in clientInfo.
   */
  datatype Fault = IndexOutOfRange | MissingEntry(key: string)

  /**
   * What processRtspRequest has in hand once its first statements ran: the
   * request's lines, the first two tokens of line 1, and the tokens of line 2.
   */
  datatype Request = Request(lines: seq<string>, verb: string, resource: string, seqTokens: seq<string>)

  /** The prefix of `s` that ends just after the token with index `k`. */
  lemma TokenPrefix(s: string, sep: char, k: nat)
    requires k < |Split(s, sep)|
    ensures Join(Split(s, sep)[..k + 1], sep) <= s
  {
    var r := Split(s, sep);
    JoinSplit(s, sep);
    if k + 1 < |r| {
      JoinConcat(r[..k + 1], r[k + 1..], sep);
      assert r[..k + 1] + r[k + 1..] == r;
    } else {
      assert r[..k + 1] == r;
    }
  }

  /** Joining two non-empty lists of pieces puts one separator between them. */
  lemma {:induction false} JoinConcat(a: seq<string>, b: seq<string>, sep: char)
    requires |a| >= 1 && |b| >= 1
    ensures Join(a + b, sep) == Join(a, sep) + [sep] + Join(b, sep)
    decreases |a|
  {
    if |a| > 1 {
      JoinConcat(a[1..], b, sep);
      assert (a + b)[1..] == a[1..] + b;
    }
  }

  /** The first two pieces of `s` sit at its start, one separator apart. */
  lemma FirstTwoPieces(s: string, sep: char)
    requires |Split(s, sep)| >= 2
    ensures Split(s, sep)[0] + [sep] + Split(s, sep)[1] <= s
  {
    var r := Split(s, sep);
    TokenPrefix(s, sep, 1);
    assert r[..2] == [r[0], r[1]];
    assert r[..2][1..] == [r[1]];
  }

  /**
   * The second piece of `s` ends where `s` ends or at the next separator, so
   * it is the whole text between the first and second separators.
   */
  lemma SecondPieceEnds(s: string, sep: char)
    requires |Split(s, sep)| >= 2
    ensures
      var k := |Split(s, sep)[0]| + 1 + |Split(s, sep)[1]|;
      k == |s| || (k < |s| && s[k] == sep)
  {
    var r := Split(s, sep);
    FirstPiece(s, sep);
    var t := s[|r[0]| + 1..];
    FirstPiece(t, sep);
    assert Split(t, sep)[0] == r[1];
    if |Split(t, sep)| == 1 {
      JoinSplit(t, sep);
      assert Join(Split(t, sep), sep) == r[1];
    } else {
      assert s[|r[0]| + 1 + |r[1]|] == t[|r[1]|];
    }
  }

  /**
   * The first two tokens of line 1 of `data` are whole tokens: they start the
   * text one space apart, contain neither space nor newline, and the second
   * ends at a space or at the end of line 1.
   */
  lemma LineOneTokens(data: string)
    requires |Split(data, '\n')| >= 2 && |Split(Split(data, '\n')[0], ' ')| >= 2
    ensures
      var line := Split(data, '\n')[0];
      var t := Split(line, ' ');
      var k := |t[0]| + 1 + |t[1]|;
      t[0] + [' '] + t[1] <= data &&
      ' ' !in t[0] && '\n' !in t[0] && ' ' !in t[1] && '\n' !in t[1] &&
      k < |data| && (data[k] == ' ' || data[k] == '\n')
  {
    var line := Split(data, '\n')[0];
    FirstTwoPieces(line, ' ');
    SecondPieceEnds(line, ' ');
    FirstPiece(data, '\n');
    PiecesAvoid(line, ' ', '\n');
  }

  /**
   * Lines 48-56 of processRtspRequest: split on '\n', split line 1 on ' ',
   * take tokens 0 and 1 of line 1 and split line 2 on ' '. A request with a
   * single line, or whose first line has no space, raises before any state
   * is touched.
   */
  function ParseRequest(data: string): (r: Result<Request, Fault>)
    ensures r.Success? <==> '\n' in data && ' ' in Split(data, '\n')[0]
    ensures r.Failure? ==> r.error == IndexOutOfRange
    ensures r.Success? ==>
      r.value.lines == Split(data, '\n') && |r.value.lines| >= 2 && r.value.seqTokens == Split(r.value.lines[1], ' ')
    ensures r.Success? ==> r.value.verb + [' '] + r.value.resource <= data
    ensures r.Success? ==>
      var k := |r.value.verb| + 1 + |r.value.resource|;
      k < |data| && (data[k] == ' ' || data[k] == '\n')
    ensures r.Success? ==>
      ' ' !in r.value.verb && '\n' !in r.value.verb &&
      ' ' !in r.value.resource && '\n' !in r.value.resource
  {
    var lines := Split(data, '\n');
    var line1 := Split(lines[0], ' ');
    SplitMany(data, '\n');
    SplitMany(lines[0], ' ');
    if |line1| < 2 || |lines| < 2 then Failure(IndexOutOfRange)
    else
      LineOneTokens(data);
      Success(Request(lines, line1[0], line1[1], Split(lines[1], ' ')))
  }

  /** `seq[1]`: the CSeq value, or None when line 2 has no second token. */
  function CSeq(req: Request): (r: Option<string>)
    ensures r.Some? <==> |req.seqTokens| >= 2
    ensures r.Some? ==> r.value == req.seqTokens[1]
  {
    if |req.seqTokens| >= 2 then Some(req.seqTokens[1]) else None
  }

  /** `request[2].split(' ')[3]`: the client's RTP port, as text. */
  function RtpPort(req: Request): (r: Option<string>)
    ensures r.Some? <==> |req.lines| >= 3 && |Split(req.lines[2], ' ')| >= 4
    ensures r.Some? ==> ' ' !in r.value
  {
    if |req.lines| >= 3 && |Split(req.lines[2], ' ')| >= 4 then Some(Split(req.lines[2], ' ')[3])
    else None
  }

  /**
   * The CSeq value is present exactly when line 2 contains a space; it is then
   * the text right after the first space of line 2, up to the next space or
   * newline, taken over verbatim.
   */
  lemma CSeqIsSecondTokenOfLineTwo(data: string)
    requires ParseRequest(data).Success?
    ensures
      var lines := Split(data, '\n');
      var c := CSeq(ParseRequest(data).value);
      (c.Some? <==> ' ' in lines[1]) &&
      (c.Some? ==>
        ' ' !in c.value && '\n' !in c.value &&
        lines[0] + ['\n'] + Split(lines[1], ' ')[0] + [' '] + c.value <= data)
  {
    var lines := Split(data, '\n');
    SplitMany(lines[1], ' ');
    if ' ' in lines[1] {
      SecondTokenOfLineTwo(data);
    }
  }

  /** The second token of line 2 sits in the text right after line 1 and token 0 of line 2. */
  lemma SecondTokenOfLineTwo(data: string)
    requires |Split(data, '\n')| >= 2 && |Split(Split(data, '\n')[1], ' ')| >= 2
    ensures
      var lines := Split(data, '\n');
      var tokens := Split(lines[1], ' ');
      '\n' !in tokens[1] &&
      lines[0] + ['\n'] + tokens[0] + [' '] + tokens[1] <= data
  {
    var lines := Split(data, '\n');
    var tokens := Split(lines[1], ' ');
    var t := tokens[1];
    FirstTwoPieces(data, '\n');
    FirstTwoPieces(lines[1], ' ');
    PiecesAvoid(lines[1], ' ', '\n');
    assert lines[0] + ['\n'] + (tokens[0] + [' '] + t) == (lines[0] + ['\n'] + lines[1])[..|lines[0]| + 1 + |tokens[0]| + 1 + |t|];
    assert lines[0] + ['\n'] + (tokens[0] + [' '] + t) == lines[0] + ['\n'] + tokens[0] + [' '] + t;
  }

  /**
   * The RTP port, when present, is a whole ' '-token of line 3: it follows the
   * third space of that line, runs up to the fourth space or the end of the
   * line, and contains neither a space nor a newline.
   */
  lemma RtpPortIsFourthTokenOfLineThree(data: string)
    requires ParseRequest(data).Success?
    ensures
      var lines := Split(data, '\n');
      var p := RtpPort(ParseRequest(data).value);
      (p.Some? <==> |lines| >= 3 && |Split(lines[2], ' ')| >= 4) &&
      (p.Some? ==>
        ' ' !in p.value && '\n' !in p.value &&
        Join(Split(lines[2], ' ')[..3], ' ') + [' '] + p.value <= lines[2])
    ensures
      var lines := Split(data, '\n');
      var p := RtpPort(ParseRequest(data).value);
      p.Some? ==>
        var k := |Join(Split(lines[2], ' ')[..3], ' ')| + 1 + |p.value|;
        k == |lines[2]| || (k < |lines[2]| && lines[2][k] == ' ')
  {
    var lines := Split(data, '\n');
    if |lines| >= 3 && |Split(lines[2], ' ')| >= 4 {
      var r := Split(lines[2], ' ');
      TokenPrefix(lines[2], ' ', 3);
      JoinSplit(lines[2], ' ');
      JoinConcat(r[..3], [r[3]], ' ');
      assert r[..3] + [r[3]] == r[..4];
      if |r| > 4 {
        JoinConcat(r[..4], r[4..], ' ');
        assert r[..4] + r[4..] == r;
      } else {
        assert r[..4] == r;
      }
      PiecesAvoid(lines[2], ' ', '\n');
    }
  }

  const StatusLine := "RTSP/1.0 200 OK"
  const CSeqLabel := "CSeq: "
  const SessionLabel := "Session: "

  /**
   * The 200 reply replyRtsp writes: three lines, the status line, the echoed
   * CSeq and the session id in decimal, written out as one text.
   */
  function ReplyText(cseq: string, session: nat): (r: string)
    ensures r == StatusLine + "\n" + CSeqLabel + cseq + "\n" + SessionLabel + Decimal.Text(session)
  {
    var lines := [StatusLine, CSeqLabel + cseq, SessionLabel + Decimal.Text(session)];
    assert Join(lines[2..], '\n') == SessionLabel + Decimal.Text(session);
    assert Join(lines[1..], '\n') == CSeqLabel + cseq + "\n" + SessionLabel + Decimal.Text(session);
    Join(lines, '\n')
  }

  /**
   * What a client reads back from a 200 reply: the echoed CSeq text and the
   * session number, or None for text of any other shape.
   */
  function ParseReply(reply: string): Option<(string, nat)>
  {
    var lines := Split(reply, '\n');
    if |lines| == 3 && lines[0] == StatusLine && CSeqLabel <= lines[1] && SessionLabel <= lines[2]
       && Decimal.AllDigits(lines[2][|SessionLabel|..])
    then Some((lines[1][|CSeqLabel|..], Decimal.Value(lines[2][|SessionLabel|..])))
    else None
  }

  /**
   * A 200 reply carries the CSeq it was given back unchanged, and the session
   * number, as long as the CSeq text has no newline (which a token of line 2
   * never has, see CSeqIsSecondTokenOfLineTwo).
   */
  lemma ReplyRoundTrip(cseq: string, session: nat)
    requires '\n' !in cseq
    ensures ParseReply(ReplyText(cseq, session)) == Some((cseq, session))
  {
    var digits := Decimal.Text(session);
    var pieces := [StatusLine, CSeqLabel + cseq, SessionLabel + digits];
    assert '\n' !in StatusLine by {
      forall i | 0 <= i < |StatusLine| ensures StatusLine[i] != '\n' { }
    }
    assert '\n' !in CSeqLabel + cseq by {
      forall x | x in CSeqLabel + cseq ensures x != '\n' {
        assert x in CSeqLabel || x in cseq;
      }
    }
    assert '\n' !in SessionLabel + digits by {
      forall i | 0 <= i < |SessionLabel + digits| ensures (SessionLabel + digits)[i] != '\n' {
        if i >= |SessionLabel| {
          assert Decimal.IsDigit(digits[i - |SessionLabel|]);
        }
      }
    }
    assert Join(pieces, '\n') == ReplyText(cseq, session);
    SplitJoin(pieces, '\n');
    assert (CSeqLabel + cseq)[|CSeqLabel|..] == cseq;
    assert (SessionLabel + digits)[|SessionLabel|..] == digits;
    Decimal.ValueOfText(session);
  }
}

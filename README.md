# ServerWorker: the per-client RTSP controller, in Dafny

`ServerWorker.py` runs one RTSP control session for one connected video
client. It is a small server-side subset of RFC 2326:

- the methods SETUP, PLAY, PAUSE and TEARDOWN (sections 10.4 to 10.7 of RFC 2326);
- the echo of the `CSeq` header (section 12.17 of RFC 2326);
- the INIT / READY / PLAYING server state machine (appendix A.2 of RFC 2326).

For each video frame it also chooses the RTP header fields (section 5.1 of
RFC 3550), with payload type 26, JPEG (section 6 of RFC 3551).

This project models that controller and proves what it does.

- `Tokens` models `str.split(sep)` with an explicit one-character separator
  as `Split`. Two neighbouring separators give an empty piece, and the result
  always has at least one piece. `Join` is its inverse, proved in both
  directions.
- `Decimal` models `str(n)` for a natural number and its reader.
- `RtspMessage` models how `processRtspRequest` takes a request apart. It
  splits the text into lines and splits lines 1 and 2 into tokens. It also
  picks out the CSeq token and the RTP port of line 3. It builds the one reply
  the server ever transmits, `200 OK`, and has a reader for that reply.
- `Rtp` models the header field values `makeRtp` hands to the packet encoder.
- `SessionSpec` is the session as a value. A `Session` holds:
  - the state;
  - the `clientInfo` entries the controller stores;
  - the replies written to the control socket, as an outbox.

  `Step` is the effect of one request on a `Session`. A Python exception ends
  a request half-way: an `IndexError` on a short request, or a `KeyError` on a
  `clientInfo` entry that was never stored. `Step` then returns the session as
  it stands at the raise, together with `Raised(fault)`. `Run` feeds requests
  in order and stops at the first exception, as the receiving thread dies
  there.
- `ServerWorker` is the class. Its fields are those of the Python object, and
  its methods update them in place:
  - `ProcessRtspRequest`, with one method per branch of its if/elif chain;
  - `ReplyRtsp`.

  `ProcessRtspRequest` is proved to leave exactly the fields that `Step`
  computes, and to keep the session invariant. Each branch method is proved
  to leave exactly the fields its branch function computes (`SetupStep`,
  `PlayStep`, `PauseStep` or `TeardownStep`), and `ReplyRtsp` exactly those
  of `Reply`.
- `SessionProperties` proves the state machine's properties, including the
  quirks of the code.
- `Scenario` plays through a complete SETUP, PLAY, PAUSE, TEARDOWN session
  with request texts of the usual shape.

The model keeps the quirks of the code:

- A SETUP whose file fails to open stays in INIT, but still stores a session
  id, sends a 200 and records the RTP port.
- A 404 is only printed.
- TEARDOWN has no state guard and never changes the state.
- TEARDOWN raises a `KeyError` when no PLAY created the cancel event.

## Model

| member | source | states |
|---|---|---|
| Tokens.Split | ServerWorker.py:48-56 | `str.split` on one character: at least one piece, and no piece contains the separator |
| Tokens.JoinSplit | ServerWorker.py:48-49 | joining the pieces of a split with the separator gives back the original text, so nothing is lost or reordered |
| Tokens.SplitJoin | ServerWorker.py:48-49 | splitting a join of separator-free pieces gives back exactly those pieces, empty ones included |
| Tokens.SplitMany | ServerWorker.py:49-56 | a split has a second piece (the index `[1]` exists) exactly when the separator occurs in the text |
| Tokens.FirstPiece | ServerWorker.py:48-50 | the first piece is a prefix, followed by the separator when there are more pieces; the remaining pieces are the split of the rest |
| Tokens.PiecesAvoid | ServerWorker.py:48-56 | a character that is absent from the text is absent from every piece |
| Decimal.Text | ServerWorker.py:164 | `str(session)` is non-empty, all digits, and starts with '0' only for 0 |
| Decimal.ValueOfText | ServerWorker.py:164 | reading back the decimal text of n gives n |
| RtspMessage.ParseRequest | ServerWorker.py:48-56 | succeeds exactly when there is a second line and line 1 has a space, and otherwise raises the index error. On success the lines are the `'\n'`-split, and the CSeq tokens are the `' '`-split of line 2. The method and resource are the first two space-free tokens at the start of the text, and the resource runs up to the next space or newline, so it is the whole second token of line 1 |
| RtspMessage.CSeqIsSecondTokenOfLineTwo | ServerWorker.py:56 | the CSeq value exists exactly when line 2 has a space; it is then the second token of line 2, taken verbatim from the text, with no space or newline |
| RtspMessage.RtpPortIsFourthTokenOfLineThree | ServerWorker.py:77 | the RTP port exists exactly when there are three lines and line 3 has four tokens; it then starts right after the third space of line 3 and runs up to the fourth space or the end of the line, so it is the whole fourth token |
| RtspMessage.ReplyRoundTrip | ServerWorker.py:163-164 | a 200 reply read back yields the CSeq text it was given and the session number |
| RtspMessage.CSeq | ServerWorker.py:74 | `seq[1]`, the index used at lines 68, 74, 89, 105 and 113: absent exactly when line 2 has fewer than two tokens, where the code's index raises; otherwise token 1 of line 2 |
| RtspMessage.RtpPort | ServerWorker.py:77 | `request[2].split(' ')[3]`: absent exactly when there is no line 3 or it has fewer than four tokens; otherwise a space-free token |
| RtspMessage.ReplyText | ServerWorker.py:163-164 | the 200 reply is the three lines status, `CSeq: ` with the token, and `Session: ` with the id in decimal, written as the exact text of the code |
| Rtp.MakeRtp | ServerWorker.py:141-157 | for every frame number: version 2, no padding, no extension, no CSRCs, marker 0 (leading octets 0x80 and 0x1A), payload type 26, SSRC 0, sequence number equal to the frame number, payload untouched. The fields fit the RFC 3550 widths exactly when the frame number is below 65536 |
| SessionSpec.Reply | ServerWorker.py:159-172 | only a 200 changes anything, by appending one reply with the CSeq and the stored session id; it raises a KeyError on 'session' when no id was stored; 404 and 500 send nothing |
| SessionSpec.Step | ServerWorker.py:44-116 | one request: a request too short to name a method and a resource raises the index error with nothing changed, and no reply already sent is ever taken back |
| SessionSpec.Dispatch | ServerWorker.py:59-116 | the if/elif on the method: a method other than the four changes nothing and raises nothing, and replies are only appended |
| SessionSpec.SetupStep | ServerWorker.py:59-77 | outside INIT nothing happens; the state changes exactly when the session is in INIT and the file opens, and then to READY |
| SessionSpec.PlayStep | ServerWorker.py:80-95 | outside READY nothing happens; in READY the result is PLAYING with an open RTP socket, whatever follows |
| SessionSpec.PauseStep | ServerWorker.py:98-105 | outside PLAYING nothing happens; in PLAYING the result is READY, whatever follows |
| SessionSpec.TeardownStep | ServerWorker.py:108-116 | the state never changes; a TEARDOWN that completes leaves the event set and the RTP socket closed |
| SessionSpec.Run | ServerWorker.py:38-42 | requests in arrival order, stopping at the first exception; the replies of earlier requests are never altered or withdrawn |
| ServerWorker.ServerWorker.constructor | ServerWorker.py:17-29 | a new worker is in INIT, with no clientInfo entries beyond the control socket and nothing sent |
| ServerWorker.ServerWorker.ReplyRtsp | ServerWorker.py:159-172 | updates the fields exactly as `Reply` says |
| ServerWorker.ServerWorker.ProcessRtspRequest | ServerWorker.py:44-116 | the new fields and the exception are exactly those of `Step`, and the session invariant is kept |
| ServerWorker.ServerWorker.Setup | ServerWorker.py:59-77 | the SETUP branch, in the order of the code: open the stream, draw the id, reply, store the port |
| ServerWorker.ServerWorker.Play | ServerWorker.py:80-95 | the PLAY branch: PLAYING, RTP socket, reply, fresh event, one more worker |
| ServerWorker.ServerWorker.Pause | ServerWorker.py:98-105 | the PAUSE branch: READY, set the event, reply |
| ServerWorker.ServerWorker.Teardown | ServerWorker.py:108-116 | the TEARDOWN branch: set the event, reply, close the RTP socket |
| SessionProperties.StateChangesOnlyOnEdges | ServerWorker.py:59-116 | the state changes exactly on INIT to READY (SETUP with a file that opens), READY to PLAYING (PLAY) and PLAYING to READY (PAUSE), and on no other request |
| SessionProperties.OutOfStateRequestIgnored | ServerWorker.py:59-116 | SETUP outside INIT, PLAY outside READY, PAUSE outside PLAYING and unknown methods change nothing, send nothing and raise nothing |
| SessionProperties.MalformedRequestChangesNothing | ServerWorker.py:48-53 | a request with one line, or with no space in line 1, raises the index error and leaves the session as it was |
| SessionProperties.SetupInInit | ServerWorker.py:60-77 | SETUP in INIT, for every request. It reaches READY exactly when the file opens. A failed open sends nothing for its 404, and without a CSeq token it raises before the id is drawn. Otherwise the drawn id is stored and one 200 is sent with it. Then the port is stored, or, when line 3 has no fourth token, the request raises with the id and reply already in place |
| SessionProperties.PlayFromReady | ServerWorker.py:81-95 | PLAY in READY gives PLAYING, an open RTP socket, exactly one reply, a fresh unset event and one more worker, and nothing else changes. Without a CSeq token it raises after PLAYING and the socket, with no event and no worker |
| SessionProperties.PauseFromPlaying | ServerWorker.py:99-105 | PAUSE in PLAYING gives READY, sets the event and sends one reply. Without an event it still goes to READY and raises a KeyError on 'event'. Without a CSeq token it raises with READY and the event set, and sends no reply |
| SessionProperties.TeardownInAnyState | ServerWorker.py:108-116 | TEARDOWN never changes the state. With no event it raises and changes nothing. Otherwise it sets the event; without a CSeq token it then raises with the socket still open, and with one it sends one reply and closes the RTP socket |
| SessionProperties.EveryReplyEchoesCSeq | ServerWorker.py:56-116 | a request sends nothing or exactly one 200 reply with its own CSeq token and the session id, and reading that reply back gives the same CSeq token |
| SessionProperties.StepKeepsInv | ServerWorker.py:44-116 | with an id drawn in randint's range, every request keeps the session invariant: a stored id is in [100000, 999999]; a video stream is open exactly outside INIT; an event exists only beside an RTP socket |
| SessionProperties.OnlyEventCanBeMissing | ServerWorker.py:103-116 | in a session that keeps the invariant, the only exceptions are the index error and a KeyError on 'event' |
| SessionProperties.RunKeepsInv | ServerWorker.py:71 | every session a run of requests reaches keeps the invariant, so every session id ever stored lies in [100000, 999999] |
| SessionProperties.RunNeverReturnsToInit | ServerWorker.py:59-116 | once out of INIT, no sequence of requests brings the session back to INIT |
| Scenario.SetupPlayPauseTeardown | ServerWorker.py:44-116 | SETUP, PLAY, PAUSE and TEARDOWN on an existing file send four replies echoing the four CSeq tokens with the drawn id; the session ends in READY with the port from the transport line, the event set, the RTP socket closed and one worker started |

## Left out

- Of `run` and `recvRtspRequest` (ServerWorker.py:31-42), the thread start, the blocking `recv(256)`, the `if data:` skip of empty reads and the UTF-8 decoding are left out. A request reaches the model as already-decoded text, one `recv` per request. The loop itself, requests in arrival order and its end at the first exception, is `SessionSpec.Run`.
- `sendRtp` (ServerWorker.py:118-139) is not modelled. It is a polling thread with a 50 ms timeout and a catch-all around `sendto`. Its cancel event is a flag that PAUSE and TEARDOWN set, and each started thread is counted in `workers`. A PAUSE followed by a PLAY within 50 ms can leave the old thread running beside the new one; that is concurrency and is not captured.
- `VideoStream` is not part of this model. Whether the file opens is the `fileOpens` input of SETUP.
- `RtpPacket` is not part of this model, so the packing of the header into bytes is not modelled. That includes the truncation of the sequence number to 16 bits. `Rtp.MakeRtp` states only the field values.
- `randint(100000, 999999)` is the `draw` parameter. `ProcessRtspRequest` requires it to be in that range.
- Sockets are abstract. The RTP socket is `Open` or `Closed`. Writes to the control socket are appended to `outbox`. `print` diagnostics, including the 404 and 500 messages, are not modelled.
- `clientInfo` is modelled as one field per entry the controller stores: `videoStream`, `session`, `rtpPort`, `rtpSocket`, `event` and `worker`. The `rtspSocket` entry is assumed present from construction, as the server that creates the worker provides it.
- `videoStream` records only that a stream was opened, not the stream object or its position.
- `rtpPort` is kept as the text token. Its conversion with `int(...)` happens in `sendRtp` and is not modelled.
- `Run` stops at the first exception, because an exception ends the receiving thread. What the server process does with the thread's traceback is not modelled.

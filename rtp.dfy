/**
 * makeRtp: the header field values ServerWorker hands to the RTP encoder for
 * each video frame. The packing into bytes belongs to RtpPacket, which is not
 * part of this model; only the field values are.
 */
module Rtp {

  /** The arguments of `RtpPacket.encode`, in the fixed-header terms of RFC 3550 section 5.1. */
  datatype RtpFields = RtpFields(
    version: nat, padding: nat, extension: nat, cc: nat,
    seqnum: nat, marker: nat, pt: nat, ssrc: nat, payload: seq<bv8>)

  /** Payload type 26 is JPEG video (RFC 3551 section 6). */
  const JpegPayloadType: nat := 26

  /** Every field fits the bit width RFC 3550 section 5.1 gives it. */
  predicate FitsHeader(f: RtpFields) {
    f.version < 4 && f.padding < 2 && f.extension < 2 && f.cc < 16 &&
    f.marker < 2 && f.pt < 128 && f.seqnum < 0x1_0000 && f.ssrc < 0x1_0000_0000
  }

  /**
   * Octets 0 and 1 of the fixed header under the RFC 3550 section 5.1 layout:
   * V(2) P(1) X(1) CC(4), then M(1) PT(7).
   */
  function LeadingOctets(f: RtpFields): (int, int) {
    (f.version * 64 + f.padding * 32 + f.extension * 16 + f.cc, f.marker * 128 + f.pt)
  }

  /**
   * The header values for one frame: an RTP version 2 JPEG packet with no
   * padding, no extension, no CSRCs, no marker and SSRC 0, so that its first
   * two octets are 0x80 and 0x1A; the payload is passed through untouched and
   * the sequence number is the frame number itself. The fields fit the fixed
   * header exactly when the frame number fits 16 bits: from frame 65536 on,
   * makeRtp leaves the truncation of the sequence number to the encoder.
   */
  function MakeRtp(payload: seq<bv8>, frameNbr: nat): (f: RtpFields)
    ensures f.version == 2 && f.padding == 0 && f.extension == 0 && f.cc == 0 && f.marker == 0
    ensures LeadingOctets(f) == (0x80, 0x1A)
    ensures f.pt == JpegPayloadType && f.ssrc == 0
    ensures f.seqnum == frameNbr && f.payload == payload
    ensures FitsHeader(f) <==> frameNbr < 0x1_0000
  {
    RtpFields(2, 0, 0, 0, frameNbr, 0, JpegPayloadType, 0, payload)
  }
}

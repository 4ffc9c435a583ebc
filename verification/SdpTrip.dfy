/** The encoder's bytes, given to the decoder. */
module SdpTrip {
  import opened Text
  import opened Sdp
  import SdpParse
  import opened SdpEncoder
  import opened SdpDecoder
  import SdpTheorems

  /** With its own buffers and scratch space, encoding then decoding gives a well-formed session back, normalised. */
  method EncodeThenDecode(e: Encoder, s: Session) returns (r: SdpParse.Decoded)
    requires GoodSession(s)
    modifies e, e.buf
    ensures r == SdpParse.Done(Norm(s))
  {
    hide GoodSession, Norm, SessionLines, Render;
    var text, order, orders := e.Encode(s);
    var d := new Decoder(text);
    r := d.Decode();
    SdpTheorems.RoundTrip(s, order, orders);
  }
}

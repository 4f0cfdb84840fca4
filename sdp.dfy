/**
 * The placeholder SDP answer of `SIPHandler._generate_sdp_answer` (app/handlers/sip_handler.py).
 * No negotiation takes place: the answer is a fixed template filled with random
 * `uuid.uuid4().hex` tokens (one for the ufrag, one for the password, one per fingerprint
 * field), which are parameters here. The offer is never read.
 */
module Sdp {
  import opened Wrappers
  import opened Text

  predicate IsLowerHexChar(c: char) { '0' <= c <= '9' || 'a' <= c <= 'f' }
  predicate IsUpperHexChar(c: char) { '0' <= c <= '9' || 'A' <= c <= 'F' }

  /** What `uuid.uuid4().hex` yields: 32 lower-case hexadecimal digits. */
  predicate IsHexToken(t: string) {
    |t| == 32 && forall i :: 0 <= i < |t| ==> IsLowerHexChar(t[i])
  }

  /** The 32 `uuid.uuid4().hex` values the fingerprint comprehension draws, one per iteration. */
  type FingerprintDraws = d: seq<string> | |d| == 32 witness seq(32, _ => "")

  /**
   * The random tokens one answer consumes, in the order the template reads them: one token
   * for the ufrag, one for the password, and a fresh token for every fingerprint field.
   */
  datatype SdpTokens = SdpTokens(ufragSource: string, pwd: string, fingerprintDraws: FingerprintDraws)

  predicate ValidDraws(d: FingerprintDraws) {
    forall k :: 0 <= k < 32 ==> IsHexToken(d[k])
  }

  predicate ValidTokens(t: SdpTokens) {
    IsHexToken(t.ufragSource) && IsHexToken(t.pwd) && ValidDraws(t.fingerprintDraws)
  }

  /**
   * The list comprehension `[uuid.uuid4().hex[i:i+2].upper() for i in range(0, 64, 2)]`:
   * field `k` is the upper-cased slice at `2 * k` of the `k`-th draw, which is empty once
   * that slice starts past the draw's end.
   */
  function FingerprintFields(draws: FingerprintDraws): (f: seq<string>)
    ensures |f| == 32
    ensures forall k :: 0 <= k < 32 && 2 * k + 2 <= |draws[k]| ==> f[k] == Upper(draws[k][2 * k..2 * k + 2])
    ensures forall k :: 0 <= k < 32 && |draws[k]| <= 2 * k ==> f[k] == ""
  {
    seq(32, k requires 0 <= k < 32 => Upper(Slice(draws[k], 2 * k, 2 * k + 2)))
  }

  /** `":".join(...)` of those fields. */
  function Fingerprint(draws: FingerprintDraws): string {
    Join(':', FingerprintFields(draws))
  }

  /**
   * For uuid hex draws, field `k < 16` is the upper-cased pair at `2 * k` of draw `k`, and
   * the last 16 fields are empty because a 32-character draw has nothing at index 32 or later.
   */
  lemma FingerprintFieldsOfDraws(draws: FingerprintDraws)
    requires ValidDraws(draws)
    ensures forall k :: 0 <= k < 16 ==>
      FingerprintFields(draws)[k] == Upper(draws[k][2 * k..2 * k + 2])
      && |FingerprintFields(draws)[k]| == 2
      && IsUpperHexChar(FingerprintFields(draws)[k][0]) && IsUpperHexChar(FingerprintFields(draws)[k][1])
    ensures forall k :: 16 <= k < 32 ==> FingerprintFields(draws)[k] == ""
  {
  }

  /** Only the first 16 draws reach the fingerprint; the other 16 are sliced past their end. */
  lemma FingerprintIgnoresLateDraws(d1: FingerprintDraws, d2: FingerprintDraws)
    requires ValidDraws(d1) && ValidDraws(d2)
    requires forall k :: 0 <= k < 16 ==> d1[k] == d2[k]
    ensures Fingerprint(d1) == Fingerprint(d2)
  {
    FingerprintFieldsOfDraws(d1);
    FingerprintFieldsOfDraws(d2);
    assert FingerprintFields(d1) == FingerprintFields(d2);
  }

  /**
   * The fingerprint of uuid hex draws: 16 upper-case hex pairs joined by ':' and then
   * 16 trailing ':' (one before each empty field), 63 characters in all; splitting it at ':'
   * gives back exactly the 32 fields.
   */
  lemma FingerprintShape(draws: FingerprintDraws)
    requires ValidDraws(draws)
    ensures var f := FingerprintFields(draws);
      Fingerprint(draws) == Join(':', f[..16]) + Repeat(':', 16)
      && |Fingerprint(draws)| == 63
      && Split(':', Fingerprint(draws)) == f
  {
    var f := FingerprintFields(draws);
    FingerprintFieldsOfDraws(draws);
    assert f == f[..16] + f[16..];
    JoinConcat(':', f[..16], f[16..]);
    JoinEmptyFields(':', f[16..]);
    JoinLength(':', f[..16], 2);
    assert Repeat(':', 15) + [':'] == Repeat(':', 16);
    assert Fingerprint(draws) == Join(':', f[..16]) + ([':'] + Repeat(':', 15));
    assert [':'] + Repeat(':', 15) == Repeat(':', 16);
    forall k | 0 <= k < 32
      ensures ':' !in f[k]
    {
      if k < 16 {
        assert f[k] == [f[k][0], f[k][1]];
      }
    }
    SplitJoin(':', f);
  }

  /** The lines of the answer template, each without its line break. */
  function AnswerLines(ufrag: string, pwd: string, fingerprint: string): (lines: seq<string>)
    ensures |lines| == 15
  {
    [ "v=0",
      "o=- 0 0 IN IP4 0.0.0.0",
      "s=Voice Assistant",
      "c=IN IP4 0.0.0.0",
      "t=0 0",
      "m=audio 9 UDP/TLS/RTP/SAVPF 111 103 104",
      "a=rtpmap:111 opus/48000/2",
      "a=fmtp:111 minptime=10;useinbandfec=1",
      "a=rtcp-fb:111 transport-cc",
      "a=sendrecv",
      "a=ice-ufrag:" + ufrag,
      "a=ice-pwd:" + pwd,
      "a=fingerprint:sha-256 " + fingerprint,
      "a=setup:active",
      "a=mid:0" ]
  }

  /**
   * `_generate_sdp_answer(sdp_offer)`: the template with every line ended by a line break;
   * the ufrag is the first 8 characters of the first token, the password the whole second
   * token, the fingerprint built from the 32 draws. It always starts with the line "v=0".
   */
  function SdpAnswer(sdpOffer: Option<string>, tokens: SdpTokens): (a: string)
    ensures |a| >= 4 && a[..4] == "v=0\n"
  {
    Join('\n', AnswerLines(Slice(tokens.ufragSource, 0, 8), tokens.pwd, Fingerprint(tokens.fingerprintDraws)) + [""])
  }

  /** The answer does not depend on the offer at all. */
  lemma SdpAnswerIgnoresOffer(offer1: Option<string>, offer2: Option<string>, tokens: SdpTokens)
    ensures SdpAnswer(offer1, tokens) == SdpAnswer(offer2, tokens)
  {
  }

  /** No character of a hex token is a line break. */
  lemma HexTokenHasNoNewline(t: string)
    requires IsHexToken(t)
    ensures '\n' !in t
  {
  }

  /** No line break in the fixed text of the session, connection and timing lines. */
  lemma SessionTextsHaveNoNewline()
    ensures '\n' !in "v=0"
    ensures '\n' !in "o=- 0 0 IN IP4 0.0.0.0"
    ensures '\n' !in "s=Voice Assistant"
    ensures '\n' !in "c=IN IP4 0.0.0.0"
    ensures '\n' !in "t=0 0"
  {
  }

  /** No line break in the fixed text of the media and codec-map lines. */
  lemma MediaTextsHaveNoNewline()
    ensures '\n' !in "m=audio 9 UDP/TLS/RTP/SAVPF 111 103 104"
    ensures '\n' !in "a=rtpmap:111 opus/48000/2"
  {
  }

  /** No line break in the fixed text of the codec parameter and feedback lines. */
  lemma CodecTextsHaveNoNewline()
    ensures '\n' !in "a=fmtp:111 minptime=10;useinbandfec=1"
    ensures '\n' !in "a=rtcp-fb:111 transport-cc"
  {
  }

  /** No line break in the fixed text of the direction, ICE, fingerprint, setup and mid lines. */
  lemma SecurityTextsHaveNoNewline()
    ensures '\n' !in "a=sendrecv"
    ensures '\n' !in "a=ice-ufrag:"
    ensures '\n' !in "a=ice-pwd:"
    ensures '\n' !in "a=fingerprint:sha-256 "
    ensures '\n' !in "a=setup:active"
    ensures '\n' !in "a=mid:0"
  {
  }

  /** No template line holds a line break when the three filled-in values hold none. */
  lemma AnswerLinesHaveNoNewline(ufrag: string, pwd: string, fingerprint: string)
    requires '\n' !in ufrag && '\n' !in pwd && '\n' !in fingerprint
    ensures forall k :: 0 <= k < 15 ==> '\n' !in AnswerLines(ufrag, pwd, fingerprint)[k]
  {
    SessionTextsHaveNoNewline();
    MediaTextsHaveNoNewline();
    CodecTextsHaveNoNewline();
    SecurityTextsHaveNoNewline();
  }

  /** The fingerprint of uuid hex draws holds no line break. */
  lemma FingerprintHasNoNewline(draws: FingerprintDraws)
    requires ValidDraws(draws)
    ensures '\n' !in Fingerprint(draws)
  {
    var fields := FingerprintFields(draws);
    FingerprintFieldsOfDraws(draws);
    forall k | 0 <= k < |fields|
      ensures '\n' !in fields[k]
    {
      if k < 16 {
        assert fields[k] == [fields[k][0], fields[k][1]];
      }
    }
    JoinAvoids('\n', ':', fields);
  }

  /**
   * For uuid hex tokens the answer is exactly the template's 15 lines, each ended by a
   * line break; the first line is "v=0", the ufrag is 8 lower-case hex characters taken
   * from the start of the first token, the password is the whole second token, and the
   * fingerprint line carries the fingerprint of the 32 draws.
   */
  lemma SdpAnswerLines(offer: Option<string>, tokens: SdpTokens)
    requires ValidTokens(tokens)
    ensures var ufrag := tokens.ufragSource[..8];
      var lines := AnswerLines(ufrag, tokens.pwd, Fingerprint(tokens.fingerprintDraws));
      Split('\n', SdpAnswer(offer, tokens)) == lines + [""]
      && lines[0] == "v=0"
      && lines[10] == "a=ice-ufrag:" + ufrag && |ufrag| == 8
      && (forall i :: 0 <= i < 8 ==> IsLowerHexChar(ufrag[i]))
      && lines[11] == "a=ice-pwd:" + tokens.pwd && |tokens.pwd| == 32
      && lines[12] == "a=fingerprint:sha-256 " + Fingerprint(tokens.fingerprintDraws)
  {
    var ufrag := tokens.ufragSource[..8];
    var fp := Fingerprint(tokens.fingerprintDraws);
    var lines := AnswerLines(ufrag, tokens.pwd, fp);
    HexTokenHasNoNewline(tokens.ufragSource);
    HexTokenHasNoNewline(tokens.pwd);
    FingerprintHasNoNewline(tokens.fingerprintDraws);
    assert '\n' !in ufrag by {
      assert forall i :: 0 <= i < 8 ==> ufrag[i] == tokens.ufragSource[i];
    }
    AnswerLinesHaveNoNewline(ufrag, tokens.pwd, fp);
    var all := lines + [""];
    assert forall k :: 0 <= k < |all| ==> '\n' !in all[k] by {
      assert forall k :: 0 <= k < 15 ==> all[k] == lines[k];
    }
    SplitJoin('\n', all);
  }
}

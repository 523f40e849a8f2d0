/** The shortest-URL choice and the shared-URL decoder of the circuit
    puzzle (url-format-share.ts). The v1 and v2 encoders and decoders are
    not part of this model; they are passed in as functions, and a thrown
    decoding error is an `Err` result. */
module UrlFormatShare {
  import opened Wrappers
  import opened Strings

  datatype UrlEncodingVersion = V1 | V2

  datatype Codecs<!L, !E> = Codecs(
    encodeV1: L -> string,
    encodeV2: L -> string,
    decodeV1: string -> Result<L, E>,
    decodeV2: string -> Result<L, E>)

  datatype UrlEncodingChoice = UrlEncodingChoice(encoded: string, version: UrlEncodingVersion, lengthV1: nat, lengthV2: nat)

  /** `encodeLevelForShortestUrl`: the encoded text is the output of the
      encoder `version` names, it is a shortest of the two, v2 is chosen
      only when strictly shorter, and both lengths are recorded. */
  function EncodeForShortestUrl<L, E>(c: Codecs<L, E>, level: L): (r: UrlEncodingChoice)
    ensures r.version == V1 ==> r.encoded == c.encodeV1(level)
    ensures r.version == V2 ==> r.encoded == c.encodeV2(level)
    ensures r.version == V2 <==> |c.encodeV2(level)| < |c.encodeV1(level)|
    ensures |r.encoded| <= |c.encodeV1(level)| && |r.encoded| <= |c.encodeV2(level)|
    ensures r.lengthV1 == |c.encodeV1(level)| && r.lengthV2 == |c.encodeV2(level)|
  {
    var encodedV1 := c.encodeV1(level);
    var encodedV2 := c.encodeV2(level);
    if |encodedV2| < |encodedV1| then
      UrlEncodingChoice(encodedV2, V2, |encodedV1|, |encodedV2|)
    else
      UrlEncodingChoice(encodedV1, V1, |encodedV1|, |encodedV2|)
  }

  /** `decodeLevelFromSharedUrl`: text marked `v2-` goes to the v2 decoder
      alone; other text is tried with v1 and then v2, and when both fail
      the v1 error is the one reported. */
  function DecodeFromSharedUrl<L, E>(c: Codecs<L, E>, encoded: string): (r: Result<L, E>)
    ensures StartsWith(encoded, "v2-") ==> r == c.decodeV2(encoded)
    ensures !StartsWith(encoded, "v2-") && c.decodeV1(encoded).Ok? ==> r == c.decodeV1(encoded)
    ensures !StartsWith(encoded, "v2-") && c.decodeV1(encoded).Err? && c.decodeV2(encoded).Ok?
            ==> r == c.decodeV2(encoded)
    ensures !StartsWith(encoded, "v2-") && c.decodeV1(encoded).Err? && c.decodeV2(encoded).Err?
            ==> r == c.decodeV1(encoded)
    ensures r.Ok? <==> if StartsWith(encoded, "v2-") then c.decodeV2(encoded).Ok?
                       else c.decodeV1(encoded).Ok? || c.decodeV2(encoded).Ok?
  {
    if StartsWith(encoded, "v2-") then c.decodeV2(encoded)
    else
      match c.decodeV1(encoded)
      case Ok(level) => Ok(level)
      case Err(v1Error) =>
        match c.decodeV2(encoded)
        case Ok(level) => Ok(level)
        case Err(_) => Err(v1Error)
  }

  /** Each version decodes what it encodes, and only v2 output carries the
      `v2-` mark. */
  ghost predicate WellMarked<L(!new), E>(c: Codecs<L, E>) {
    && (forall level :: c.decodeV1(c.encodeV1(level)) == Ok(level))
    && (forall level :: c.decodeV2(c.encodeV2(level)) == Ok(level))
    && (forall level :: !StartsWith(c.encodeV1(level), "v2-"))
    && (forall level :: StartsWith(c.encodeV2(level), "v2-"))
  }

  /** Sharing round-trips: whichever encoding is chosen, the shared-URL
      decoder gives the level back. */
  lemma {:induction false} ShortestUrlRoundTrip<L(!new), E>(c: Codecs<L, E>, level: L)
    requires WellMarked(c)
    ensures DecodeFromSharedUrl(c, EncodeForShortestUrl(c, level).encoded) == Ok(level)
  {
    var choice := EncodeForShortestUrl(c, level);
    if choice.version == V1 {
      assert !StartsWith(c.encodeV1(level), "v2-");
      assert c.decodeV1(c.encodeV1(level)) == Ok(level);
    } else {
      assert StartsWith(c.encodeV2(level), "v2-");
      assert c.decodeV2(c.encodeV2(level)) == Ok(level);
    }
  }
}

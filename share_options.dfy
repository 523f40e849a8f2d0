/** The share dialog of the circuit puzzle (url-share-options.ts): a level
    is rendered in three formats, `auto` picks the shorter URL encoding,
    and the dialog shows the text of the chosen format. The encoders are
    not part of this model; they are passed in as functions. */
module ShareOptions {

  /** `ShareMode`: what the user picked in the dialog. */
  datatype ShareMode = Auto | V1 | V2 | Json

  /** The modes a payload can be read in: everything but `auto`. */
  type Format = m: ShareMode | m != Auto witness V1

  /** The two URL encodings `auto` may resolve to. */
  type UrlVersion = m: ShareMode | m == V1 || m == V2 witness V1

  /** `encodeLevelForUrl`, `encodeLevelForUrlV2` and
      `levelToJsonString(levelToJson(_))`. */
  datatype Encoders<!L> = Encoders(v1: L -> string, v2: L -> string, json: L -> string)

  datatype Texts = Texts(v1: string, v2: string, json: string)

  datatype Lengths = Lengths(v1: nat, v2: nat, json: nat)

  datatype SharePayload = SharePayload(autoVersion: UrlVersion, lengths: Lengths, values: Texts)

  /** `payload.values[f]`. */
  function Value(p: SharePayload, f: Format): string {
    match f
    case V1 => p.values.v1
    case V2 => p.values.v2
    case Json => p.values.json
  }

  /** `buildSharePayload`: every format's text and its length, and `auto`
      set to v2 exactly when v2 is strictly shorter, so that it names a
      shortest URL encoding and a tie goes to v1. */
  function BuildSharePayload<L>(enc: Encoders<L>, level: L): (r: SharePayload)
    ensures r.values == Texts(enc.v1(level), enc.v2(level), enc.json(level))
    ensures r.lengths.v1 == |r.values.v1| && r.lengths.v2 == |r.values.v2| && r.lengths.json == |r.values.json|
    ensures r.autoVersion == V2 <==> |r.values.v2| < |r.values.v1|
    ensures |Value(r, r.autoVersion)| <= |r.values.v1| && |Value(r, r.autoVersion)| <= |r.values.v2|
  {
    var v1 := enc.v1(level);
    var v2 := enc.v2(level);
    var json := enc.json(level);
    SharePayload(if |v2| < |v1| then V2 else V1, Lengths(|v1|, |v2|, |json|), Texts(v1, v2, json))
  }

  /** `resolveShareMode`: `auto` becomes the payload's choice, any other
      mode stands; the result is never `auto` (its type says so). */
  function ResolveShareMode(p: SharePayload, mode: ShareMode): (r: Format)
    ensures mode == Auto ==> r == p.autoVersion
    ensures mode != Auto ==> r == mode
  {
    if mode == Auto then p.autoVersion else mode
  }

  /** `getShareValue`: the text of the resolved format. */
  function GetShareValue(p: SharePayload, mode: ShareMode): (r: string)
    ensures mode == V1 ==> r == p.values.v1
    ensures mode == V2 ==> r == p.values.v2
    ensures mode == Json ==> r == p.values.json
    ensures mode == Auto ==> r == Value(p, p.autoVersion)
  {
    Value(p, ResolveShareMode(p, mode))
  }

  /** On a built payload, `auto` yields the shorter URL encoding of the
      level, v1 on a tie, and an explicit mode yields that encoder's text. */
  lemma {:induction false} AutoSharesShortest<L>(enc: Encoders<L>, level: L, mode: ShareMode)
    ensures var r := GetShareValue(BuildSharePayload(enc, level), mode);
      && (mode == Auto && |enc.v2(level)| < |enc.v1(level)| ==> r == enc.v2(level))
      && (mode == Auto && |enc.v1(level)| <= |enc.v2(level)| ==> r == enc.v1(level))
      && (mode == V1 ==> r == enc.v1(level))
      && (mode == V2 ==> r == enc.v2(level))
      && (mode == Json ==> r == enc.json(level))
  {
  }
}

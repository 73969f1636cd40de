/** Rebuilding the signed text from a received order (execution_motor/proto_adapter.py): which side
    name is taken, and what a matching digest says about the order. The digest is a parameter. */
module SignedText {
  import opened Prelude
  import opened Canonical

  /** The fields of an OrderRequest and its Attestation that the text is built from. */
  datatype Received = Received(
    orderSide: int, orderType: int, signalId: string, symbol: string, qtyNanos: int, limitPriceNanos: int,
    stopPriceNanos: int, decidedAtNs: int, expiresAtNs: int, aegisStateSeq: int, limitsConfig: string, keyId: string,
    payloadDigest: string)

  function TypeName(orderType: int): (r: Option<string>)
    ensures r.Some? <==> 1 <= orderType <= 4
    ensures r.Some? ==> r.value == ["MARKET", "LIMIT", "STOP", "STOP_LIMIT"][orderType - 1]
  {
    if orderType == 1 then Some("MARKET")
    else if orderType == 2 then Some("LIMIT")
    else if orderType == 3 then Some("STOP")
    else if orderType == 4 then Some("STOP_LIMIT")
    else None
  }

  function FieldsOf(m: Received, side: string): Fields
    requires TypeName(m.orderType).Some?
  {
    Fields(m.signalId, m.symbol, side, TypeName(m.orderType).value, m.qtyNanos, m.limitPriceNanos, m.stopPriceNanos,
           m.decidedAtNs, m.expiresAtNs, m.aegisStateSeq, m.limitsConfig, m.keyId)
  }

  /** canonical_attestation_text for a given side name. */
  function CanonicalAttestationText(m: Received, side: string): Result<string, string> {
    if TypeName(m.orderType).None? then Err("order_type") else BuildCanonicalText(FieldsOf(m, side))
  }

  /** The text of every candidate can be built; the side plays no part in that. */
  predicate Acceptable(m: Received) {
    TypeName(m.orderType).Some? && Buildable(FieldsOf(m, SIDE_BUY))
  }

  predicate Matches(m: Received, side: string, sha: string -> string)
    requires Acceptable(m)
  {
    sha(Text(FieldsOf(m, side))) == m.payloadDigest
  }

  /** `name` is the first candidate whose digest is the claimed one, or else the first candidate. */
  ghost predicate Selected(m: Received, names: seq<string>, name: string, sha: string -> string)
    requires Acceptable(m)
  {
    exists k :: 0 <= k < |names| && names[k] == name
      && (forall j :: 0 <= j < k ==> !Matches(m, names[j], sha))
      && (Matches(m, name, sha) || (k == 0 && forall j :: 0 <= j < |names| ==> !Matches(m, names[j], sha)))
  }

  /** _select_signed_text. */
  method SelectSignedText(m: Received, allowShort: bool, sha: string -> string)
    returns (r: Result<(string, string), string>)
    ensures r.Ok? <==> (m.orderSide == 1 || m.orderSide == 2) && Acceptable(m)
    ensures r.Ok? ==>
      && (m.orderSide == 1 ==> r.value.1 == "BUY")
      && (m.orderSide == 2 ==> r.value.1 == "SELL" || (allowShort && r.value.1 == "SELL_SHORT"))
      && Selected(m, CandidateSideNames(m.orderSide, allowShort).value, r.value.1, sha)
      && r.value.0 == Text(FieldsOf(m, r.value.1))
  {
    var names := CandidateSideNames(m.orderSide, allowShort);
    if names.None? {
      return Err("side");
    }
    var first: Option<(string, string)> := None;
    for k := 0 to |names.value|
      invariant k > 0 ==> Acceptable(m) && first == Some((Text(FieldsOf(m, names.value[0])), names.value[0]))
      invariant k == 0 ==> first.None?
      invariant k > 0 ==> forall j :: 0 <= j < k ==> !Matches(m, names.value[j], sha)
    {
      var name := names.value[k];
      var text := CanonicalAttestationText(m, name);
      if text.Err? {
        return Err(text.error);
      }
      if sha(text.value) == m.payloadDigest {
        return Ok((text.value, name));
      }
      if first.None? {
        first := Some((text.value, name));
      }
    }
    return Ok(first.value);
  }

  /** No two texts share a digest: what the signature scheme assumes of its hash. */
  ghost predicate CollisionFree(sha: string -> string) {
    forall a, b :: sha(a) == sha(b) ==> a == b
  }

  /** The order carries the very values that were signed, its side aside. */
  predicate Carries(m: Received, signed: Fields) {
    && m.signalId == signed.signalId && m.symbol == signed.symbol
    && 1 <= m.orderType <= 4 && signed.orderType == ["MARKET", "LIMIT", "STOP", "STOP_LIMIT"][m.orderType - 1]
    && m.qtyNanos == signed.qtyNanos && m.limitPriceNanos == signed.limitPriceNanos
    && m.stopPriceNanos == signed.stopPriceNanos && m.decidedAtNs == signed.decidedAtNs
    && m.expiresAtNs == signed.expiresAtNs && m.aegisStateSeq == signed.aegisStateSeq
    && m.limitsConfig == signed.limitsConfig && m.keyId == signed.keyId
  }

  /** When the claimed digest is that of a text Aegis signed, the selected text passes the digest
      comparison exactly when the order carries the very fields that were signed and its side may
      stand for the signed one; the selected side is then the signed side. */
  lemma DigestBindsEveryField(m: Received, names: seq<string>, name: string, sha: string -> string, signed: Fields)
    requires CollisionFree(sha) && Acceptable(m) && Selected(m, names, name, sha)
    requires Buildable(signed) && m.payloadDigest == sha(Text(signed))
    ensures Matches(m, name, sha) <==> signed.side in names && Carries(m, signed)
    ensures Matches(m, name, sha) ==> name == signed.side
  {
    if Matches(m, name, sha) {
      TextIsInjective(FieldsOf(m, name), signed);
    }
    if signed.side in names && Carries(m, signed) {
      var j :| 0 <= j < |names| && names[j] == signed.side;
      assert Matches(m, names[j], sha);
    }
  }

  /** With short selling disabled an attestation of a short sale is never accepted. */
  lemma ShortsNeedPermission(m: Received, name: string, sha: string -> string, signed: Fields)
    requires CollisionFree(sha) && Acceptable(m) && Buildable(signed) && m.payloadDigest == sha(Text(signed))
    requires signed.side == "SELL_SHORT" && CandidateSideNames(m.orderSide, false).Some?
    requires Selected(m, CandidateSideNames(m.orderSide, false).value, name, sha)
    ensures !Matches(m, name, sha)
  {
    DigestBindsEveryField(m, CandidateSideNames(m.orderSide, false).value, name, sha, signed);
  }
}

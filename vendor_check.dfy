/**
 * The hard-coded vendor blocklist that the payment path consults: a UPI id is
 * blocked when its normalisation equals one of five constants, lowered.
 */
module VendorCheck {
  import opened Text

  /** `BLOCKED_VENDORS`. */
  const BlockedVendors: seq<string> :=
    ["zomato@upi", "swiggy@upi", "dunzo@upi", "blinkit@upi", "zepto@upi"]

  /** `vendors.some(vendor => normalized === vendor.toLowerCase())`. */
  function AnyMatches(normalized: string, vendors: seq<string>): (found: bool)
    ensures found <==> exists i :: 0 <= i < |vendors| && normalized == ToLower(vendors[i])
  {
    if vendors == [] then false
    else normalized == ToLower(vendors[0]) || AnyMatches(normalized, vendors[1..])
  }

  /** Every constant is written in lower case, so lowering it changes nothing. */
  lemma VendorsAreLower()
    ensures forall i :: 0 <= i < |BlockedVendors| ==> ToLower(BlockedVendors[i]) == BlockedVendors[i]
  {
    forall i | 0 <= i < |BlockedVendors|
      ensures ToLower(BlockedVendors[i]) == BlockedVendors[i]
    {
      var v := BlockedVendors[i];
      assert NoUpper(v);
      ToLowerOfLower(v);
    }
  }

  /**
   * `checkVendorBlocklist`: true when the UPI id must not be paid. As the
   * constants are lower-case, this is exactly "the normalised id is listed".
   */
  function CheckVendorBlocklist(upiId: string): (blocked: bool)
    ensures blocked <==> Normalize(upiId) in BlockedVendors
  {
    VendorsAreLower();
    AnyMatches(Normalize(upiId), BlockedVendors)
  }

  /** Every constant is its own normalisation. */
  lemma VendorsAreNormalized()
    ensures forall v :: v in BlockedVendors ==> Normalize(v) == v
  {
    forall v | v in BlockedVendors ensures Normalize(v) == v {
      assert NoUpper(v);
      NormalizeOfNormalized(v);
    }
  }

  /** A listed vendor is blocked however it is cased and padded with whitespace. */
  lemma CaseAndPaddingIgnored(pre: string, id: string, post: string)
    requires AllWhitespace(pre) && AllWhitespace(post)
    requires ToLower(id) in BlockedVendors
    ensures CheckVendorBlocklist(pre + id + post)
  {
    NormalizeIgnoresPadding(pre, id, post);
    NormalizeIgnoresCase(id);
    VendorsAreNormalized();
  }

  /** `" ZOMATO@UPI "` is blocked. */
  lemma PaddedCapitalsBlocked(id: string)
    requires id == "ZOMATO@UPI"
    ensures CheckVendorBlocklist(" " + id + " ")
  {
    var lowered := ToLower(id);
    forall i | 0 <= i < |id| ensures lowered[i] == "zomato@upi"[i] {
      assert lowered[i] == LowerChar(id[i]);
    }
    assert lowered == "zomato@upi";
    CaseAndPaddingIgnored(" ", id, " ");
  }

  /** An id whose normalisation is longer than every constant is never blocked. */
  lemma LongIdNotBlocked(upiId: string)
    requires |Normalize(upiId)| > 11
    ensures !CheckVendorBlocklist(upiId)
  {
    assert forall v :: v in BlockedVendors ==> |v| <= 11;
  }

  /** `"zomato@upi.com"` is already lower-case and trimmed. */
  lemma SuperstringIsNormalized(id: string)
    requires id == "zomato@upi.com"
    ensures Normalize(id) == id && |id| == 14
  {
    assert NoUpper(id);
    assert !IsWhitespace(id[0]) && !IsWhitespace(id[13]);
    NormalizeOfNormalized(id);
  }

  /** Only exact matches block: `"zomato@upi.com"` merely extends a listed id and passes. */
  lemma SuperstringNotBlocked(id: string)
    requires id == "zomato@upi.com"
    ensures !CheckVendorBlocklist(id)
  {
    SuperstringIsNormalized(id);
    LongIdNotBlocked(id);
  }

  /** A listed vendor, typed exactly, is blocked. */
  lemma ListedBlocked(upiId: string)
    requires upiId in BlockedVendors
    ensures CheckVendorBlocklist(upiId)
  {
    VendorsAreNormalized();
  }
}

/**
 * lib/brandCheck.js `isBrandAllowed`: a case-insensitive brand gate. The two lists
 * come from a configuration file that is not part of this model, so they are
 * parameters; entries are compared with the lower-cased brand as they are.
 */
module BrandCheck {
  import opened Text

  function IsBrandAllowed(brand: string, blacklist: seq<string>, whitelist: seq<string>): (ok: bool)
    ensures ok <==> brand != "" && ToLower(brand) !in blacklist && (whitelist != [] ==> ToLower(brand) in whitelist)
  {
    if brand == "" then false
    else
      var b := ToLower(brand);
      if b in blacklist then false
      else if |whitelist| > 0 && b !in whitelist then false
      else true
  }

  /** A falsy brand is never allowed. */
  lemma EmptyBrandRejected(blacklist: seq<string>, whitelist: seq<string>)
    ensures !IsBrandAllowed("", blacklist, whitelist)
  {
  }

  /** Two brands that differ only in the case of their letters get the same answer. */
  lemma {:induction false} CaseInsensitive(a: string, b: string, blacklist: seq<string>, whitelist: seq<string>)
    requires ToLower(a) == ToLower(b)
    ensures IsBrandAllowed(a, blacklist, whitelist) == IsBrandAllowed(b, blacklist, whitelist)
  {
    assert |a| == |ToLower(a)| == |b|;
  }

  /** The blacklist takes precedence: a brand on both lists is rejected. */
  lemma BlacklistWins(brand: string, blacklist: seq<string>, whitelist: seq<string>)
    requires ToLower(brand) in blacklist && ToLower(brand) in whitelist
    ensures !IsBrandAllowed(brand, blacklist, whitelist)
  {
  }

  /** With a non-empty whitelist, a brand off the list is rejected. */
  lemma WhitelistRequired(brand: string, blacklist: seq<string>, whitelist: seq<string>)
    requires whitelist != [] && ToLower(brand) !in whitelist
    ensures !IsBrandAllowed(brand, blacklist, whitelist)
  {
  }

  /** With an empty whitelist, exactly the truthy brands off the blacklist are allowed. */
  lemma EmptyWhitelistAllowsRest(brand: string, blacklist: seq<string>)
    ensures IsBrandAllowed(brand, blacklist, []) <==> brand != "" && ToLower(brand) !in blacklist
  {
  }

  /** A list entry holding an upper-case letter can never match, since the brand is lower-cased first. */
  lemma UpperCaseEntryNeverMatches(brand: string, entry: string)
    requires HasUpper(entry)
    ensures ToLower(brand) != entry
  {
    NotALowerCaseImage(brand, entry);
  }
}

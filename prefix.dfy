/**
 * The URL rewriter: `remove_prefix(text, prefix)`, a plain, case-sensitive
 * prefix strip with no normalisation of slashes, case or query strings.
 * Both scripts carry an identical copy of it.
 */
module Prefix {

  /** `text.startswith(prefix)`. */
  predicate StartsWith(text: string, prefix: string)
  {
    prefix <= text
  }

  /**
   * `remove_prefix`: when `text` starts with `prefix` the result is what
   * follows the prefix, so that `prefix + r` rebuilds `text`; otherwise
   * `text` comes back unchanged.
   */
  function RemovePrefix(text: string, prefix: string): (r: string)
    ensures StartsWith(text, prefix) ==> prefix + r == text
    ensures !StartsWith(text, prefix) ==> r == text
  {
    if StartsWith(text, prefix) then text[|prefix|..] else text
  }

  /** Stripping what was just prepended gives back the original: a round trip. */
  lemma RemovePrefixOfPrepended(prefix: string, rest: string)
    ensures RemovePrefix(prefix + rest, prefix) == rest
  {
    assert StartsWith(prefix + rest, prefix);
  }

  /**
   * For a non-empty prefix the strip changes its input exactly when the
   * input starts with the prefix (the test `url_full != url_path` in the
   * build script relies on this).
   */
  lemma StripChangesIff(text: string, prefix: string)
    requires prefix != ""
    ensures RemovePrefix(text, prefix) != text <==> StartsWith(text, prefix)
  {
    if StartsWith(text, prefix) {
      assert |RemovePrefix(text, prefix)| < |text|;
    }
  }

  /**
   * A second strip leaves the result alone exactly when the remainder of the
   * first does not itself start with the prefix: the strip is idempotent on
   * such inputs and on no others.
   */
  lemma ReapplyIff(text: string, prefix: string)
    requires prefix != ""
    ensures var once := RemovePrefix(text, prefix);
            RemovePrefix(once, prefix) == once <==> !StartsWith(once, prefix)
  {
    StripChangesIff(RemovePrefix(text, prefix), prefix);
  }

  /**
   * The strip is not idempotent in general: a URL that carries the domain
   * prefix twice loses it once per application.
   */
  lemma NotIdempotent()
    ensures var p := "https://a";
            var t := "https://ahttps://a/x";
            RemovePrefix(RemovePrefix(t, p), p) != RemovePrefix(t, p)
  {
    var p := "https://a";
    var t := "https://ahttps://a/x";
    assert RemovePrefix(t, p) == "https://a/x" by {
      assert p + "https://a/x" == t;
      RemovePrefixOfPrepended(p, "https://a/x");
    }
    assert RemovePrefix("https://a/x", p) == "/x" by {
      assert p + "/x" == "https://a/x";
      RemovePrefixOfPrepended(p, "/x");
    }
  }
}

/**
 * The fixed part of the profile-URL pattern: the four strings that
 * `https?://(?:www\.)?instagram\.com/` matches, and the facts about them the
 * link extractor relies on.
 */
module UrlPrefix {
  const Https: string := "https://"
  const Http: string := "http://"
  const Www: string := "www."
  const Host: string := "instagram.com/"

  /** The four expansions of `https?://(?:www\.)?instagram\.com/`, in the order the regex tries them. */
  const UrlPrefixes: seq<string> := [Https + Www + Host, Https + Host, Http + Www + Host, Http + Host]

  /** No prefix in the list starts another one. */
  ghost predicate PrefixFree(prefixes: seq<string>) {
    forall p, q :: p in prefixes && q in prefixes && p <= q ==> p == q
  }

  lemma UrlPrefixesFree()
    ensures PrefixFree(UrlPrefixes)
  {
    forall p, q | p in UrlPrefixes && q in UrlPrefixes && p <= q ensures p == q {
      assert p[4] == q[4];
      if p[4] == 's' { assert p[8] == q[8]; } else { assert p[7] == q[7]; }
    }
  }

  /** What every prefix spells: a scheme, then a host ending in `instagram.com/`. */
  lemma PrefixShape(p: string)
    requires p in UrlPrefixes
    ensures Https <= p || Http <= p
    ensures |p| >= |Host| && p[|p| - |Host|..] == Host
  {
    var scheme := if p == UrlPrefixes[0] || p == UrlPrefixes[1] then Https else Http;
    var middle := if p == UrlPrefixes[0] || p == UrlPrefixes[2] then Www else "";
    assert p == scheme + middle + Host;
  }
}

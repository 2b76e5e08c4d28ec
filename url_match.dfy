/**
 * The URL filter of the navigation listener in background.js: JavaScript's
 * `String.prototype.includes` on the page URL, against the three supported sites.
 */
module UrlMatch {

  /** `sub` occurs in `s` starting at index `i`. */
  predicate OccursAt(s: string, sub: string, i: nat) {
    i + |sub| <= |s| && s[i..i + |sub|] == sub
  }

  /** `s.includes(sub)`: tries every start position from the left. */
  function Includes(s: string, sub: string): (b: bool)
    ensures b <==> exists i: nat :: OccursAt(s, sub, i)
    decreases |s|
  {
    if |sub| > |s| then false
    else if s[..|sub|] == sub then assert OccursAt(s, sub, 0); true
    else
      ShiftOccurrence(s, sub);
      Includes(s[1..], sub)
  }

  /** `sub` occurs in `s` exactly when it occurs at the front or somewhere in `s[1..]`. */
  lemma ShiftOccurrence(s: string, sub: string)
    requires |s| > 0
    ensures (exists i: nat :: OccursAt(s, sub, i))
        <==> OccursAt(s, sub, 0) || exists i: nat :: OccursAt(s[1..], sub, i)
  {
    forall i: nat | OccursAt(s, sub, i) && i > 0
      ensures OccursAt(s[1..], sub, i - 1)
    {
      assert s[1..][i - 1..i - 1 + |sub|] == s[i..i + |sub|];
    }
    forall i: nat | OccursAt(s[1..], sub, i)
      ensures OccursAt(s, sub, i + 1)
    {
      assert s[1..][i..i + |sub|] == s[i + 1..i + 1 + |sub|];
    }
  }

  /**
   * The navigation filter's site test: the URL is non-empty and one of the three
   * site names occurs somewhere in it (anywhere, not only in the host).
   */
  function IsVideoSiteUrl(url: string): (b: bool)
    ensures b <==> |url| > 0 && exists i: nat ::
      OccursAt(url, "youtube.com", i) || OccursAt(url, "vk.com", i) || OccursAt(url, "vkvideo.ru", i)
  {
    |url| > 0 && (Includes(url, "youtube.com") || Includes(url, "vk.com") || Includes(url, "vkvideo.ru"))
  }

  /** Every page under `https://www.youtube.com/` is a supported site. */
  lemma WatchPageIsVideoSite(rest: string)
    ensures IsVideoSiteUrl("https://www.youtube.com/" + rest)
  {
    assert OccursAt("youtube.com", "youtube.com", 0);
    OccursWithin("https://www.", "youtube.com", "/" + rest, "youtube.com", 0);
    assert "https://www." + "youtube.com" + ("/" + rest) == "https://www.youtube.com/" + rest;
  }

  /** An occurrence of `sub` in `url` is still one after text is added on either side. */
  lemma OccursWithin(prefix: string, url: string, suffix: string, sub: string, i: nat)
    requires OccursAt(url, sub, i)
    ensures OccursAt(prefix + url + suffix, sub, |prefix| + i)
  {
    assert (prefix + url + suffix)[|prefix| + i..|prefix| + i + |sub|] == url[i..i + |sub|];
  }

  /**
   * The filter matches substrings, not hosts: a URL that passes still passes
   * with anything added in front of it or after it.
   */
  lemma EmbeddedUrlIsVideoSite(prefix: string, url: string, suffix: string)
    requires IsVideoSiteUrl(url)
    ensures IsVideoSiteUrl(prefix + url + suffix)
  {
    var i: nat :| OccursAt(url, "youtube.com", i) || OccursAt(url, "vk.com", i) || OccursAt(url, "vkvideo.ru", i);
    var site := if OccursAt(url, "youtube.com", i) then "youtube.com"
      else if OccursAt(url, "vk.com", i) then "vk.com" else "vkvideo.ru";
    OccursWithin(prefix, url, suffix, site, i);
  }
}

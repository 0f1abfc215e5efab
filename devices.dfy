/** The two user-agent keyword tests: `is_mobile` of the visit analytics,
    which ignores case, and the test inside the dashboard's
    `is_mobile_device`, which does not. */
module Devices {
  import opened Basics

  const MobileKeywords: seq<string> :=
    ["Android", "webOS", "iPhone", "iPad", "iPod", "BlackBerry", "Windows Phone"]

  /** `any(k in haystack for k in keywords)`, optionally lowering both sides. */
  function AnyKeyword(haystack: string, keywords: seq<string>, ignoreCase: bool): (r: bool)
    ensures r <==> exists i :: 0 <= i < |keywords| &&
                     (if ignoreCase then Contains(Lower(haystack), Lower(keywords[i]))
                      else Contains(haystack, keywords[i]))
  {
    if keywords == [] then false
    else
      var hit := if ignoreCase then Contains(Lower(haystack), Lower(keywords[0]))
                 else Contains(haystack, keywords[0]);
      hit || AnyKeyword(haystack, keywords[1..], ignoreCase)
  }

  /** `is_mobile(user_agent)`: False for an empty user agent, otherwise
      whether one of the keywords occurs in it, ignoring ASCII case. */
  function IsMobile(userAgent: string): (r: bool)
    ensures r <==> userAgent != "" &&
                   exists i :: 0 <= i < |MobileKeywords| && Contains(Lower(userAgent), Lower(MobileKeywords[i]))
  {
    if userAgent == "" then false else AnyKeyword(userAgent, MobileKeywords, true)
  }

  /** The keyword test of `is_mobile_device`: None ("not known yet") when the
      browser has not reported a user agent or reported an empty one,
      otherwise whether a keyword occurs in it with the case as written. */
  function DetectMobileDevice(userAgent: Option<string>): (r: Option<bool>)
    ensures r.None? <==> userAgent.None? || userAgent.value == ""
    ensures r.Some? ==> (r.value <==> exists i :: 0 <= i < |MobileKeywords| && Contains(userAgent.value, MobileKeywords[i]))
  {
    match userAgent
    case None => None
    case Some(ua) => if ua == "" then None else Some(AnyKeyword(ua, MobileKeywords, false))
  }

  /** Whatever the dashboard calls mobile, the analytics call mobile too. */
  lemma DetectedMobileIsMobile(userAgent: string)
    requires DetectMobileDevice(Some(userAgent)) == Some(true)
    ensures IsMobile(userAgent)
  {
    var i :| 0 <= i < |MobileKeywords| && Contains(userAgent, MobileKeywords[i]);
    ContainsLower(userAgent, MobileKeywords[i]);
  }

  lemma LowerOfUpper(s: string)
    ensures Lower(Upper(s)) == Lower(s)
  {
    assert forall i :: 0 <= i < |s| ==> Lower(Upper(s))[i] == Lower(s)[i];
  }

  /** `is_mobile` gives the same answer for a user agent in any ASCII case. */
  lemma IsMobileIgnoresCase(userAgent: string)
    ensures IsMobile(Lower(userAgent)) == IsMobile(userAgent)
    ensures IsMobile(Upper(userAgent)) == IsMobile(userAgent)
  {
    LowerIdempotent(userAgent);
    LowerOfUpper(userAgent);
  }

  /** A keyword whose first character does not occur in the haystack does
      not occur in it. */
  lemma FirstCharAbsent(haystack: string, needle: string)
    requires needle != [] && needle[0] !in haystack
    ensures !Contains(haystack, needle)
  {
    forall i | 0 <= i <= |haystack| - |needle| ensures !OccursAt(haystack, needle, i) {
      assert haystack[i] in haystack;
      assert haystack[i..i + |needle|][0] == haystack[i];
    }
  }

  /** The two variants disagree on an upper-case user agent. */
  lemma VariantsDisagree()
    ensures IsMobile("ANDROID")
    ensures DetectMobileDevice(Some("ANDROID")) == Some(false)
  {
    assert Lower("ANDROID") == "android" && Lower(MobileKeywords[0]) == "android";
    assert OccursAt(Lower("ANDROID"), Lower(MobileKeywords[0]), 0);
    assert "ANDROID"[0..7][1] != "Android"[1];
    assert !OccursAt("ANDROID", "Android", 0);
    FirstCharAbsent("ANDROID", "webOS");
    FirstCharAbsent("ANDROID", "iPhone");
    FirstCharAbsent("ANDROID", "iPad");
    FirstCharAbsent("ANDROID", "iPod");
    FirstCharAbsent("ANDROID", "BlackBerry");
    FirstCharAbsent("ANDROID", "Windows Phone");
  }
}

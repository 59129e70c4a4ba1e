/** Reading a ticket id back out of a deep link: the first match of
    `manusapp://ticket/([a-zA-Z0-9-]+)` anywhere in the URL, with a greedy id group. */
module DeepLink {
  import opened Text
  import opened Tickets
  import QrCode

  /** The character class `[a-zA-Z0-9-]`. */
  predicate IsIdChar(c: char) {
    'a' <= c <= 'z' || 'A' <= c <= 'Z' || '0' <= c <= '9' || c == '-'
  }

  predicate IsId(s: string) {
    |s| > 0 && forall k :: 0 <= k < |s| ==> IsIdChar(s[k])
  }

  /** The pattern can match at `i`: the prefix occurs there and at least one id character follows. */
  predicate MatchesAt(url: string, prefix: string, i: int) {
    OccursAt(url, prefix, i) && i + |prefix| < |url| && IsIdChar(url[i + |prefix|])
  }

  /** `i` is where an unanchored, non-global regex match starts: the first position that can match. */
  predicate IsLeftmostMatch(url: string, prefix: string, i: int) {
    MatchesAt(url, prefix, i) && forall j :: 0 <= j < i ==> !MatchesAt(url, prefix, j)
  }

  /** Position `e` ends a greedy run of id characters. */
  predicate EndsRun(url: string, e: int) {
    0 <= e <= |url| && (e == |url| || !IsIdChar(url[e]))
  }

  /** The first position at or after `from` where the pattern matches. */
  function FindMatch(url: string, prefix: string, from: nat): (r: Option<nat>)
    requires from <= |url|
    ensures r.None? ==> forall i :: from <= i ==> !MatchesAt(url, prefix, i)
    ensures r.Some? ==> from <= r.value && MatchesAt(url, prefix, r.value)
    ensures r.Some? ==> forall i :: from <= i < r.value ==> !MatchesAt(url, prefix, i)
    decreases |url| - from
  {
    if from == |url| then None
    else if MatchesAt(url, prefix, from) then Some(from)
    else FindMatch(url, prefix, from + 1)
  }

  /** The end of the longest run of id characters starting at `k` (the greedy `+`). */
  function RunEnd(url: string, k: nat): (e: nat)
    requires k <= |url|
    ensures k <= e && EndsRun(url, e)
    ensures forall j :: k <= j < e ==> IsIdChar(url[j])
    decreases |url| - k
  {
    if k < |url| && IsIdChar(url[k]) then RunEnd(url, k + 1) else k
  }

  /** The capture group of the first match of `<prefix>([a-zA-Z0-9-]+)` in `url`, or `None`. */
  function ParseAfter(prefix: string, url: string): (r: Option<string>)
    ensures r.None? <==> forall i :: !MatchesAt(url, prefix, i)
    ensures r.Some? ==> IsId(r.value)
    ensures r.Some? ==> exists i :: IsLeftmostMatch(url, prefix, i)
                                    && OccursAt(url, r.value, i + |prefix|)
                                    && EndsRun(url, i + |prefix| + |r.value|)
  {
    match FindMatch(url, prefix, 0)
    case None => None
    case Some(i) =>
      var e := RunEnd(url, i + |prefix|);
      var id := url[i + |prefix|..e];
      assert IsLeftmostMatch(url, prefix, i);
      assert OccursAt(url, id, i + |prefix|) && i + |prefix| + |id| == e;
      Some(id)
  }

  /** The literal the parser looks for; it does not follow the configured scheme. */
  const LinkPattern: string := "manusapp://ticket/"

  /** `parseTicketDeepLink`. The regex cannot throw, so its `catch` branch is never taken. */
  function ParseTicketDeepLink(url: string): (r: Option<string>)
    ensures r.None? <==> forall i :: !MatchesAt(url, LinkPattern, i)
    ensures r.Some? ==> IsId(r.value)
    ensures r.Some? ==> exists i :: IsLeftmostMatch(url, LinkPattern, i)
                                    && OccursAt(url, r.value, i + |LinkPattern|)
                                    && EndsRun(url, i + |LinkPattern| + |r.value|)
  {
    ParseAfter(LinkPattern, url)
  }

  /** The parser's literal is the link prefix of the default scheme. */
  lemma PatternIsDefaultPrefix()
    ensures LinkPattern == QrCode.LinkPrefix(QrCode.DefaultScheme)
  {
  }

  /** The parse for links generated under `scheme`, as the generator builds them. */
  function ParseTicketDeepLinkFor(scheme: string, url: string): (r: Option<string>)
    ensures scheme == QrCode.DefaultScheme ==> r == ParseTicketDeepLink(url)
  {
    PatternIsDefaultPrefix();
    ParseAfter(QrCode.LinkPrefix(scheme), url)
  }

  /** Parsing the deep link of a ticket gives back its id, whatever the scheme, when the id is
      made of id characters (as a UUID is). */
  lemma {:induction false} RoundTrip(t: Ticket, scheme: string)
    requires IsId(t.id)
    ensures ParseTicketDeepLinkFor(scheme, QrCode.GenerateTicketQRData(t, scheme)) == Some(t.id)
  {
    var p := QrCode.LinkPrefix(scheme);
    var url := QrCode.GenerateTicketQRData(t, scheme);
    assert url == p + t.id;
    assert url[..|p|] == p;
    assert url[|p|] == t.id[0];
    assert MatchesAt(url, p, 0);
    assert FindMatch(url, p, 0) == Some(0);
    var e := RunEnd(url, |p|);
    assert url[|p|..e] == t.id;
  }

  /** With the default scheme the deployed parser reads back every generated link. */
  lemma DefaultRoundTrip(t: Ticket)
    requires IsId(t.id)
    ensures ParseTicketDeepLink(QrCode.GenerateTicketQRData(t, QrCode.Scheme(None))) == Some(t.id)
  {
    RoundTrip(t, QrCode.DefaultScheme);
  }

  /** The id stops at the first character outside the class: `.../ticket/abc/def` gives `abc`. */
  lemma StopsAtSlash()
    ensures ParseTicketDeepLink("manusapp://ticket/abc/def") == Some("abc")
  {
    var url := "manusapp://ticket/abc/def";
    assert url[..18] == LinkPattern;
    assert MatchesAt(url, LinkPattern, 0);
    assert FindMatch(url, LinkPattern, 0) == Some(0);
    assert url[18] == 'a' && url[19] == 'b' && url[20] == 'c' && url[21] == '/';
    var e := RunEnd(url, 18);
    assert e == 21;
    assert url[18..21] == "abc";
  }

  /** The match is unanchored: text before the link is skipped. */
  lemma FindsLinkInsideText()
    ensures ParseTicketDeepLink("open " + LinkPattern + "A-1") == Some("A-1")
  {
    var url := "open " + LinkPattern + "A-1";
    assert url[5..23] == LinkPattern;
    assert MatchesAt(url, LinkPattern, 5);
    forall j | 0 <= j < 5 ensures !MatchesAt(url, LinkPattern, j) {
      assert url[j] == "open "[j] != LinkPattern[0];
    }
    assert FindMatch(url, LinkPattern, 0) == Some(5);
    var e := RunEnd(url, 23);
    assert url[23] == 'A' && url[24] == '-' && url[25] == '1';
    assert e == 26;
    assert url[23..26] == "A-1";
  }

  /** A link generated under another scheme is not recognised by the deployed parser. */
  lemma CustomSchemeIsNotParsed()
    ensures ParseTicketDeepLink(QrCode.GenerateTicketQRData(
      Ticket("abc", "", "", "", Laptop, "", "", "", "", "", 0.0, Pending, "", 0, None, 0, 0, false, None),
      "myapp")) == None
  {
    var url := QrCode.GenerateTicketQRData(
      Ticket("abc", "", "", "", Laptop, "", "", "", "", "", 0.0, Pending, "", 0, None, 0, 0, false, None),
      "myapp");
    assert |url| == 18;
    assert forall i :: !MatchesAt(url, LinkPattern, i);
  }

  /** `generateTelegramFallbackURL`: no link without a group, the id search otherwise. */
  function GenerateTelegramFallbackURL(ticketId: string, groupId: Option<string>): (link: string)
    ensures link == "" <==> groupId.None? || groupId.value == ""
    ensures link != "" ==> StartsWith(link, QrCode.TelegramSearch)
                           && link[|QrCode.TelegramSearch|..] == ticketId
  {
    if groupId.None? || groupId.value == "" then "" else QrCode.TelegramSearch + ticketId
  }

  /** The handler's fallback and the QR generator's fallback are the same link. */
  lemma FallbacksAgree(t: Ticket, groupId: Option<string>)
    ensures GenerateTelegramFallbackURL(t.id, groupId) == QrCode.GenerateTelegramFallbackLink(t, groupId)
  {
  }

  /** `handleTicketDeepLink`: true exactly when an id can be parsed (the parse never throws, so
      the Telegram fallback in its `catch` is unreachable). */
  function HandleTicketDeepLink(url: string, groupId: Option<string>): (handled: bool)
    ensures handled <==> exists i :: MatchesAt(url, LinkPattern, i)
    ensures handled ==> ParseTicketDeepLink(url).Some?
  {
    var ticketId := ParseTicketDeepLink(url);
    // The emptiness test mirrors the source's `!ticketId`; a parsed id is never empty.
    ticketId.Some? && ticketId.value != ""
  }
}

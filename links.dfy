/**
 * The link checker (validation/validate-links.js): external links are
 * extracted from each Markdown file, markdown-style links first and bare
 * URLs after them, and every URL not seen before in the run is either
 * skipped by a denylist or probed with HEAD, falling back to GET.  The
 * network is an oracle passed in as a function from request to transport
 * outcome.
 */
module LinkChecker {
  import opened Options
  import opened Strings
  import opened Findings

  // Finding categories and message fragments.
  const LinkSkipped := "Link Skipped"
  const BrokenLink := "Broken Link"
  const LinkErrorCategory := "Link Error"
  const FileReadError := "File Read Error"
  const SkippedPrefix := "Skipped validation for: "
  const HttpPrefix := "HTTP "
  const UnknownError := "Unknown error"

  /** `isExternalLink` */
  predicate IsExternalLink(url: string) {
    StartsWith(url, "http://") || StartsWith(url, "https://")
  }

  // ---------------------------------------------------------------------
  // The two regular expressions of `extractLinks`, matched from a position.
  // ---------------------------------------------------------------------

  /** The first index at or after `k` holding `c`, or `|s|`. */
  function IndexOf(s: string, c: char, k: nat): (r: nat)
    requires k <= |s|
    ensures k <= r <= |s|
    ensures r < |s| ==> s[r] == c
    ensures forall j | k <= j < r :: s[j] != c
    decreases |s| - k
  {
    if k == |s| || s[k] == c then k else IndexOf(s, c, k + 1)
  }

  datatype MarkdownMatch = MarkdownMatch(text: string, url: string, end: nat)

  /**
   * `/\[([^\]]*)\]\(([^)]+)\)/` tried at index `i`: the text runs to the
   * first `]`, which must be followed by `(`; the URL runs to the first `)`
   * and is not empty.  No backtracking can give another split, because
   * each group stops at the first character it excludes.
   */
  function MarkdownAt(s: string, i: nat): (m: Option<MarkdownMatch>)
    requires i < |s|
    ensures m.Some? ==> i < m.value.end <= |s|
  {
    if s[i] != '[' then None
    else
      var close := IndexOf(s, ']', i + 1);
      if close + 1 < |s| && s[close + 1] == '(' then
        var paren := IndexOf(s, ')', close + 2);
        if close + 2 < paren < |s| then Some(MarkdownMatch(s[i + 1..close], s[close + 2..paren], paren + 1))
        else None
      else None
  }

  /** `markdownLinkRegex.exec(content)` with `lastIndex` at `p`: the leftmost match from `p` on. */
  function NextMarkdown(s: string, p: nat): (m: Option<MarkdownMatch>)
    requires p <= |s|
    ensures m.Some? ==> p < m.value.end <= |s|
    decreases |s| - p
  {
    if p == |s| then None
    else if MarkdownAt(s, p).Some? then MarkdownAt(s, p)
    else NextMarkdown(s, p + 1)
  }

  /** The external markdown links of the matches from `p` on, in order. */
  function MarkdownLinks(s: string, p: nat): seq<Link>
    requires p <= |s|
    decreases |s| - p
  {
    match NextMarkdown(s, p)
    case None => []
    case Some(m) =>
      (if IsExternalLink(m.url) then [Link(m.text, m.url, Markdown)] else []) + MarkdownLinks(s, m.end)
  }

  /** A character `[^\s\)]` accepts. */
  predicate UrlChar(c: char) {
    !IsJsSpace(c) && c != ')'
  }

  /** The first index at or after `k` that `[^\s\)]` rejects, or `|s|`. */
  function UrlRunEnd(s: string, k: nat): (r: nat)
    requires k <= |s|
    ensures k <= r <= |s|
    ensures forall j | k <= j < r :: UrlChar(s[j])
    decreases |s| - k
  {
    if k < |s| && UrlChar(s[k]) then UrlRunEnd(s, k + 1) else k
  }

  /** The length of the `https?:\/\/` that starts at `i`, or 0. */
  function SchemeLength(s: string, i: nat): (n: nat)
    requires i <= |s|
    ensures n == 0 || n == 7 || n == 8
    ensures n == 8 ==> StartsWith(s[i..], "https://")
    ensures n == 7 ==> StartsWith(s[i..], "http://")
  {
    if StartsWith(s[i..], "https://") then 8 else if StartsWith(s[i..], "http://") then 7 else 0
  }

  datatype BareMatch = BareMatch(url: string, end: nat)

  /** `/https?:\/\/[^\s\)]+/` tried at index `i`; the run after the scheme is greedy and not empty. */
  function BareAt(s: string, i: nat): (m: Option<BareMatch>)
    requires i < |s|
    ensures m.Some? ==> i < m.value.end <= |s|
  {
    var n := SchemeLength(s, i);
    if n == 0 then None
    else
      var e := UrlRunEnd(s, i + n);
      if e == i + n then None else Some(BareMatch(s[i..e], e))
  }

  /** `urlRegex.exec(content)` with `lastIndex` at `p`. */
  function NextBare(s: string, p: nat): (m: Option<BareMatch>)
    requires p <= |s|
    ensures m.Some? ==> p < m.value.end <= |s|
    decreases |s| - p
  {
    if p == |s| then None
    else if BareAt(s, p).Some? then BareAt(s, p)
    else NextBare(s, p + 1)
  }

  /** The URLs of the bare matches from `p` on, in order. */
  function BareUrls(s: string, p: nat): seq<string>
    requires p <= |s|
    decreases |s| - p
  {
    match NextBare(s, p)
    case None => []
    case Some(m) => [m.url] + BareUrls(s, m.end)
  }

  /** `links.some(link => link.url === url)` */
  predicate HasUrl(links: seq<Link>, url: string) {
    exists k | 0 <= k < |links| :: links[k].url == url
  }

  /** One bare match: kept when external and when no link so far has its URL. */
  function AddBare(links: seq<Link>, url: string): seq<Link> {
    if IsExternalLink(url) && !HasUrl(links, url) then links + [Link(url, url, Bare)] else links
  }

  function AddBareAll(links: seq<Link>, urls: seq<string>): seq<Link>
    decreases |urls|
  {
    if urls == [] then links else AddBareAll(AddBare(links, urls[0]), urls[1..])
  }

  /** `extractLinks(content)` */
  function ExtractedLinks(content: string): seq<Link> {
    AddBareAll(MarkdownLinks(content, 0), BareUrls(content, 0))
  }

  // ---------------------------------------------------------------------
  // Properties of extraction.
  // ---------------------------------------------------------------------

  predicate AllExternal(links: seq<Link>) {
    forall k | 0 <= k < |links| :: IsExternalLink(links[k].url)
  }

  /** Every markdown link comes before every bare link. */
  predicate MarkdownFirst(links: seq<Link>) {
    forall i, j | 0 <= i < j < |links| :: links[j].kind == Markdown ==> links[i].kind == Markdown
  }

  /** No bare link repeats the URL of a link before it. */
  predicate BareIsNew(links: seq<Link>) {
    forall i, j | 0 <= i < j < |links| :: links[j].kind == Bare ==> links[i].url != links[j].url
  }

  /** A URL made only of characters `[^\s\)]` accepts. */
  predicate CleanUrl(url: string) {
    forall c | 0 <= c < |url| :: UrlChar(url[c])
  }

  /** Bare links hold no white space and no `)`. */
  predicate BareIsClean(links: seq<Link>) {
    forall k | 0 <= k < |links| :: links[k].kind == Bare ==> CleanUrl(links[k].url)
  }

  lemma {:induction false} MarkdownLinksShape(s: string, p: nat)
    requires p <= |s|
    ensures var links := MarkdownLinks(s, p);
      AllExternal(links) && forall k | 0 <= k < |links| :: links[k].kind == Markdown
    decreases |s| - p
  {
    match NextMarkdown(s, p) {
      case None =>
      case Some(m) => MarkdownLinksShape(s, m.end);
    }
  }

  lemma SchemeChars(s: string, i: nat, n: nat)
    requires i <= |s| && (n == 8 ==> StartsWith(s[i..], "https://")) && (n == 7 ==> StartsWith(s[i..], "http://"))
    requires n == 7 || n == 8
    ensures forall j | i <= j < i + n :: UrlChar(s[j])
  {
    forall j | i <= j < i + n
      ensures UrlChar(s[j])
    {
      if n == 8 {
        assert s[j] == s[i..][..8][j - i] == "https://"[j - i];
      } else {
        assert s[j] == s[i..][..7][j - i] == "http://"[j - i];
      }
    }
  }

  /** A bare match is external and made of URL characters only. */
  lemma BareAtShape(s: string, i: nat)
    requires i < |s| && BareAt(s, i).Some?
    ensures var url := BareAt(s, i).value.url;
      IsExternalLink(url) && CleanUrl(url)
  {
    var n := SchemeLength(s, i);
    var e := UrlRunEnd(s, i + n);
    var url := s[i..e];
    SchemeChars(s, i, n);
    assert url[..n] == s[i..][..n];
  }

  lemma {:induction false} BareUrlsShape(s: string, p: nat)
    requires p <= |s|
    ensures forall k | 0 <= k < |BareUrls(s, p)| :: IsExternalLink(BareUrls(s, p)[k]) && CleanUrl(BareUrls(s, p)[k])
    decreases |s| - p
  {
    var m := NextBare(s, p);
    if m.Some? {
      NextBareIsMatch(s, p);
      BareUrlsShape(s, m.value.end);
      var urls := BareUrls(s, p);
      assert urls == [m.value.url] + BareUrls(s, m.value.end);
      assert forall k | 1 <= k < |urls| :: urls[k] == BareUrls(s, m.value.end)[k - 1];
    }
  }

  lemma {:induction false} NextBareIsMatch(s: string, p: nat)
    requires p <= |s| && NextBare(s, p).Some?
    ensures IsExternalLink(NextBare(s, p).value.url)
    ensures CleanUrl(NextBare(s, p).value.url)
    decreases |s| - p
  {
    if BareAt(s, p).Some? {
      BareAtShape(s, p);
    } else {
      NextBareIsMatch(s, p + 1);
    }
  }

  /**
   * Adding bare URLs keeps the links before them, keeps the order
   * (markdown first), never repeats a URL with a bare link, keeps only
   * external clean URLs, and loses no external URL.
   */
  lemma {:induction false} AddBareAllKeeps(links: seq<Link>, urls: seq<string>)
    requires AllExternal(links) && MarkdownFirst(links) && BareIsNew(links) && BareIsClean(links)
    requires forall k | 0 <= k < |urls| :: CleanUrl(urls[k])
    ensures var r := AddBareAll(links, urls);
      && links <= r
      && AllExternal(r) && MarkdownFirst(r) && BareIsNew(r) && BareIsClean(r)
      && forall k | 0 <= k < |urls| :: IsExternalLink(urls[k]) ==> HasUrl(r, urls[k])
    decreases |urls|
  {
    if urls != [] {
      var next := AddBare(links, urls[0]);
      assert forall k | 0 <= k < |urls[1..]| :: urls[1..][k] == urls[k + 1];
      AddBareAllKeeps(next, urls[1..]);
      var r := AddBareAll(next, urls[1..]);
      if IsExternalLink(urls[0]) {
        var k :| 0 <= k < |next| && next[k].url == urls[0];
        assert r[k] == next[k];
      }
    }
  }

  /**
   * Every extracted link is external; markdown links precede bare ones; a
   * bare URL never repeats an earlier link's URL and holds no white space
   * or `)`; and every bare URL in the text is among the links.
   */
  lemma ExtractedLinksShape(content: string)
    ensures var links := ExtractedLinks(content);
      && AllExternal(links) && MarkdownFirst(links) && BareIsNew(links) && BareIsClean(links)
      && forall k | 0 <= k < |BareUrls(content, 0)| :: HasUrl(links, BareUrls(content, 0)[k])
  {
    var found := MarkdownLinks(content, 0);
    var urls := BareUrls(content, 0);
    MarkdownLinksShape(content, 0);
    BareUrlsShape(content, 0);
    AddBareAllKeeps(found, urls);
  }

  // ---------------------------------------------------------------------
  // Probing one link.
  // ---------------------------------------------------------------------

  /** Hosts skipped when the URL starts with `http://` or `https://` followed by them. */
  const LocalHosts: seq<string> := ["localhost", "127.0.0.1", "0.0.0.0"]

  /** Placeholder, request-blocking and authenticated domains, skipped wherever they occur. */
  const SkippedDomains: seq<string> :=
    ["example.com", "your-organization", "linkedin.com", "facebook.com", "twitter.com", "app.getport.io"]

  predicate StartsWithLocalHost(url: string, hosts: seq<string>) {
    hosts != [] &&
    (StartsWith(url, "http://" + hosts[0]) || StartsWith(url, "https://" + hosts[0]) || StartsWithLocalHost(url, hosts[1..]))
  }

  /** `shouldSkipLink` */
  predicate ShouldSkipLink(url: string) {
    StartsWithLocalHost(url, LocalHosts) || ContainsAny(url, SkippedDomains)
  }

  datatype Verb = Head | Get

  /** What the network does with a request: a status, or a failure with its error code, if any. */
  datatype Transport = Answered(status: nat) | NoAnswer(code: Option<string>)

  /** An axios request with `validateStatus: status < 500`: settled with a status, or rejected with a code. */
  datatype Reply = Resolved(status: nat) | Rejected(code: Option<string>)

  /**
   * The request as the validator sees it.  axios rejects a status of 500
   * or more, with the code `ERR_BAD_RESPONSE` for 5xx and no code above.
   */
  function Request(net: (Verb, string) -> Transport, verb: Verb, url: string): (r: Reply)
    ensures r.Resolved? ==> r.status < 500
  {
    match net(verb, url)
    case Answered(status) =>
      if status < 500 then Resolved(status) else Rejected(if status < 600 then Some("ERR_BAD_RESPONSE") else None)
    case NoAnswer(code) => Rejected(code)
  }

  /** `secondError.code || 'Unknown error'` */
  function CodeText(code: Option<string>): string {
    if code.Some? && code.value != "" then code.value else UnknownError
  }

  /** A settled response: 400 or more is a broken link. */
  function StatusErrors(path: string, link: Link, status: nat): seq<Finding> {
    if status >= 400 then [LinkFinding(path, BrokenLink, HttpPrefix + NatToString(status) + ": " + link.url, link)] else []
  }

  /** The HEAD request, then the GET request when HEAD is rejected. */
  function ProbeErrors(path: string, link: Link, net: (Verb, string) -> Transport): seq<Finding> {
    match Request(net, Head, link.url)
    case Resolved(status) => StatusErrors(path, link, status)
    case Rejected(_) =>
      match Request(net, Get, link.url)
      case Resolved(status) => StatusErrors(path, link, status)
      case Rejected(code) => [LinkFinding(path, LinkErrorCategory, CodeText(code) + ": " + link.url, link)]
  }

  /** What the validator has accumulated: the findings and the URLs already checked. */
  datatype Progress = Progress(errors: seq<Finding>, warnings: seq<Finding>, checked: set<string>)

  /** `validateLink`: a URL seen before changes nothing; a new one is recorded, then skipped or probed. */
  function Visit(p: Progress, path: string, link: Link, net: (Verb, string) -> Transport): Progress {
    if link.url in p.checked then p
    else if ShouldSkipLink(link.url) then
      Progress(p.errors, p.warnings + [LinkFinding(path, LinkSkipped, SkippedPrefix + link.url, link)], p.checked + {link.url})
    else
      Progress(p.errors + ProbeErrors(path, link, net), p.warnings, p.checked + {link.url})
  }

  /** The links of one file, visited in order. */
  function VisitAll(p: Progress, path: string, links: seq<Link>, net: (Verb, string) -> Transport): Progress
    decreases |links|
  {
    if links == [] then p else Visit(VisitAll(p, path, links[..|links| - 1], net), path, links[|links| - 1], net)
  }

  /**
   * The outcome of probing: a settled HEAD decides; a rejected HEAD hands
   * over to GET with the same classification; a rejected GET is a link
   * error.  Never more than one finding.
   */
  lemma ProbeClassification(path: string, link: Link, net: (Verb, string) -> Transport)
    ensures var es := ProbeErrors(path, link, net);
      var head := Request(net, Head, link.url);
      var get := Request(net, Get, link.url);
      && |es| <= 1
      && (head.Resolved? ==> (es == [] <==> head.status < 400))
      && (head.Resolved? && head.status >= 400 ==>
            es == [LinkFinding(path, BrokenLink, HttpPrefix + NatToString(head.status) + ": " + link.url, link)])
      && (head.Rejected? && get.Resolved? ==> es == StatusErrors(path, link, get.status))
      && (head.Rejected? && get.Rejected? ==> |es| == 1 && es[0].category == LinkErrorCategory)
  {
  }

  /**
   * Visiting a link: a URL already checked changes nothing; a new one is
   * added to the set, and gives one "Link Skipped" warning and no error when
   * skipped, or at most one error and no warning when probed.
   */
  lemma VisitFindings(p: Progress, path: string, link: Link, net: (Verb, string) -> Transport)
    ensures var q := Visit(p, path, link, net);
      && (link.url in p.checked ==> q == p)
      && (link.url !in p.checked ==> q.checked == p.checked + {link.url})
      && (link.url !in p.checked && ShouldSkipLink(link.url) ==>
            q.errors == p.errors && |q.warnings| == |p.warnings| + 1 && q.warnings[|p.warnings|].category == LinkSkipped)
      && (link.url !in p.checked && !ShouldSkipLink(link.url) ==>
            q.warnings == p.warnings && |p.errors| <= |q.errors| <= |p.errors| + 1)
  {
    ProbeClassification(path, link, net);
  }

  /** The URLs of the links. */
  function Urls(links: seq<Link>): set<string> {
    set k | 0 <= k < |links| :: links[k].url
  }

  lemma UrlsSnoc(links: seq<Link>)
    requires links != []
    ensures Urls(links) == Urls(links[..|links| - 1]) + {links[|links| - 1].url}
  {
    var init := links[..|links| - 1];
    forall u | u in Urls(links)
      ensures u in Urls(init) + {links[|links| - 1].url}
    {
      var k :| 0 <= k < |links| && links[k].url == u;
      if k < |init| {
        assert init[k].url == u;
      }
    }
    forall u | u in Urls(init)
      ensures u in Urls(links)
    {
      var k :| 0 <= k < |init| && init[k].url == u;
      assert links[k].url == u;
    }
  }

  lemma NewUrlCounts(before: set<string>, mid: set<string>, url: string)
    requires before <= mid && url !in mid
    ensures |(mid + {url}) - before| == |mid - before| + 1
  {
    assert (mid + {url}) - before == (mid - before) + {url};
  }

  /**
   * Over any run of links the checked set only grows, by exactly the
   * links' URLs, and the findings grow by at most one per newly checked URL.
   */
  lemma {:induction false} VisitAllBound(p: Progress, path: string, links: seq<Link>, net: (Verb, string) -> Transport)
    ensures var q := VisitAll(p, path, links, net);
      && q.checked == p.checked + Urls(links)
      && p.errors <= q.errors && p.warnings <= q.warnings
      && |q.errors| + |q.warnings| <= |p.errors| + |p.warnings| + |q.checked - p.checked|
    decreases |links|
  {
    if links != [] {
      var init := links[..|links| - 1];
      var last := links[|links| - 1];
      VisitAllBound(p, path, init, net);
      var mid := VisitAll(p, path, init, net);
      VisitFindings(mid, path, last, net);
      var q := Visit(mid, path, last, net);
      UrlsSnoc(links);
      if last.url !in mid.checked {
        NewUrlCounts(p.checked, mid.checked, last.url);
      }
    }
  }

  /** `validateLinksInFile`: a File Read Error, or the file's links visited in order. */
  function LinksFile(p: Progress, path: string, read: ReadOutcome, net: (Verb, string) -> Transport): Progress {
    match read
    case ReadFailed(message) => Progress(p.errors + [Finding(path, FileReadError, message)], p.warnings, p.checked)
    case Read(content) => VisitAll(p, path, ExtractedLinks(content), net)
  }

  /** `validateAllLinks`: the files in order, sharing one set of checked URLs. */
  function LinkRun(p: Progress, files: seq<(string, ReadOutcome)>, net: (Verb, string) -> Transport): Progress
    decreases |files|
  {
    if files == [] then p
    else LinksFile(LinkRun(p, files[..|files| - 1], net), files[|files| - 1].0, files[|files| - 1].1, net)
  }

  /** The URLs of the links in the files that could be read. */
  function RunUrls(files: seq<(string, ReadOutcome)>): set<string>
    decreases |files|
  {
    if files == [] then {}
    else
      var found := match files[|files| - 1].1 case Read(content) => Urls(ExtractedLinks(content)) case ReadFailed(_) => {};
      RunUrls(files[..|files| - 1]) + found
  }

  /**
   * Over a run of files the checked set grows by exactly the URLs of the
   * readable files' links, findings are only appended, and each unreadable
   * file adds exactly one error.
   */
  lemma {:induction false} LinkRunGrows(p: Progress, files: seq<(string, ReadOutcome)>, net: (Verb, string) -> Transport)
    ensures var q := LinkRun(p, files, net);
      && q.checked == p.checked + RunUrls(files)
      && p.errors <= q.errors && p.warnings <= q.warnings
      && |q.errors| >= |p.errors| + |files| - CountRead(files)
    decreases |files|
  {
    if files != [] {
      var init := files[..|files| - 1];
      var last := files[|files| - 1];
      LinkRunGrows(p, init, net);
      var mid := LinkRun(p, init, net);
      if last.1.Read? {
        VisitAllBound(mid, last.0, ExtractedLinks(last.1.content), net);
      }
    }
  }

  // ---------------------------------------------------------------------
  // The validator object.
  // ---------------------------------------------------------------------

  class LinkValidator {
    var errors: seq<Finding>
    var warnings: seq<Finding>
    var checkedLinks: set<string>
    var validatedFiles: nat
    /** The URLs sent to the network, in order (HEAD and its GET fallback count once). */
    ghost var probed: seq<string>

    /** Every probed URL is in `checkedLinks`, and none was probed twice. */
    ghost predicate Valid()
      reads this
    {
      && (forall k | 0 <= k < |probed| :: probed[k] in checkedLinks)
      && (forall i, j | 0 <= i < j < |probed| :: probed[i] != probed[j])
    }

    constructor ()
      ensures Valid()
      ensures errors == [] && warnings == [] && checkedLinks == {} && validatedFiles == 0 && probed == []
    {
      errors := [];
      warnings := [];
      checkedLinks := {};
      validatedFiles := 0;
      probed := [];
    }

    function State(): Progress
      reads this
    {
      Progress(errors, warnings, checkedLinks)
    }

    /** The markdown loop of `extractLinks`, driven by `exec`. */
    method CollectMarkdownLinks(content: string) returns (links: seq<Link>)
      ensures links == MarkdownLinks(content, 0)
    {
      links := [];
      var last := 0;
      var md := NextMarkdown(content, 0);
      while md.Some?
        invariant last <= |content| && md == NextMarkdown(content, last)
        invariant links + MarkdownLinks(content, last) == MarkdownLinks(content, 0)
        decreases |content| - last
      {
        var found := if IsExternalLink(md.value.url) then [Link(md.value.text, md.value.url, Markdown)] else [];
        ghost var rest := MarkdownLinks(content, md.value.end);
        assert MarkdownLinks(content, last) == found + rest;
        assert links + found + rest == links + (found + rest);
        links := links + found;
        last := md.value.end;
        md := NextMarkdown(content, last);
      }
      assert MarkdownLinks(content, last) == [];
      assert links + [] == links;
    }

    /** The bare-URL loop of `extractLinks`, driven by `exec`, after the markdown links `found`. */
    method CollectBareLinks(content: string, found: seq<Link>) returns (links: seq<Link>)
      ensures links == AddBareAll(found, BareUrls(content, 0))
    {
      links := found;
      var last := 0;
      var bare := NextBare(content, 0);
      while bare.Some?
        invariant last <= |content| && bare == NextBare(content, last)
        invariant AddBareAll(links, BareUrls(content, last)) == AddBareAll(found, BareUrls(content, 0))
        decreases |content| - last
      {
        var url := bare.value.url;
        assert BareUrls(content, last) == [url] + BareUrls(content, bare.value.end);
        if IsExternalLink(url) && !HasUrl(links, url) {
          links := links + [Link(url, url, Bare)];
        }
        last := bare.value.end;
        bare := NextBare(content, last);
      }
      assert BareUrls(content, last) == [];
    }

    /** `extractLinks`: markdown links, then the bare URLs not already found. */
    method ExtractLinks(content: string) returns (links: seq<Link>)
      ensures links == ExtractedLinks(content)
    {
      var found := CollectMarkdownLinks(content);
      links := CollectBareLinks(content, found);
    }

    /** `validateLink` */
    method ValidateLink(path: string, link: Link, net: (Verb, string) -> Transport)
      requires Valid()
      modifies this
      ensures Valid()
      ensures State() == Visit(old(State()), path, link, net)
      ensures probed == old(probed) + (if link.url !in old(checkedLinks) && !ShouldSkipLink(link.url) then [link.url] else [])
      ensures validatedFiles == old(validatedFiles)
    {
      if link.url in checkedLinks {
        return;
      }
      checkedLinks := checkedLinks + {link.url};
      if ShouldSkipLink(link.url) {
        warnings := warnings + [LinkFinding(path, LinkSkipped, SkippedPrefix + link.url, link)];
        return;
      }
      probed := probed + [link.url];
      var head := Request(net, Head, link.url);
      if head.Resolved? {
        if head.status >= 400 {
          errors := errors + [LinkFinding(path, BrokenLink, HttpPrefix + NatToString(head.status) + ": " + link.url, link)];
        }
      } else {
        var get := Request(net, Get, link.url);
        if get.Resolved? {
          if get.status >= 400 {
            errors := errors + [LinkFinding(path, BrokenLink, HttpPrefix + NatToString(get.status) + ": " + link.url, link)];
          }
        } else {
          errors := errors + [LinkFinding(path, LinkErrorCategory, CodeText(get.code) + ": " + link.url, link)];
        }
      }
    }

    /** The loop of `validateLinksInFile` over the extracted links. */
    method ValidateLinks(path: string, links: seq<Link>, net: (Verb, string) -> Transport)
      requires Valid()
      modifies this
      ensures Valid()
      ensures State() == VisitAll(old(State()), path, links, net)
      ensures validatedFiles == old(validatedFiles) && old(probed) <= probed
    {
      var i := 0;
      while i < |links|
        invariant 0 <= i <= |links|
        invariant Valid()
        invariant State() == VisitAll(old(State()), path, links[..i], net)
        invariant validatedFiles == old(validatedFiles) && old(probed) <= probed
      {
        assert links[..i + 1][..i] == links[..i];
        ValidateLink(path, links[i], net);
        i := i + 1;
      }
      assert links[..i] == links;
    }

    /** `validateLinksInFile`, with the file read given as an outcome. */
    method ValidateLinksInFile(path: string, read: ReadOutcome, net: (Verb, string) -> Transport)
      requires Valid()
      modifies this
      ensures Valid()
      ensures read.ReadFailed? ==>
        && errors == old(errors) + [Finding(path, FileReadError, read.message)]
        && warnings == old(warnings) && checkedLinks == old(checkedLinks) && validatedFiles == old(validatedFiles)
      ensures read.Read? ==>
        && State() == VisitAll(old(State()), path, ExtractedLinks(read.content), net)
        && validatedFiles == old(validatedFiles) + 1
      ensures old(probed) <= probed
    {
      match read {
        case ReadFailed(message) =>
          errors := errors + [Finding(path, FileReadError, message)];
        case Read(content) =>
          var links := ExtractLinks(content);
          ValidateLinks(path, links, net);
          validatedFiles := validatedFiles + 1;
      }
    }

    /**
     * `validateAllLinks`, over the discovered files: the state of `LinkRun`,
     * one count per readable file, and the run passes exactly when no error
     * was recorded.
     */
    method ValidateAllLinks(files: seq<(string, ReadOutcome)>, net: (Verb, string) -> Transport) returns (success: bool)
      requires Valid()
      modifies this
      ensures Valid()
      ensures State() == LinkRun(old(State()), files, net)
      ensures validatedFiles == old(validatedFiles) + CountRead(files)
      ensures old(probed) <= probed
      ensures success <==> errors == []
    {
      var i := 0;
      while i < |files|
        invariant 0 <= i <= |files|
        invariant Valid()
        invariant State() == LinkRun(old(State()), files[..i], net)
        invariant validatedFiles == old(validatedFiles) + CountRead(files[..i])
        invariant old(probed) <= probed
      {
        assert files[..i + 1][..i] == files[..i];
        ValidateLinksInFile(files[i].0, files[i].1, net);
        i := i + 1;
      }
      assert files[..i] == files;
      success := |errors| == 0;
    }
  }
}

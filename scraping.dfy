/**
 * Page fetching of both worker files: the retrying `scrape_website` of
 * enrichment_worker.py, the single-attempt one of
 * enrichment_worker_ecs_optimized.py, the walk over contact/about links,
 * and the text handed to the extraction model. The browser is an oracle:
 * what each navigation returns is a parameter.
 */
module Scraping {
  import opened PyValues

  /**
   * One contact/about link as the browser reports it: its `href` attribute
   * (None when absent or when reading it raised) and what navigating to it
   * gave (the page text, or None when the navigation raised).
   */
  datatype LinkProbe = LinkProbe(href: Option<string>, visit: Option<string>)

  /** One entry of `additional_pages`. */
  datatype Page = Page(url: string, content: string)

  /** A navigation the scraper issues: target and timeout in milliseconds. */
  datatype Navigation = Navigation(url: string, timeoutMs: int)

  /** What one scraping attempt gives: the main text and the located links, or the exception's message. */
  datatype AttemptOutcome = Loaded(text: string, links: seq<LinkProbe>) | Failed(message: string)

  /** The dict `scrape_website` returns. */
  datatype Scraped = Scraped(url: string, mainContent: string, additionalPages: seq<Page>, scrapedAt: string)

  const MaxRetries := 3
  const MaxSecondaryLinks := 3
  /** Navigation timeout of a secondary link in the standard file. */
  const SecondaryTimeoutMs := 10000
  /** The page default timeout of the ECS file, which its navigations inherit. */
  const EcsTimeoutMs := 15000
  const PromptContentLimit := 3000

  // ---------------------------------------------------------------------
  // Retry classification

  const RetryableErrors: seq<string> := [
    "timeout", "net::err_cert_date_invalid", "net::err_connection_refused",
    "net::err_connection_timed_out", "net::err_name_not_resolved",
    "connection closed", "connection reset"]

  /** Some retryable marker occurs in the lowered message (the markers are already lower case). */
  predicate IsRetryable(message: string) {
    ContainsAny(Lower(message), RetryableErrors)
  }

  /** `any(m in text for m in markers)`. */
  predicate ContainsAny(text: string, markers: seq<string>)
    decreases |markers|
  {
    markers != [] && (Contains(text, markers[0]) || ContainsAny(text, markers[1..]))
  }

  /** The navigation timeout of attempt `attempt` (counted from 0). */
  function AttemptTimeout(attempt: nat): int {
    20000 + attempt * 10000
  }

  // ---------------------------------------------------------------------
  // Secondary pages

  /** The link is navigated to: a non-empty href that is not a mailto link. */
  predicate Followed(p: LinkProbe) {
    p.href.Some? && p.href.value != "" && !StartsWith(p.href.value, "mailto:")
  }

  /** The links `contact_links[:3]` looks at. */
  function FirstLinks(links: seq<LinkProbe>): (r: seq<LinkProbe>)
    ensures |r| <= MaxSecondaryLinks && r <= links
  {
    if |links| <= MaxSecondaryLinks then links else links[..MaxSecondaryLinks]
  }

  /** The pages collected from `links`: followed links whose navigation succeeded, in order. */
  function SecondaryPages(links: seq<LinkProbe>): seq<Page>
    decreases |links|
  {
    if links == [] then []
    else
      var p := links[|links| - 1];
      var before := SecondaryPages(links[..|links| - 1]);
      if Followed(p) && p.visit.Some? then before + [Page(p.href.value, p.visit.value)] else before
  }

  /** The navigations issued for `links`, each with `timeoutMs`. */
  function Navigations(links: seq<LinkProbe>, timeoutMs: int): seq<Navigation>
    decreases |links|
  {
    if links == [] then []
    else
      var p := links[|links| - 1];
      var before := Navigations(links[..|links| - 1], timeoutMs);
      if Followed(p) then before + [Navigation(p.href.value, timeoutMs)] else before
  }

  /**
   * The `for link in contact_links[:3]` loop: follows each usable link, keeps
   * the pages that loaded and skips the rest.
   */
  method FollowContactLinks(links: seq<LinkProbe>, timeoutMs: int) returns (pages: seq<Page>, visits: seq<Navigation>)
    ensures pages == SecondaryPages(FirstLinks(links))
    ensures visits == Navigations(FirstLinks(links), timeoutMs)
  {
    var first := FirstLinks(links);
    pages := [];
    visits := [];
    var i := 0;
    while i < |first|
      invariant 0 <= i <= |first|
      invariant pages == SecondaryPages(first[..i])
      invariant visits == Navigations(first[..i], timeoutMs)
    {
      var link := first[i];
      assert first[..i + 1][..i] == first[..i];
      if link.href.Some? && link.href.value != "" && !StartsWith(link.href.value, "mailto:") {
        visits := visits + [Navigation(link.href.value, timeoutMs)];
        if link.visit.Some? {
          pages := pages + [Page(link.href.value, link.visit.value)];
        }
      }
      i := i + 1;
    }
    assert first[..i] == first;
  }

  /** Every collected page comes from a followed link, in link order, and there is at most one per link. */
  lemma {:induction false} SecondaryPagesFromLinks(links: seq<LinkProbe>)
    ensures |SecondaryPages(links)| <= |Navigations(links, 0)| <= |links|
    ensures forall j :: 0 <= j < |SecondaryPages(links)| ==>
              exists i :: 0 <= i < |links| && Followed(links[i]) && links[i].visit == Some(SecondaryPages(links)[j].content)
                          && links[i].href == Some(SecondaryPages(links)[j].url)
    decreases |links|
  {
    if links != [] {
      var init := links[..|links| - 1];
      SecondaryPagesFromLinks(init);
      var pages := SecondaryPages(links);
      forall j | 0 <= j < |pages|
        ensures exists i :: 0 <= i < |links| && Followed(links[i]) && links[i].visit == Some(pages[j].content)
                            && links[i].href == Some(pages[j].url)
      {
        if j < |SecondaryPages(init)| {
          var i :| 0 <= i < |init| && Followed(init[i]) && init[i].visit == Some(SecondaryPages(init)[j].content)
                   && init[i].href == Some(SecondaryPages(init)[j].url);
          assert links[i] == init[i];
        }
      }
    }
  }

  /** At most three secondary pages are collected, none of them a mailto link or an empty URL. */
  lemma SecondaryPagesBounded(links: seq<LinkProbe>)
    ensures |SecondaryPages(FirstLinks(links))| <= MaxSecondaryLinks
    ensures forall p | p in SecondaryPages(FirstLinks(links)) :: p.url != "" && !StartsWith(p.url, "mailto:")
  {
    var first := FirstLinks(links);
    SecondaryPagesFromLinks(first);
    forall p | p in SecondaryPages(first) ensures p.url != "" && !StartsWith(p.url, "mailto:") {
      var j :| 0 <= j < |SecondaryPages(first)| && SecondaryPages(first)[j] == p;
      var i :| 0 <= i < |first| && Followed(first[i]) && first[i].href == Some(SecondaryPages(first)[j].url);
    }
  }

  // ---------------------------------------------------------------------
  // The retry loop

  /** The page data attempt `attempt` yields when it loads, `None` when it raises. */
  function Outcome(url: string, o: AttemptOutcome, now: string): Option<Scraped> {
    match o
    case Loaded(text, links) => Some(Scraped(url, text, SecondaryPages(FirstLinks(links)), now))
    case Failed(_) => None
  }

  /** Attempt `i` ends the loop: it loaded, its error is not retryable, or it was the last one allowed. */
  predicate Decisive(o: AttemptOutcome, i: nat, maxRetries: nat) {
    o.Loaded? || !IsRetryable(o.message) || i == maxRetries - 1
  }

  /** The number of attempts made from attempt `i` on. */
  function AttemptsFrom(attempt: nat -> AttemptOutcome, maxRetries: nat, i: nat): (n: nat)
    ensures n <= maxRetries - i || (i >= maxRetries && n == 0)
    decreases maxRetries - i
  {
    if i >= maxRetries then 0
    else if Decisive(attempt(i), i, maxRetries) then 1
    else 1 + AttemptsFrom(attempt, maxRetries, i + 1)
  }

  /** The number of attempts `scrape_website(url, maxRetries)` makes. */
  function Attempts(attempt: nat -> AttemptOutcome, maxRetries: nat): nat {
    AttemptsFrom(attempt, maxRetries, 0)
  }

  /** A decisive attempt after `i` indecisive ones is the last: the loop made `i + 1` attempts. */
  lemma LastAttempt(attempt: nat -> AttemptOutcome, maxRetries: nat, i: nat)
    requires i < maxRetries && Decisive(attempt(i), i, maxRetries)
    requires Attempts(attempt, maxRetries) == i + AttemptsFrom(attempt, maxRetries, i)
    ensures Attempts(attempt, maxRetries) == i + 1
  {
  }

  /** An indecisive attempt is followed by another. */
  lemma NextAttempt(attempt: nat -> AttemptOutcome, maxRetries: nat, i: nat)
    requires i < maxRetries && !Decisive(attempt(i), i, maxRetries)
    requires Attempts(attempt, maxRetries) == i + AttemptsFrom(attempt, maxRetries, i)
    ensures Attempts(attempt, maxRetries) == i + 1 + AttemptsFrom(attempt, maxRetries, i + 1)
  {
  }

  /** What the retry loop returns. */
  function ScrapeSpec(url: string, attempt: nat -> AttemptOutcome, maxRetries: nat, now: string): Option<Scraped> {
    var n := Attempts(attempt, maxRetries);
    if n == 0 then None else Outcome(url, attempt(n - 1), now)
  }

  /**
   * One pass of the retry loop of `scrape_website`: a page that loaded is
   * returned with its contact pages; a failure is retried when its message
   * is retryable and attempts remain.
   */
  method TryAttempt(url: string, ghost attempt: nat -> AttemptOutcome, o: AttemptOutcome, i: nat, maxRetries: nat, now: string)
    returns (result: Option<Scraped>, visits: seq<Navigation>, retry: bool)
    requires o == attempt(i) && i < maxRetries
    requires Attempts(attempt, maxRetries) == i + AttemptsFrom(attempt, maxRetries, i)
    ensures retry <==> !Decisive(o, i, maxRetries)
    ensures !retry ==> result == Outcome(url, o, now) && Attempts(attempt, maxRetries) == i + 1
    ensures retry ==> i + 1 < maxRetries && Attempts(attempt, maxRetries) == i + 1 + AttemptsFrom(attempt, maxRetries, i + 1)
    ensures result.Some? ==> o.Loaded? && visits == Navigations(FirstLinks(o.links), SecondaryTimeoutMs)
    ensures result.None? ==> visits == []
  {
    visits := [];
    match o {
      case Loaded(text, links) =>
        var pages;
        pages, visits := FollowContactLinks(links, SecondaryTimeoutMs);
        result, retry := Some(Scraped(url, text, pages, now)), false;
      case Failed(message) =>
        result, retry := None, IsRetryable(message) && i != maxRetries - 1;
    }
    if retry {
      NextAttempt(attempt, maxRetries, i);
    } else {
      LastAttempt(attempt, maxRetries, i);
    }
  }

  /**
   * The standard file's `scrape_website`: attempt `i` navigates with a
   * timeout of 20 s + 10 s·i; a failure whose message is retryable and is not
   * the last allowed attempt is followed by a sleep of 2^i seconds.
   * `attempt(i)` is what the browser does on attempt `i`; `now` is the
   * timestamp `scraped_at` receives.
   */
  method ScrapeWithRetry(url: string, attempt: nat -> AttemptOutcome, maxRetries: nat, now: string)
    returns (result: Option<Scraped>, timeouts: seq<int>, sleeps: seq<nat>, visits: seq<Navigation>)
    ensures result == ScrapeSpec(url, attempt, maxRetries, now)
    ensures |timeouts| == Attempts(attempt, maxRetries)
    ensures forall i :: 0 <= i < |timeouts| ==> timeouts[i] == AttemptTimeout(i)
    ensures |sleeps| == if |timeouts| == 0 then 0 else |timeouts| - 1
    ensures forall i :: 0 <= i < |sleeps| ==> sleeps[i] == Pow2(i)
    ensures result.Some? ==> visits == Navigations(FirstLinks(attempt(|timeouts| - 1).links), SecondaryTimeoutMs)
    ensures result.None? ==> visits == []
  {
    timeouts := [];
    sleeps := [];
    visits := [];
    var i := 0;
    while i < maxRetries
      invariant 0 <= i <= maxRetries && (i > 0 ==> i < maxRetries)
      invariant |timeouts| == i && |sleeps| == i && visits == []
      invariant forall j :: 0 <= j < i ==> timeouts[j] == AttemptTimeout(j)
      invariant forall j :: 0 <= j < i ==> sleeps[j] == Pow2(j)
      invariant Attempts(attempt, maxRetries) == i + AttemptsFrom(attempt, maxRetries, i)
      decreases maxRetries - i
    {
      timeouts := timeouts + [AttemptTimeout(i)];
      var retry;
      result, visits, retry := TryAttempt(url, attempt, attempt(i), i, maxRetries, now);
      if !retry {
        return;
      }
      sleeps := sleeps + [Pow2(i)];
      i := i + 1;
    }
    result := None;
  }

  /**
   * The ECS file's `scrape_website`: one attempt with the page default
   * timeout of 15 s for every navigation, and no retry.
   */
  method ScrapeOnce(url: string, o: AttemptOutcome, now: string)
    returns (result: Option<Scraped>, visits: seq<Navigation>)
    ensures result == ScrapeSpec(url, _ => o, 1, now)
    ensures o.Loaded? ==> visits == [Navigation(url, EcsTimeoutMs)] + Navigations(FirstLinks(o.links), EcsTimeoutMs)
    ensures o.Failed? ==> visits == [Navigation(url, EcsTimeoutMs)]
  {
    visits := [Navigation(url, EcsTimeoutMs)];
    match o {
      case Loaded(text, links) =>
        var pages, more := FollowContactLinks(links, EcsTimeoutMs);
        visits := visits + more;
        result := Some(Scraped(url, text, pages, now));
      case Failed(_) =>
        result := None;
    }
  }

  // ---------------------------------------------------------------------
  // Properties of the retry loop

  /** The attempts made from `i` on are all non-decisive but the last, which is decisive. */
  lemma {:induction false} AttemptsFromShape(attempt: nat -> AttemptOutcome, maxRetries: nat, i: nat)
    requires i < maxRetries
    ensures var n := AttemptsFrom(attempt, maxRetries, i);
            1 <= n && i + n <= maxRetries && Decisive(attempt(i + n - 1), i + n - 1, maxRetries)
            && forall j :: i <= j < i + n - 1 ==> !Decisive(attempt(j), j, maxRetries)
    decreases maxRetries - i
  {
    if !Decisive(attempt(i), i, maxRetries) {
      AttemptsFromShape(attempt, maxRetries, i + 1);
    }
  }

  /**
   * The scrape succeeds exactly when some attempt `k` within the budget
   * loads and every attempt before it failed with a retryable message; the
   * result is then the page data of attempt `k`.
   */
  lemma ScrapeSucceedsIff(url: string, attempt: nat -> AttemptOutcome, maxRetries: nat, now: string, k: nat)
    ensures (k < maxRetries && attempt(k).Loaded?
             && forall j :: 0 <= j < k ==> attempt(j).Failed? && IsRetryable(attempt(j).message))
            <==> (Attempts(attempt, maxRetries) == k + 1 && ScrapeSpec(url, attempt, maxRetries, now).Some?)
    ensures Attempts(attempt, maxRetries) == k + 1 && ScrapeSpec(url, attempt, maxRetries, now).Some? ==>
              ScrapeSpec(url, attempt, maxRetries, now) == Outcome(url, attempt(k), now)
  {
    if maxRetries > 0 {
      AttemptsFromShape(attempt, maxRetries, 0);
      var n := Attempts(attempt, maxRetries);
      if k < maxRetries && attempt(k).Loaded? && forall j :: 0 <= j < k ==> attempt(j).Failed? && IsRetryable(attempt(j).message) {
        assert n == k + 1;
      }
      if n == k + 1 && ScrapeSpec(url, attempt, maxRetries, now).Some? {
        forall j | 0 <= j < k ensures attempt(j).Failed? && IsRetryable(attempt(j).message) {
          assert !Decisive(attempt(j), j, maxRetries);
        }
      }
    }
  }

  /** Whatever happens, no more than `maxRetries` attempts are made. */
  lemma AttemptsBounded(attempt: nat -> AttemptOutcome, maxRetries: nat)
    ensures Attempts(attempt, maxRetries) <= maxRetries
  {
    if maxRetries > 0 {
      AttemptsFromShape(attempt, maxRetries, 0);
    }
  }

  /** The sleeps 1, 2, ..., 2^(k-1) add up to 2^k - 1 seconds. */
  lemma {:induction false} BackoffTotal(sleeps: seq<nat>)
    requires forall i :: 0 <= i < |sleeps| ==> sleeps[i] == Pow2(i)
    ensures Sum(sleeps) == Pow2(|sleeps|) - 1
    decreases |sleeps|
  {
    if sleeps != [] {
      BackoffTotal(sleeps[..|sleeps| - 1]);
    }
  }

  /**
   * With the default three attempts the loop sleeps at most twice, 1 s then
   * 2 s, so 3 s in total: the 4 s wait of the comment is never taken.
   */
  lemma DefaultBackoff(sleeps: seq<nat>, attempts: nat)
    requires attempts <= MaxRetries
    requires |sleeps| == if attempts == 0 then 0 else attempts - 1
    requires forall i :: 0 <= i < |sleeps| ==> sleeps[i] == Pow2(i)
    ensures |sleeps| <= 2 && Sum(sleeps) <= 3
    ensures forall i :: 0 <= i < |sleeps| ==> sleeps[i] <= 2
  {
    BackoffTotal(sleeps);
    assert Pow2(2) == 4;
  }

  /** A non-retryable first failure ends the loop after one attempt, with no result. */
  lemma NonRetryableStops(url: string, attempt: nat -> AttemptOutcome, maxRetries: nat, now: string)
    requires maxRetries > 0 && attempt(0).Failed? && !IsRetryable(attempt(0).message)
    ensures Attempts(attempt, maxRetries) == 1 && ScrapeSpec(url, attempt, maxRetries, now) == None
  {
  }

  /** A timeout on the first two attempts and a load on the third give the third attempt's page. */
  lemma ThirdAttemptSucceeds(url: string, attempt: nat -> AttemptOutcome, now: string)
    requires attempt(0).Failed? && IsRetryable(attempt(0).message)
    requires attempt(1).Failed? && IsRetryable(attempt(1).message)
    requires attempt(2).Loaded?
    ensures Attempts(attempt, MaxRetries) == 3
    ensures ScrapeSpec(url, attempt, MaxRetries, now) == Outcome(url, attempt(2), now)
  {
    ScrapeSucceedsIff(url, attempt, MaxRetries, now, 2);
  }

  /** Playwright's timeout message is retryable whatever its capitalisation. */
  lemma TimeoutMessageRetryable(pre: string, post: string)
    ensures IsRetryable(pre + "Timeout" + post)
  {
    var m := Lower(pre + "Timeout" + post);
    assert m[|pre|..|pre| + 7] == "timeout";
    ContainsAt(m, RetryableErrors[0], |pre|);
  }

  /** The ECS scrape behaves as the standard one limited to a single attempt. */
  lemma EcsIsSingleAttempt(url: string, o: AttemptOutcome, now: string)
    ensures ScrapeSpec(url, _ => o, 1, now) == Outcome(url, o, now)
  {
  }

  // ---------------------------------------------------------------------
  // The text given to the extraction model

  /** `main_content` followed by every additional page's content, each after a blank line. */
  function CombinedContent(s: Scraped): string {
    s.mainContent + PagesText(s.additionalPages)
  }

  function PagesText(pages: seq<Page>): string
    decreases |pages|
  {
    if pages == [] then "" else PagesText(pages[..|pages| - 1]) + "\n\n" + pages[|pages| - 1].content
  }

  /** The part of the combined content that goes into the prompt: its first 3000 characters. */
  function PromptContent(s: Scraped): (r: string)
    ensures |r| <= PromptContentLimit && r <= CombinedContent(s)
    ensures |CombinedContent(s)| <= PromptContentLimit ==> r == CombinedContent(s)
    ensures |r| == if |CombinedContent(s)| <= PromptContentLimit then |CombinedContent(s)| else PromptContentLimit
  {
    var all := CombinedContent(s);
    if |all| <= PromptContentLimit then all else all[..PromptContentLimit]
  }

  /** The loop of `extract_information` that appends each additional page to the main content. */
  method CombineContent(s: Scraped) returns (all: string)
    ensures all == CombinedContent(s)
  {
    all := s.mainContent;
    var i := 0;
    while i < |s.additionalPages|
      invariant 0 <= i <= |s.additionalPages|
      invariant all == s.mainContent + PagesText(s.additionalPages[..i])
    {
      assert s.additionalPages[..i + 1][..i] == s.additionalPages[..i];
      all := all + "\n\n" + s.additionalPages[i].content;
      i := i + 1;
    }
    assert s.additionalPages[..i] == s.additionalPages;
  }

  /** The main content comes first, and each page adds its content behind a blank line. */
  lemma {:induction false} CombinedContentLength(s: Scraped)
    ensures s.mainContent <= CombinedContent(s)
    ensures |PagesText(s.additionalPages)| == 2 * |s.additionalPages| + TotalLength(s.additionalPages)
  {
    PagesTextLength(s.additionalPages);
  }

  function TotalLength(pages: seq<Page>): nat
    decreases |pages|
  {
    if pages == [] then 0 else TotalLength(pages[..|pages| - 1]) + |pages[|pages| - 1].content|
  }

  lemma {:induction false} PagesTextLength(pages: seq<Page>)
    ensures |PagesText(pages)| == 2 * |pages| + TotalLength(pages)
    decreases |pages|
  {
    if pages != [] {
      PagesTextLength(pages[..|pages| - 1]);
    }
  }
}

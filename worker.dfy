/**
 * The lead pipeline of both worker files: the cache check, scraping,
 * extraction, the result record, the optional CRM update and the job
 * counters (`process_lead` and the helpers it calls), the batch handler
 * `lambda_handler`, and the queue-polling loop `main` of
 * enrichment_worker.py. The three key-value tables are the fields of
 * `Tables`; the browser, the extraction model, the CRM and the clock are
 * parameters.
 */
module Worker {
  import opened PyValues
  import opened Leads
  import opened Scraping
  import opened UpdatePolicy

  const SecondsPerDay := 86400

  // ---------------------------------------------------------------------
  // Cache freshness

  /** A cached page and when it was cached, in seconds. */
  datatype CacheEntry = CacheEntry(content: Scraped, cachedAt: int)

  /** `.days < 1` of an elapsed time of `d` seconds: `.days` is the floor of the elapsed days. */
  lemma DaysBelowOne(d: int)
    ensures d / SecondsPerDay < 1 <==> d < SecondsPerDay
  {
    if d >= SecondsPerDay {
      assert d / SecondsPerDay >= 1;
    } else if d >= 0 {
      assert d / SecondsPerDay == 0;
    } else {
      assert d / SecondsPerDay < 0;
    }
  }

  /**
   * `(now - cached_time).days < 1`: an entry is used exactly when less than
   * a full day has passed (or it is dated in the future).
   */
  predicate IsFresh(cachedAt: int, now: int)
    ensures IsFresh(cachedAt, now) <==> now - cachedAt < SecondsPerDay
  {
    DaysBelowOne(now - cachedAt);
    (now - cachedAt) / SecondsPerDay < 1
  }

  /** `check_cache` on the cache table: the page cached for `website` when it is fresh at `now`. */
  function CheckCache(cache: map<string, CacheEntry>, website: string, now: int): (r: Option<Scraped>)
    ensures r.Some? <==> website in cache && now - cache[website].cachedAt < SecondsPerDay
    ensures r.Some? ==> r.value == cache[website].content
  {
    if website in cache && IsFresh(cache[website].cachedAt, now) then Some(cache[website].content) else None
  }

  /** What the cache gives the lead: nothing when it has no website. */
  function CachedIn(cache: map<string, CacheEntry>, lead: Lead, now: int): Option<Scraped> {
    if HasWebsite(lead) then CheckCache(cache, lead.website.value, now) else None
  }

  // ---------------------------------------------------------------------
  // Results and counters

  /** The job's counters: `processed_leads` and `failed_leads` (an absent attribute reads as 0). */
  datatype JobCounters = JobCounters(processed: nat, failed: nat)

  /** `update_job_progress`: adds one to exactly one counter. */
  function Bump(c: JobCounters, success: bool): (r: JobCounters)
    ensures r.processed + r.failed == c.processed + c.failed + 1
    ensures success <==> r.processed == c.processed + 1
    ensures success ==> r.failed == c.failed
    ensures !success ==> r.processed == c.processed && r.failed == c.failed + 1
  {
    if success then JobCounters(c.processed + 1, c.failed) else JobCounters(c.processed, c.failed + 1)
  }

  /** The counters of `jobId`; a job without counters reads as zero. */
  function CountersIn(jobs: map<string, JobCounters>, jobId: string): JobCounters {
    if jobId in jobs then jobs[jobId] else JobCounters(0, 0)
  }

  /** One item written to the results table. */
  datatype ResultItem =
    | FailedItem(leadId: Option<string>, jobId: string, error: string, processedAt: string)
    | EnrichedItem(leadId: Option<string>, jobId: string, original: Lead, enriched: Extraction,
                   enrichmentDate: string, confidence: Value, dataSource: string)

  /**
   * Why the CRM update of a lead failed: the client could not log in, the
   * builder raised, or the CRM refused the `Lead.update` call.
   */
  datatype CrmError = LoginFailed | BuilderRaised(e: Exception) | CrmRejected

  /** The CRM keys `process_lead` adds to the dict it returns (never to the stored item). */
  datatype CrmStatus = NotRequested | Updated(fields: map<Key, Value>) | UpdateFailed(error: CrmError)

  /** The dict `process_lead` returns for an enriched lead. */
  datatype EnrichedLead = EnrichedLead(item: ResultItem, crm: CrmStatus)

  /**
   * What the outside world does while a lead is processed: the clock in
   * seconds and its ISO text, the timestamp format the CRM update uses,
   * what each browser attempt gives, the extraction model's answer for a
   * company name and page text (None for an API error, invalid JSON or an
   * empty answer), whether the CRM client logs in, and whether the CRM
   * accepts the update.
   */
  datatype LeadEnv = LeadEnv(
    clock: int,
    stamp: string,
    crmStamp: string,
    attempt: nat -> AttemptOutcome,
    extract: (string, string) -> Option<Extraction>,
    crmLogin: bool,
    crmAccepts: bool)

  const NoWebsiteError := "No website URL provided"
  const ScrapeError := "Failed to scrape website"
  const ExtractError := "Failed to extract information"
  /** `str(KeyError('id'))`, the message of a lead without an id. */
  const MissingIdError := "'id'"
  const DataSource := "web_scraping"

  /** `lead.get('company', 'Unknown')` as the prompt prints it; a null company prints as None. */
  function CompanyText(lead: Lead): string {
    if lead.company.Some? then lead.company.value else "None"
  }

  /** The page data of the variant's `scrape_website` for `website`. */
  function Scrape(variant: Variant, website: string, env: LeadEnv): Option<Scraped> {
    match variant
    case Standard => ScrapeSpec(website, env.attempt, MaxRetries, env.stamp)
    case EcsOptimized => ScrapeSpec(website, _ => env.attempt(0), 1, env.stamp)
  }

  /**
   * The CRM part of `process_lead`, run only when `update_salesforce` is
   * truthy. `update_salesforce_lead` logs in first, then builds the update,
   * then issues it; the first exception becomes the lead's CRM error.
   */
  function CrmOutcome(variant: Variant, params: Params, info: Extraction, env: LeadEnv): (r: CrmStatus)
    ensures r.NotRequested? <==> !UpdateRequested(params)
    ensures r == UpdateFailed(LoginFailed) <==> UpdateRequested(params) && !env.crmLogin
    ensures (r.UpdateFailed? && r.error.BuilderRaised?) <==>
              UpdateRequested(params) && env.crmLogin && UpdateData(variant, info, env.crmStamp).Err?
    ensures r.UpdateFailed? && r.error.BuilderRaised? ==> r.error.e == UpdateData(variant, info, env.crmStamp).error
    ensures r == UpdateFailed(CrmRejected) <==>
              UpdateRequested(params) && env.crmLogin && UpdateData(variant, info, env.crmStamp).Ok? && !env.crmAccepts
    ensures r.Updated? <==>
              UpdateRequested(params) && env.crmLogin && UpdateData(variant, info, env.crmStamp).Ok? && env.crmAccepts
    ensures r.Updated? ==> r.fields == UpdateData(variant, info, env.crmStamp).value
  {
    if !UpdateRequested(params) then NotRequested
    else if !env.crmLogin then UpdateFailed(LoginFailed)
    else match UpdateData(variant, info, env.crmStamp)
      case Err(e) => UpdateFailed(BuilderRaised(e))
      case Ok(m) => if env.crmAccepts then Updated(m) else UpdateFailed(CrmRejected)
  }

  /** The page data `process_lead` works on: the fresh cached page, or else what scraping gives. */
  function Fetched(variant: Variant, lead: Lead, cached: Option<Scraped>, env: LeadEnv): Option<Scraped>
    requires HasWebsite(lead)
  {
    if cached.Some? then cached else Scrape(variant, lead.website.value, env)
  }

  /** What one `process_lead` call leaves in the tables: the stored item and the cache write. */
  datatype LeadRecord = LeadRecord(item: ResultItem, cacheWrite: Option<CacheEntry>)

  /**
   * The table effects of `process_lead` given what the cache held for the
   * lead's website (`cached`, a fresh entry only): the checks run in order
   * and the first that fails decides the stored error.
   */
  function LeadStored(variant: Variant, jobId: string, lead: Lead, cached: Option<Scraped>, env: LeadEnv): (r: LeadRecord)
    ensures r.item.jobId == jobId
    ensures r.cacheWrite.Some? ==> HasWebsite(lead) && r.cacheWrite.value.cachedAt == env.clock
  {
    if lead.id.IdAbsent? then
      LeadRecord(FailedItem(None, jobId, MissingIdError, env.stamp), None)
    else if !HasWebsite(lead) then
      LeadRecord(FailedItem(IdOf(lead), jobId, NoWebsiteError, env.stamp), None)
    else
      var fetched := Fetched(variant, lead, cached, env);
      var write := if cached.None? && fetched.Some? then Some(CacheEntry(fetched.value, env.clock)) else None;
      if fetched.None? then
        LeadRecord(FailedItem(IdOf(lead), jobId, ScrapeError, env.stamp), write)
      else
        var info := env.extract(CompanyText(lead), PromptContent(fetched.value));
        if info.None? then
          LeadRecord(FailedItem(IdOf(lead), jobId, ExtractError, env.stamp), write)
        else
          LeadRecord(EnrichedItem(IdOf(lead), jobId, lead, info.value, env.stamp,
                                  info.value.confidence.GetOr(Int(0)), DataSource), write)
  }

  /** The effects of one `process_lead` call: the stored item, the returned dict, and the cache write. */
  datatype LeadOutcome = LeadOutcome(item: ResultItem, returned: Option<EnrichedLead>, cacheWrite: Option<CacheEntry>)

  /**
   * `process_lead`: the table effects of `LeadStored`, and for an enriched
   * lead the returned dict with the outcome of the requested CRM update.
   */
  function LeadSpec(variant: Variant, jobId: string, lead: Lead, params: Params, cached: Option<Scraped>, env: LeadEnv)
    : (r: LeadOutcome)
    ensures r.returned.Some? <==> r.item.EnrichedItem?
    ensures r.returned.Some? ==> r.returned.value.item == r.item
    ensures r.item.jobId == jobId
    ensures r.cacheWrite.Some? ==> HasWebsite(lead) && r.cacheWrite.value.cachedAt == env.clock
  {
    var s := LeadStored(variant, jobId, lead, cached, env);
    LeadOutcome(s.item,
                if s.item.EnrichedItem? then Some(EnrichedLead(s.item, CrmOutcome(variant, params, s.item.enriched, env))) else None,
                s.cacheWrite)
  }

  /** The number of enriched items in `items`. */
  function CountEnriched(items: seq<ResultItem>): nat
    decreases |items|
  {
    if items == [] then 0
    else CountEnriched(items[..|items| - 1]) + (if items[|items| - 1].EnrichedItem? then 1 else 0)
  }

  /**
   * A lead fails exactly when its dict has no id key, it has no website,
   * it yields no page data or it yields no extraction; the stored error
   * names the first of these checks that failed.
   */
  lemma LeadFailsIff(variant: Variant, jobId: string, lead: Lead, params: Params, cached: Option<Scraped>, env: LeadEnv)
    ensures var r := LeadSpec(variant, jobId, lead, params, cached, env);
            r.returned.None? <==>
              (lead.id.IdAbsent? || !HasWebsite(lead) || Fetched(variant, lead, cached, env).None?
               || env.extract(CompanyText(lead), PromptContent(Fetched(variant, lead, cached, env).value)).None?)
    ensures var r := LeadSpec(variant, jobId, lead, params, cached, env);
            r.item.FailedItem? ==>
              r.item.error in {MissingIdError, NoWebsiteError, ScrapeError, ExtractError}
              && r.item.jobId == jobId && r.item.leadId == IdOf(lead)
    ensures var r := LeadSpec(variant, jobId, lead, params, cached, env);
            (r.item == FailedItem(None, jobId, MissingIdError, env.stamp) <==> lead.id.IdAbsent?)
            && (r.item.FailedItem? && r.item.error == NoWebsiteError <==> lead.id.IdPresent? && !HasWebsite(lead))
            && (r.item.FailedItem? && r.item.error == ScrapeError <==>
                  lead.id.IdPresent? && HasWebsite(lead) && Fetched(variant, lead, cached, env).None?)
            && (r.item.FailedItem? && r.item.error == ExtractError <==>
                  lead.id.IdPresent? && HasWebsite(lead) && Fetched(variant, lead, cached, env).Some?
                  && env.extract(CompanyText(lead), PromptContent(Fetched(variant, lead, cached, env).value)).None?)
  {
  }

  /** A lead without a website is recorded as failed, not skipped, and nothing is fetched or cached for it. */
  lemma NoWebsiteIsFailure(variant: Variant, jobId: string, lead: Lead, params: Params, cached: Option<Scraped>, env: LeadEnv)
    requires lead.id.IdPresent? && !HasWebsite(lead)
    ensures LeadSpec(variant, jobId, lead, params, cached, env)
            == LeadOutcome(FailedItem(IdOf(lead), jobId, NoWebsiteError, env.stamp), None, None)
  {
  }

  /**
   * The CRM never decides the fate of a lead: whether its client logs in
   * and whether it accepts the update change neither the stored item, nor
   * whether the lead counts as processed, nor the cache.
   */
  lemma CrmDoesNotDecide(variant: Variant, jobId: string, lead: Lead, params: Params, cached: Option<Scraped>,
                         env: LeadEnv, login: bool, accepts: bool)
    ensures var r1 := LeadSpec(variant, jobId, lead, params, cached, env);
            var r2 := LeadSpec(variant, jobId, lead, params, cached, env.(crmLogin := login, crmAccepts := accepts));
            r1.item == r2.item && r1.cacheWrite == r2.cacheWrite && r1.returned.Some? == r2.returned.Some?
  {
  }

  /**
   * An enriched lead carries the CRM outcome for its own extraction. When
   * the update was issued and accepted, the CRM received the builder's map,
   * which always holds the source tag, the completion flag, the date and
   * the confidence.
   */
  lemma CrmOutcomeOfEnriched(variant: Variant, jobId: string, lead: Lead, params: Params, cached: Option<Scraped>, env: LeadEnv)
    requires LeadSpec(variant, jobId, lead, params, cached, env).returned.Some?
    ensures var e := LeadSpec(variant, jobId, lead, params, cached, env).returned.value;
            e.item.EnrichedItem?
            && e.crm == CrmOutcome(variant, params, e.item.enriched, env)
            && (e.crm.Updated? ==>
                  |e.crm.fields| >= 4
                  && e.crm.fields[EnrichmentSource] == Str(SourceTag)
                  && e.crm.fields[EnrichmentCompleted] == Bool(true))
  {
    var e := LeadSpec(variant, jobId, lead, params, cached, env).returned.value;
    if e.crm.Updated? {
      UpdateNeverEmpty(variant, e.item.enriched, env.crmStamp, e.crm.fields);
      UpdateExtras(variant, e.item.enriched, env.crmStamp, e.crm.fields);
    }
  }

  /** A fresh cache entry spares the browser: the outcome is the same whatever the browser would do, and nothing is re-cached. */
  lemma CacheHitSkipsBrowser(variant: Variant, jobId: string, lead: Lead, params: Params, page: Scraped,
                             env: LeadEnv, browser: nat -> AttemptOutcome)
    ensures LeadSpec(variant, jobId, lead, params, Some(page), env)
            == LeadSpec(variant, jobId, lead, params, Some(page), env.(attempt := browser))
    ensures LeadSpec(variant, jobId, lead, params, Some(page), env).cacheWrite == None
  {
  }

  /** A page that had to be scraped is cached with the current clock, even when the extraction then fails. */
  lemma ScrapedPageCached(variant: Variant, jobId: string, lead: Lead, params: Params, env: LeadEnv)
    requires lead.id.IdPresent? && HasWebsite(lead)
    requires Scrape(variant, lead.website.value, env).Some?
    ensures LeadSpec(variant, jobId, lead, params, None, env).cacheWrite
            == Some(CacheEntry(Scrape(variant, lead.website.value, env).value, env.clock))
  {
  }

  // ---------------------------------------------------------------------
  // The batch handler and the polling loop

  /** One record of a batch: its parsed body (None when parsing or a required key failed) and the world it meets. */
  datatype BatchRecord = BatchRecord(message: Option<Message>, env: LeadEnv)

  /** The number of records whose body parsed. */
  function Parsed(records: seq<BatchRecord>): nat
    decreases |records|
  {
    if records == [] then 0
    else Parsed(records[..|records| - 1]) + (if records[|records| - 1].message.Some? then 1 else 0)
  }

  /** What one receive call gives: an error, no message, or one message (its receipt, parsed body and world). */
  datatype Poll = PollFailed | NoMessage | Received(receipt: string, body: Option<Message>, env: LeadEnv)

  /** One loop iteration: what the poll gave, and whether a shutdown signal arrived meanwhile. */
  datatype PollEvent = PollEvent(poll: Poll, signalled: bool)

  /** The loop's configuration: `AUTO_SHUTDOWN_ENABLED` and `IDLE_TIMEOUT_MINUTES`. */
  datatype WorkerConfig = WorkerConfig(autoShutdown: bool, idleTimeoutMinutes: int)

  /** Three 20-second polls per minute. */
  function MaxIdlePolls(c: WorkerConfig): int {
    c.idleTimeoutMinutes * 3
  }

  /** `os.environ.get('AUTO_SHUTDOWN_ENABLED', 'true').lower() == 'true'`. */
  predicate AutoShutdownEnabled(setting: Option<string>) {
    Lower(setting.GetOr("true")) == "true"
  }

  /** Unset or any capitalisation of "true" enables auto-shutdown; "1" or "yes" does not. */
  lemma AutoShutdownSettings()
    ensures AutoShutdownEnabled(None)
    ensures AutoShutdownEnabled(Some("TRUE")) && AutoShutdownEnabled(Some("True"))
    ensures !AutoShutdownEnabled(Some("1")) && !AutoShutdownEnabled(Some("yes")) && !AutoShutdownEnabled(Some(""))
  {
    var t := Lower("TRUE");
    assert t[0] == 't' && t[1] == 'r' && t[2] == 'u' && t[3] == 'e';
    var u := Lower("True");
    assert u[0] == 't' && u[1] == 'r' && u[2] == 'u' && u[3] == 'e';
    assert Lower("true") == "true";
    assert |Lower("1")| == 1 && |Lower("yes")| == 3 && |Lower("")| == 0;
  }

  /** Why the loop ended: a signal, the idle limit, or (in the model only) no more events. */
  datatype ExitReason = Signalled | IdleTimeout | OutOfEvents

  /** How many events the loop consumed and why it stopped. */
  datatype RunEnd = RunEnd(consumed: nat, reason: ExitReason)

  /** The idle counter after one more poll. */
  function NextIdle(p: Poll, idle: nat): nat {
    match p
    case PollFailed => idle
    case NoMessage => idle + 1
    case Received(_, _, _) => 0
  }

  /** The control flow of `main` from event `i` on with idle counter `idle`; processing results do not affect it. */
  function Run(events: seq<PollEvent>, config: WorkerConfig, i: nat, idle: nat): (r: RunEnd)
    requires i <= |events|
    ensures i <= r.consumed <= |events|
    ensures r.reason != OutOfEvents ==> r.consumed > i
    decreases |events| - i
  {
    if i == |events| then RunEnd(i, OutOfEvents)
    else
      var ev := events[i];
      var idle' := NextIdle(ev.poll, idle);
      if ev.poll.NoMessage? && config.autoShutdown && idle' >= MaxIdlePolls(config) then RunEnd(i + 1, IdleTimeout)
      else if ev.signalled then RunEnd(i + 1, Signalled)
      else Run(events, config, i + 1, idle')
  }

  /** The idle counter after `events`: empty polls since the last message, poll errors not counting. */
  function IdleAfter(events: seq<PollEvent>): nat
    decreases |events|
  {
    if events == [] then 0 else NextIdle(events[|events| - 1].poll, IdleAfter(events[..|events| - 1]))
  }

  /** The receipts of the messages received during `events`, in order. */
  function ReceiptsOf(events: seq<PollEvent>): seq<string>
    decreases |events|
  {
    if events == [] then []
    else
      var p := events[|events| - 1].poll;
      ReceiptsOf(events[..|events| - 1]) + (if p.Received? then [p.receipt] else [])
  }

  /** The number of failed polls during `events`. */
  function PollFailures(events: seq<PollEvent>): nat
    decreases |events|
  {
    if events == [] then 0
    else PollFailures(events[..|events| - 1]) + (if events[|events| - 1].poll.PollFailed? then 1 else 0)
  }

  /** How one received message ended: processed (and deleted) or left in the queue. */
  datatype Handled = Handled(receipt: string, succeeded: bool)

  function HandledReceipts(hs: seq<Handled>): seq<string>
    decreases |hs|
  {
    if hs == [] then [] else HandledReceipts(hs[..|hs| - 1]) + [hs[|hs| - 1].receipt]
  }

  /** The receipts of the messages that were processed: the ones the loop deletes. */
  function SucceededReceipts(hs: seq<Handled>): seq<string>
    decreases |hs|
  {
    if hs == [] then []
    else SucceededReceipts(hs[..|hs| - 1]) + (if hs[|hs| - 1].succeeded then [hs[|hs| - 1].receipt] else [])
  }

  /**
   * The loop stops for idleness only when auto-shutdown is on and the idle
   * counter has reached the limit on an empty poll.
   */
  lemma {:induction false} IdleExitNeedsQuietPolls(events: seq<PollEvent>, config: WorkerConfig, i: nat)
    requires i <= |events|
    ensures var r := Run(events, config, i, IdleAfter(events[..i]));
            r.reason == IdleTimeout ==>
              config.autoShutdown && events[r.consumed - 1].poll.NoMessage?
              && IdleAfter(events[..r.consumed]) >= MaxIdlePolls(config)
    decreases |events| - i
  {
    if i < |events| {
      assert events[..i + 1][..i] == events[..i];
      IdleExitNeedsQuietPolls(events, config, i + 1);
    }
  }

  /** No poll follows a signal: every event before the last one consumed carried none. */
  lemma {:induction false} NoPollAfterSignal(events: seq<PollEvent>, config: WorkerConfig, i: nat, idle: nat)
    requires i <= |events|
    ensures var r := Run(events, config, i, idle);
            (forall j :: i <= j < r.consumed - 1 ==> !events[j].signalled)
            && (r.reason == Signalled ==> events[r.consumed - 1].signalled)
    decreases |events| - i
  {
    if i < |events| {
      NoPollAfterSignal(events, config, i + 1, NextIdle(events[i].poll, idle));
    }
  }

  /** With auto-shutdown off the loop never stops for idleness. */
  lemma {:induction false} NoIdleExitWhenDisabled(events: seq<PollEvent>, config: WorkerConfig, i: nat, idle: nat)
    requires i <= |events| && !config.autoShutdown
    ensures Run(events, config, i, idle).reason != IdleTimeout
    decreases |events| - i
  {
    if i < |events| {
      NoIdleExitWhenDisabled(events, config, i + 1, NextIdle(events[i].poll, idle));
    }
  }

  // ---------------------------------------------------------------------
  // What processing a sequence of messages does to the tables

  /** The cache after `process_lead`: a page that had to be scraped is stored under the lead's website. */
  function CacheAfter(cache: map<string, CacheEntry>, lead: Lead, o: LeadRecord): map<string, CacheEntry> {
    if o.cacheWrite.Some? && HasWebsite(lead) then cache[lead.website.value := o.cacheWrite.value] else cache
  }

  /** `update_job_progress` for the job of a stored item: one more processed lead when it is enriched, else one more failed. */
  function BumpFor(jobs: map<string, JobCounters>, item: ResultItem): map<string, JobCounters> {
    jobs[item.jobId := Bump(CountersIn(jobs, item.jobId), item.EnrichedItem?)]
  }

  /** The counters after one `update_job_progress` per item, in order. */
  function Bumps(jobs: map<string, JobCounters>, items: seq<ResultItem>): map<string, JobCounters>
    decreases |items|
  {
    if items == [] then jobs else BumpFor(Bumps(jobs, items[..|items| - 1]), items[|items| - 1])
  }

  /** The items of job `jobId`, in order. */
  function ItemsOf(items: seq<ResultItem>, jobId: string): seq<ResultItem>
    decreases |items|
  {
    if items == [] then []
    else ItemsOf(items[..|items| - 1], jobId) + (if items[|items| - 1].jobId == jobId then [items[|items| - 1]] else [])
  }

  /**
   * Each job's counters grow by the number of its items: `processed_leads`
   * by its enriched items, the two together by all of them.
   */
  lemma {:induction false} BumpsCounters(jobs: map<string, JobCounters>, items: seq<ResultItem>, jobId: string)
    ensures var c0 := CountersIn(jobs, jobId);
            var c := CountersIn(Bumps(jobs, items), jobId);
            c.processed == c0.processed + CountEnriched(ItemsOf(items, jobId))
            && c.processed + c.failed == c0.processed + c0.failed + |ItemsOf(items, jobId)|
    decreases |items|
  {
    if items != [] {
      var init := items[..|items| - 1];
      var last := items[|items| - 1];
      BumpsCounters(jobs, init, jobId);
      assert Bumps(jobs, items) == BumpFor(Bumps(jobs, init), last);
      if last.jobId == jobId {
        assert ItemsOf(items, jobId) == ItemsOf(init, jobId) + [last];
        CountEnrichedSnoc(ItemsOf(init, jobId), last);
      } else {
        assert ItemsOf(items, jobId) == ItemsOf(init, jobId);
      }
    }
  }

  lemma CountEnrichedSnoc(items: seq<ResultItem>, item: ResultItem)
    ensures CountEnriched(items + [item]) == CountEnriched(items) + (if item.EnrichedItem? then 1 else 0)
  {
    assert (items + [item])[..|items|] == items;
  }

  /** One message of a batch or of the poll loop: the item stored for it (none when its body did not parse) and the cache afterwards. */
  datatype StepOutcome = StepOutcome(stored: Option<ResultItem>, cache: map<string, CacheEntry>)

  /** One message processed against the cache as it stands. */
  function RecordStep(variant: Variant, record: BatchRecord, cache: map<string, CacheEntry>): StepOutcome {
    match record.message
    case None => StepOutcome(None, cache)
    case Some(m) =>
      var o := LeadStored(variant, m.jobId, m.lead, CachedIn(cache, m.lead, record.env.clock), record.env);
      StepOutcome(Some(o.item), CacheAfter(cache, m.lead, o))
  }

  /** What a sequence of messages stores, message by message, and the cache it leaves. */
  datatype BatchOutcome = BatchOutcome(stored: seq<Option<ResultItem>>, cache: map<string, CacheEntry>)

  /** The messages processed in order, each one seeing the cache the earlier ones left. */
  function BatchSpec(variant: Variant, records: seq<BatchRecord>, cache: map<string, CacheEntry>): (r: BatchOutcome)
    ensures |r.stored| == |records|
    decreases |records|
  {
    if records == [] then BatchOutcome([], cache)
    else
      var before := BatchSpec(variant, records[..|records| - 1], cache);
      var s := RecordStep(variant, records[|records| - 1], before.cache);
      BatchOutcome(before.stored + [s.stored], s.cache)
  }

  lemma BatchSnoc(variant: Variant, records: seq<BatchRecord>, record: BatchRecord, cache: map<string, CacheEntry>)
    ensures var before := BatchSpec(variant, records, cache);
            var s := RecordStep(variant, record, before.cache);
            BatchSpec(variant, records + [record], cache) == BatchOutcome(before.stored + [s.stored], s.cache)
  {
    assert (records + [record])[..|records|] == records;
  }

  /** The items stored, in order. */
  function Stored(outs: seq<Option<ResultItem>>): seq<ResultItem>
    decreases |outs|
  {
    if outs == [] then []
    else Stored(outs[..|outs| - 1]) + (if outs[|outs| - 1].Some? then [outs[|outs| - 1].value] else [])
  }

  lemma StoredSnoc(outs: seq<Option<ResultItem>>, x: Option<ResultItem>)
    ensures Stored(outs + [x]) == Stored(outs) + (if x.Some? then [x.value] else [])
  {
    assert (outs + [x])[..|outs|] == outs;
  }

  /**
   * One more message keeps the tables in step with the stored items: the
   * results table gains the item, the counters its bump, and the enriched
   * count grows when the item is enriched.
   */
  lemma TablesStep(jobs0: map<string, JobCounters>, results0: seq<ResultItem>, outs: seq<Option<ResultItem>>,
                   x: Option<ResultItem>, results: seq<ResultItem>, results': seq<ResultItem>,
                   jobs: map<string, JobCounters>, jobs': map<string, JobCounters>)
    requires results == results0 + Stored(outs) && jobs == Bumps(jobs0, Stored(outs))
    requires results' == results + (if x.Some? then [x.value] else [])
    requires jobs' == (if x.Some? then BumpFor(jobs, x.value) else jobs)
    ensures results' == results0 + Stored(outs + [x])
    ensures jobs' == Bumps(jobs0, Stored(outs + [x]))
    ensures CountEnriched(Stored(outs + [x])) == CountEnriched(Stored(outs)) + (if x.Some? && x.value.EnrichedItem? then 1 else 0)
  {
    StoredStep(jobs0, outs, x);
    var added := if x.Some? then [x.value] else [];
    assert results0 + Stored(outs) + added == results0 + (Stored(outs) + added);
  }

  /** One more stored item (or none): how the stored items, the counters and the enriched count extend. */
  lemma StoredStep(jobs0: map<string, JobCounters>, outs: seq<Option<ResultItem>>, x: Option<ResultItem>)
    ensures Stored(outs + [x]) == Stored(outs) + (if x.Some? then [x.value] else [])
    ensures Bumps(jobs0, Stored(outs + [x]))
            == (if x.Some? then BumpFor(Bumps(jobs0, Stored(outs)), x.value) else Bumps(jobs0, Stored(outs)))
    ensures CountEnriched(Stored(outs + [x])) == CountEnriched(Stored(outs)) + (if x.Some? && x.value.EnrichedItem? then 1 else 0)
  {
    StoredSnoc(outs, x);
    var items := Stored(outs);
    if x.Some? {
      var longer := items + [x.value];
      assert Stored(outs + [x]) == longer;
      assert longer[..|items|] == items;
      assert Bumps(jobs0, longer) == BumpFor(Bumps(jobs0, items), x.value);
      CountEnrichedSnoc(items, x.value);
    } else {
      assert Stored(outs + [x]) == items;
    }
  }

  /**
   * Exactly the messages whose body parsed store an item, each for the job
   * its message names, so the results table grows by one item per parsed
   * message.
   */
  lemma {:induction false} BatchStoresParsed(variant: Variant, records: seq<BatchRecord>, cache: map<string, CacheEntry>)
    ensures var b := BatchSpec(variant, records, cache);
            |Stored(b.stored)| == Parsed(records)
            && forall j :: 0 <= j < |records| ==>
                 (b.stored[j].Some? <==> records[j].message.Some?)
                 && (b.stored[j].Some? ==> b.stored[j].value.jobId == records[j].message.value.jobId)
    decreases |records|
  {
    if records != [] {
      var init := records[..|records| - 1];
      BatchStoresParsed(variant, init, cache);
      var before := BatchSpec(variant, init, cache);
      var s := RecordStep(variant, records[|records| - 1], before.cache);
      assert BatchSpec(variant, records, cache).stored == before.stored + [s.stored];
      StoredSnoc(before.stored, s.stored);
      forall j | 0 <= j < |records| - 1
        ensures records[j] == init[j]
      {
      }
    }
  }

  /** How the summaries of the events seen so far move on by one more event. */
  lemma EventStep(seen: seq<PollEvent>, ev: PollEvent)
    ensures var p := ev.poll;
            && ReceiptsOf(seen + [ev]) == ReceiptsOf(seen) + (if p.Received? then [p.receipt] else [])
            && Pauses(seen + [ev]) == Pauses(seen) + (if p.PollFailed? then [5] else [])
            && MessagesOf(seen + [ev]) == MessagesOf(seen) + (if p.Received? then [BatchRecord(p.body, p.env)] else [])
  {
    assert (seen + [ev])[..|seen|] == seen;
  }

  /** Whether a message whose processing stored `x` counts as processed: it stored an enriched item. */
  predicate Succeeded(x: Option<ResultItem>) {
    x.Some? && x.value.EnrichedItem?
  }

  /** The flags of the handled messages, in order. */
  function Flags(hs: seq<Handled>): (r: seq<bool>)
    ensures |r| == |hs|
    decreases |hs|
  {
    if hs == [] then [] else Flags(hs[..|hs| - 1]) + [hs[|hs| - 1].succeeded]
  }

  /** For each message, whether processing it succeeded, in order. */
  function Successes(outs: seq<Option<ResultItem>>): (r: seq<bool>)
    ensures |r| == |outs|
    decreases |outs|
  {
    if outs == [] then [] else Successes(outs[..|outs| - 1]) + [Succeeded(outs[|outs| - 1])]
  }

  /** Equal flag lists pair each handled message with the outcome of the message at the same position. */
  lemma {:induction false} FlagsMatch(hs: seq<Handled>, outs: seq<Option<ResultItem>>)
    requires Flags(hs) == Successes(outs)
    ensures |hs| == |outs|
    ensures forall j :: 0 <= j < |hs| ==> (hs[j].succeeded <==> Succeeded(outs[j]))
    decreases |hs|
  {
    if hs != [] {
      var n := |hs|;
      assert Flags(hs)[..n - 1] == Flags(hs[..n - 1]);
      assert Successes(outs)[..n - 1] == Successes(outs[..n - 1]);
      FlagsMatch(hs[..n - 1], outs[..n - 1]);
      assert Flags(hs)[n - 1] == hs[n - 1].succeeded;
      assert Successes(outs)[n - 1] == Succeeded(outs[n - 1]);
    }
  }

  /** The sleeps of the loop: five seconds after each failed poll. */
  function Pauses(events: seq<PollEvent>): seq<int>
    decreases |events|
  {
    if events == [] then []
    else Pauses(events[..|events| - 1]) + (if events[|events| - 1].poll.PollFailed? then [5] else [])
  }

  /** One five-second sleep per failed poll. */
  lemma {:induction false} PausesShape(events: seq<PollEvent>)
    ensures |Pauses(events)| == PollFailures(events)
    ensures forall j :: 0 <= j < |Pauses(events)| ==> Pauses(events)[j] == 5
    decreases |events|
  {
    if events != [] {
      PausesShape(events[..|events| - 1]);
    }
  }

  /** One more handled message: the flag lists and the receipt lists extend. */
  lemma HandledStep(handled: seq<Handled>, outs: seq<Option<ResultItem>>, h: Handled, x: Option<ResultItem>)
    ensures Flags(handled + [h]) == Flags(handled) + [h.succeeded]
    ensures Successes(outs + [x]) == Successes(outs) + [Succeeded(x)]
    ensures HandledReceipts(handled + [h]) == HandledReceipts(handled) + [h.receipt]
    ensures SucceededReceipts(handled + [h]) == SucceededReceipts(handled) + (if h.succeeded then [h.receipt] else [])
  {
    assert (handled + [h])[..|handled|] == handled;
    assert (outs + [x])[..|outs|] == outs;
  }

  /** The received messages of `events`, in order, as the records the loop processes. */
  function MessagesOf(events: seq<PollEvent>): seq<BatchRecord>
    decreases |events|
  {
    if events == [] then []
    else
      var p := events[|events| - 1].poll;
      MessagesOf(events[..|events| - 1]) + (if p.Received? then [BatchRecord(p.body, p.env)] else [])
  }

  /** `scrape_website` of the variant: with retries in the Lambda worker, a single attempt in the ECS one. */
  method ScrapeWebsite(variant: Variant, website: string, env: LeadEnv) returns (scraped: Option<Scraped>)
    ensures scraped == Scrape(variant, website, env)
  {
    match variant {
      case Standard =>
        var timeouts, sleeps, visits;
        scraped, timeouts, sleeps, visits := ScrapeWithRetry(website, env.attempt, MaxRetries, env.stamp);
      case EcsOptimized =>
        var visits;
        scraped, visits := ScrapeOnce(website, env.attempt(0), env.stamp);
    }
  }

  /**
   * `update_salesforce_lead` and the `try` around it: log in, build the
   * update, issue it; the first failure becomes the lead's CRM error.
   */
  method UpdateCrmLead(variant: Variant, info: Extraction, env: LeadEnv) returns (crm: CrmStatus)
    ensures forall params :: UpdateRequested(params) ==> crm == CrmOutcome(variant, params, info, env)
  {
    if !env.crmLogin {
      crm := UpdateFailed(LoginFailed);
    } else {
      var update := BuildUpdateData(variant, info, env.crmStamp);
      match update {
        case Err(e) => crm := UpdateFailed(BuilderRaised(e));
        case Ok(m) => crm := if env.crmAccepts then Updated(m) else UpdateFailed(CrmRejected);
      }
    }
  }

  /**
   * What the loop of `main` has recorded after the events `seen`, the
   * messages among them having left `outs`: a handled entry per received
   * message with its outcome, the successful ones deleted and counted, and
   * a pause per failed poll.
   */
  ghost predicate Logged(seen: seq<PollEvent>, handled: seq<Handled>, deleted: seq<string>, pauses: seq<int>,
                         totalProcessed: nat, outs: seq<Option<ResultItem>>)
  {
    && HandledReceipts(handled) == ReceiptsOf(seen)
    && deleted == SucceededReceipts(handled) && totalProcessed == |deleted|
    && pauses == Pauses(seen)
    && Flags(handled) == Successes(outs)
  }

  /** A failed or empty poll receives no message; a failed one adds a pause. */
  lemma QuietStep(seen: seq<PollEvent>, ev: PollEvent, handled: seq<Handled>, deleted: seq<string>, pauses: seq<int>,
                  totalProcessed: nat, outs: seq<Option<ResultItem>>)
    requires !ev.poll.Received? && Logged(seen, handled, deleted, pauses, totalProcessed, outs)
    ensures Logged(seen + [ev], handled, deleted, pauses + (if ev.poll.PollFailed? then [5] else []), totalProcessed, outs)
    ensures MessagesOf(seen + [ev]) == MessagesOf(seen)
  {
    EventStep(seen, ev);
  }

  /** A received message adds its handled entry, and its receipt to the deleted ones when it succeeded. */
  lemma ReceivedStep(seen: seq<PollEvent>, ev: PollEvent, handled: seq<Handled>, deleted: seq<string>, pauses: seq<int>,
                     totalProcessed: nat, outs: seq<Option<ResultItem>>, x: Option<ResultItem>, succeeded: bool)
    requires ev.poll.Received? && succeeded == Succeeded(x)
    requires Logged(seen, handled, deleted, pauses, totalProcessed, outs)
    ensures Logged(seen + [ev], handled + [Handled(ev.poll.receipt, succeeded)],
                   deleted + (if succeeded then [ev.poll.receipt] else []), pauses,
                   totalProcessed + (if succeeded then 1 else 0), outs + [x])
    ensures MessagesOf(seen + [ev]) == MessagesOf(seen) + [BatchRecord(ev.poll.body, ev.poll.env)]
  {
    EventStep(seen, ev);
    HandledStep(handled, outs, Handled(ev.poll.receipt, succeeded), x);
  }

  /** The three tables a worker reads and writes. */
  class Tables {
    /** The content cache, keyed by website. */
    var cache: map<string, CacheEntry>
    /** The items put into the results table, in order. */
    var results: seq<ResultItem>
    /** The job records' counters, keyed by job id. */
    var jobs: map<string, JobCounters>

    constructor()
      ensures cache == map[] && results == [] && jobs == map[]
    {
      cache := map[];
      results := [];
      jobs := map[];
    }

    /** `cache_content`: stores the page under its website, stamped with the current time. */
    method CacheContent(website: string, content: Scraped, now: int)
      modifies this
      ensures cache == old(cache)[website := CacheEntry(content, now)]
      ensures results == old(results) && jobs == old(jobs)
    {
      cache := cache[website := CacheEntry(content, now)];
    }

    /** `update_job_progress`: one more processed or failed lead for the job. */
    method UpdateJobProgress(jobId: string, success: bool)
      modifies this
      ensures jobs == old(jobs)[jobId := Bump(CountersIn(old(jobs), jobId), success)]
      ensures cache == old(cache) && results == old(results)
    {
      jobs := jobs[jobId := Bump(CountersIn(jobs, jobId), success)];
    }

    /** `save_error_result`: a failed item and one more failed lead for the job. */
    method SaveErrorResult(jobId: string, leadId: Option<string>, error: string, stamp: string)
      modifies this
      ensures results == old(results) + [FailedItem(leadId, jobId, error, stamp)]
      ensures jobs == old(jobs)[jobId := Bump(CountersIn(old(jobs), jobId), false)]
      ensures cache == old(cache)
    {
      results := results + [FailedItem(leadId, jobId, error, stamp)];
      UpdateJobProgress(jobId, false);
    }

    /**
     * `process_lead`: exactly one item is stored, the job's counters move by
     * one, and a page that had to be scraped is cached.
     */
    method ProcessLead(variant: Variant, jobId: string, lead: Lead, params: Params, env: LeadEnv)
      returns (r: Option<EnrichedLead>)
      modifies this
      ensures var o := LeadSpec(variant, jobId, lead, params, CachedIn(old(cache), lead, env.clock), env);
              && r == o.returned
              && results == old(results) + [o.item]
              && jobs == old(jobs)[jobId := Bump(CountersIn(old(jobs), jobId), r.Some?)]
              && cache == CacheAfter(old(cache), lead, LeadRecord(o.item, o.cacheWrite))
    {
      if lead.id.IdAbsent? {
        SaveErrorResult(jobId, None, MissingIdError, env.stamp);
        return None;
      }
      if lead.website.None? || lead.website.value == "" {
        SaveErrorResult(jobId, IdOf(lead), NoWebsiteError, env.stamp);
        return None;
      }
      var website := lead.website.value;
      var scraped := CheckCache(cache, website, env.clock);
      if scraped.None? {
        scraped := ScrapeWebsite(variant, website, env);
        if scraped.Some? {
          CacheContent(website, scraped.value, env.clock);
        }
      }
      if scraped.None? {
        SaveErrorResult(jobId, IdOf(lead), ScrapeError, env.stamp);
        return None;
      }
      var info := env.extract(CompanyText(lead), PromptContent(scraped.value));
      if info.None? {
        SaveErrorResult(jobId, IdOf(lead), ExtractError, env.stamp);
        return None;
      }
      var item := EnrichedItem(IdOf(lead), jobId, lead, info.value, env.stamp, info.value.confidence.GetOr(Int(0)), DataSource);
      results := results + [item];
      var crm := NotRequested;
      if UpdateRequested(params) {
        crm := UpdateCrmLead(variant, info.value, env);
      }
      UpdateJobProgress(jobId, true);
      r := Some(EnrichedLead(item, crm));
    }

    /**
     * The body of the per-message `try` of `lambda_handler` and of `main`:
     * a body that parsed is processed, and the message counts as a success
     * exactly when `process_lead` returned its dict.
     */
    method ProcessRecord(variant: Variant, record: BatchRecord) returns (succeeded: bool)
      modifies this
      ensures var s := RecordStep(variant, record, old(cache));
              && cache == s.cache
              && results == old(results) + (if s.stored.Some? then [s.stored.value] else [])
              && jobs == (if s.stored.Some? then BumpFor(old(jobs), s.stored.value) else old(jobs))
              && (succeeded <==> s.stored.Some? && s.stored.value.EnrichedItem?)
    {
      succeeded := false;
      if record.message.Some? {
        var m := record.message.value;
        var result := ProcessLead(variant, m.jobId, m.lead, m.parameters, record.env);
        succeeded := result.Some?;
      }
    }

    /**
     * The tables after the records `records` of a batch were processed from
     * `cache0`, `results0` and `jobs0`, each leaving its entry of `outs`:
     * the cache is the batch specification's, each stored item was appended
     * to the results and counted for its job.
     */
    ghost predicate Follows(variant: Variant, records: seq<BatchRecord>, outs: seq<Option<ResultItem>>,
                            cache0: map<string, CacheEntry>, results0: seq<ResultItem>, jobs0: map<string, JobCounters>)
      reads this
    {
      && BatchSpec(variant, records, cache0) == BatchOutcome(outs, cache)
      && results == results0 + Stored(outs)
      && jobs == Bumps(jobs0, Stored(outs))
    }

    /**
     * Processes the record that follows `records` in a batch whose earlier
     * records left `outs` and the current tables: the batch specification,
     * the results table and the counters move on by one record.
     */
    method ProcessAppended(variant: Variant, ghost records: seq<BatchRecord>, record: BatchRecord,
                           ghost cache0: map<string, CacheEntry>, ghost results0: seq<ResultItem>,
                           ghost jobs0: map<string, JobCounters>, ghost outs: seq<Option<ResultItem>>)
      returns (succeeded: bool, ghost x: Option<ResultItem>)
      modifies this
      requires Follows(variant, records, outs, cache0, results0, jobs0)
      ensures Follows(variant, records + [record], outs + [x], cache0, results0, jobs0)
      ensures CountEnriched(Stored(outs + [x])) == CountEnriched(Stored(outs)) + (if succeeded then 1 else 0)
      ensures succeeded == Succeeded(x)
    {
      BatchSnoc(variant, records, record, cache0);
      ghost var s := RecordStep(variant, record, cache);
      ghost var results1, jobs1 := results, jobs;
      succeeded := ProcessRecord(variant, record);
      TablesStep(jobs0, results0, outs, s.stored, results1, results, jobs1, jobs);
      x := s.stored;
    }

    /**
     * `lambda_handler`: processes every record in order. The results table,
     * the cache and the counters end as the batch specification says, and
     * the count of processed records is the number of enriched items.
     */
    method HandleBatch(variant: Variant, records: seq<BatchRecord>) returns (processed: nat, failed: nat)
      modifies this
      ensures var b := BatchSpec(variant, records, old(cache));
              && results == old(results) + Stored(b.stored)
              && cache == b.cache
              && jobs == Bumps(old(jobs), Stored(b.stored))
              && processed == CountEnriched(Stored(b.stored))
      ensures processed + failed == |records|
    {
      processed := 0;
      failed := 0;
      ghost var results0, cache0, jobs0 := results, cache, jobs;
      ghost var outs: seq<Option<ResultItem>> := [];
      var i := 0;
      while i < |records|
        invariant 0 <= i <= |records|
        invariant processed + failed == i
        invariant Follows(variant, records[..i], outs, cache0, results0, jobs0)
        invariant processed == CountEnriched(Stored(outs))
      {
        assert records[..i + 1] == records[..i] + [records[i]];
        var succeeded, x := ProcessAppended(variant, records[..i], records[i], cache0, results0, jobs0, outs);
        outs := outs + [x];
        if succeeded {
          processed := processed + 1;
        } else {
          failed := failed + 1;
        }
        i := i + 1;
      }
      assert records[..i] == records;
    }

    /**
     * What the loop of `main` keeps about the events `seen` so far: a
     * handled entry per received message, the successful ones deleted, a
     * pause per failed poll, and the tables as the batch specification of
     * the received messages says.
     */
    ghost predicate Tracks(seen: seq<PollEvent>, handled: seq<Handled>, deleted: seq<string>, pauses: seq<int>,
                           totalProcessed: nat, outs: seq<Option<ResultItem>>, cache0: map<string, CacheEntry>,
                           results0: seq<ResultItem>, jobs0: map<string, JobCounters>)
      reads this
    {
      Logged(seen, handled, deleted, pauses, totalProcessed, outs)
      && Follows(Standard, MessagesOf(seen), outs, cache0, results0, jobs0)
    }

    /**
     * One pass of the loop of `main`: a failed poll pauses, an empty poll
     * counts towards the idle limit, and a received message is processed
     * and deleted when `process_lead` returned its dict.
     */
    method PollOnce(ev: PollEvent, config: WorkerConfig, idle: nat, ghost seen: seq<PollEvent>,
                    handled: seq<Handled>, deleted: seq<string>, pauses: seq<int>, totalProcessed: nat,
                    ghost outs: seq<Option<ResultItem>>, ghost cache0: map<string, CacheEntry>,
                    ghost results0: seq<ResultItem>, ghost jobs0: map<string, JobCounters>)
      returns (idle': nat, timedOut: bool, handled': seq<Handled>, deleted': seq<string>, pauses': seq<int>,
               totalProcessed': nat, ghost outs': seq<Option<ResultItem>>)
      modifies this
      requires Tracks(seen, handled, deleted, pauses, totalProcessed, outs, cache0, results0, jobs0)
      ensures Tracks(seen + [ev], handled', deleted', pauses', totalProcessed', outs', cache0, results0, jobs0)
      ensures idle' == NextIdle(ev.poll, idle)
      ensures timedOut <==> ev.poll.NoMessage? && config.autoShutdown && idle' >= MaxIdlePolls(config)
    {
      idle', timedOut, handled', deleted', pauses', totalProcessed', outs' :=
        idle, false, handled, deleted, pauses, totalProcessed, outs;
      match ev.poll {
        case PollFailed =>
          pauses' := pauses + [5];
          QuietStep(seen, ev, handled, deleted, pauses, totalProcessed, outs);
        case NoMessage =>
          idle' := idle + 1;
          timedOut := config.autoShutdown && idle' >= MaxIdlePolls(config);
          QuietStep(seen, ev, handled, deleted, pauses, totalProcessed, outs);
        case Received(receipt, body, env) =>
          idle' := 0;
          var succeeded, x := ProcessAppended(Standard, MessagesOf(seen), BatchRecord(body, env), cache0, results0, jobs0, outs);
          outs' := outs + [x];
          if succeeded {
            totalProcessed' := totalProcessed + 1;
            deleted' := deleted + [receipt];
          }
          handled' := handled + [Handled(receipt, succeeded)];
          ReceivedStep(seen, ev, handled, deleted, pauses, totalProcessed, outs, x, succeeded);
      }
    }

    /**
     * `main` of enrichment_worker.py: polls until a signal or the idle limit;
     * an empty poll raises the idle counter, a message resets it and is
     * deleted exactly when processing it succeeded, and a failed poll
     * sleeps 5 s. `handled` lists what became of each message, `deleted`
     * the receipts deleted, `pauses` the sleeps after failed polls; the
     * tables end as processing the received messages in order leaves them.
     */
    method RunWorker(events: seq<PollEvent>, config: WorkerConfig)
      returns (exit: ExitReason, consumed: nat, handled: seq<Handled>, deleted: seq<string>, pauses: seq<int>, totalProcessed: nat)
      modifies this
      ensures Run(events, config, 0, 0) == RunEnd(consumed, exit)
      ensures HandledReceipts(handled) == ReceiptsOf(events[..consumed])
      ensures deleted == SucceededReceipts(handled) && totalProcessed == |deleted|
      ensures |pauses| == PollFailures(events[..consumed]) && forall j :: 0 <= j < |pauses| ==> pauses[j] == 5
      ensures var b := BatchSpec(Standard, MessagesOf(events[..consumed]), old(cache));
              && |handled| == |b.stored|
              && (forall j :: 0 <= j < |handled| ==>
                    (handled[j].succeeded <==> b.stored[j].Some? && b.stored[j].value.EnrichedItem?))
              && results == old(results) + Stored(b.stored)
              && cache == b.cache
              && jobs == Bumps(old(jobs), Stored(b.stored))
    {
      var idle: nat := 0;
      var stop := false;
      var i := 0;
      exit := Signalled;
      handled := [];
      deleted := [];
      pauses := [];
      totalProcessed := 0;
      ghost var results0, cache0, jobs0 := results, cache, jobs;
      ghost var outs: seq<Option<ResultItem>> := [];
      while !stop
        invariant 0 <= i <= |events|
        invariant !stop ==> Run(events, config, 0, 0) == Run(events, config, i, idle)
        invariant stop ==> Run(events, config, 0, 0) == RunEnd(i, exit)
        invariant Tracks(events[..i], handled, deleted, pauses, totalProcessed, outs, cache0, results0, jobs0)
        decreases |events| - i, !stop
      {
        if i == |events| {
          exit, stop := OutOfEvents, true;
        } else {
          assert events[..i + 1] == events[..i] + [events[i]];
          var timedOut;
          idle, timedOut, handled, deleted, pauses, totalProcessed, outs :=
            PollOnce(events[i], config, idle, events[..i], handled, deleted, pauses, totalProcessed, outs, cache0, results0, jobs0);
          if timedOut {
            exit, stop := IdleTimeout, true;
          } else if events[i].signalled {
            exit, stop := Signalled, true;
          }
          i := i + 1;
        }
      }
      consumed := i;
      FlagsMatch(handled, outs);
      PausesShape(events[..i]);
    }
  }
}

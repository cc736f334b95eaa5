# Lead enrichment: a verified model

This project models the core of the lead-enrichment service in Dafny. The
service enriches CRM leads with facts read from each lead's website. An
orchestrator (`src/orchestrator/handler.py`) does the following:

- fetches un-enriched leads from the CRM;
- writes a job record;
- queues one message per lead;
- starts a fleet of 2 to 10 container workers.

Each worker (`src/workers/enrichment_worker.py`, and the lighter
`src/workers/enrichment_worker_ecs_optimized.py`) takes one lead at a time. It:

- reuses a cached copy of the website if one is less than a day old, and otherwise scrapes the website with a headless browser;
- sends the page text to a language model that extracts the owner's name and the business address;
- stores the result;
- writes the accepted fields back to the CRM, if the job asked for it;
- moves the job's counters.

The model is split by module:

| file | module | what it holds |
|---|---|---|
| `py_values.dfy` | `PyValues` | Python values and truthiness, `str.lower` (ASCII), `str.strip` with Python's whitespace set, `startswith`, substring `in`, `', '.join`, `Option`/`Result` |
| `leads.dfy` | `Leads` | the lead dict, the job parameters and the queue message |
| `update_policy.dfy` | `UpdatePolicy` | the CRM update set of `update_salesforce_lead` in both worker files (`Variant` = `Standard` or `EcsOptimized`) |
| `scraping.dfy` | `Scraping` | `scrape_website` with retries (standard) and single-shot (ECS), the contact/about link walk, the text sent to the model |
| `worker.dfy` | `Worker` | `process_lead`, `check_cache`, `cache_content`, `save_error_result`, `update_job_progress`, the batch handler and the polling loop; class `Tables` holds the cache, results and jobs tables |
| `orchestrator.dfy` | `Orchestrator` | event handling, job parameters, the lead query, record-to-lead conversion, queuing, fleet sizing and job statuses; class `Backend` holds the jobs table and the queue |

The outside world is passed in as parameters. This covers:

- what each browser attempt returns;
- what the extraction model answers, given the company name and the page text;
- whether the CRM accepts an update;
- the clock and its formatted timestamps;
- what the CRM query returns;
- whether each queue send goes through;
- how the container service answers.

### Behaviour worth knowing

- A lead without a website is recorded as a failed result and counts as a failed lead. The polling loop does not delete its message.
- Every field that passes the filter is written to its standard CRM field and to its enriched twin, whatever the lead already holds.
- The metadata keys are always added. The update set is therefore never empty, and the CRM call is always made.
- With the default three attempts, the backoff sleeps are 1 s and then 2 s. No 4 s sleep happens.
- Certificate errors are ignored on every attempt, not only on retries.
- Of the first three contact/about links, each one with a non-empty, non-mailto href is followed.
- The placeholder filter refuses exactly "not found", "unknown", "n/a", "none", "null" and the empty string, after lowering and stripping.
- Extraction failures are not classified by kind. Any model error, invalid JSON or empty answer gives "Failed to extract information".
- The ECS file filters names only against "not found". It filters address parts by truthiness alone.
- `update_salesforce_lead` creates the CRM client before it builds the update. A failed login is therefore the lead's CRM error even when the builder would also have raised (`Worker.CrmOutcome`).
- A CRM record whose `Id` is null gives a lead whose `id` key is present and null. Such a lead is processed like any other and stored with a null `lead_id`. Only a lead dict with no `id` key fails with the KeyError message `'id'`.
- The handler calls `event.get('source')` before it checks for a base64 string payload. A string event therefore raises there, and the base64 branch can never run. Such an event gets a 500 answer before any job exists (`Orchestrator.Backend.Handle`).
- In the ECS file, an extraction whose `address` is `null` makes `update_salesforce_lead` raise. The standard file treats it as an empty address (`UpdatePolicy.NullAddressHandling`).

## Model

| member | source | states |
|---|---|---|
| UpdatePolicy.BuildUpdateData | src/workers/enrichment_worker.py:369-433 | building `update_data` field by field and `address_parts` component by component gives exactly `UpdateData`: the declarative update set, or the exception raised |
| UpdatePolicy.CollectAddressParts | src/workers/enrichment_worker.py:413-424 | the appended components are exactly the kept ones, in street, city, state, postal code, country order |
| UpdatePolicy.WritesAgree | src/workers/enrichment_worker.py:383-411 | after the first n mirrored writes, the update holds exactly the standard and enriched keys of those fields that passed the filter, each with its candidate value |
| UpdatePolicy.MirrorStep | src/workers/enrichment_worker.py:383-385 | one more mirrored write extends the written keys by exactly that field's two keys, and only when it passes the filter |
| UpdatePolicy.AllFieldsWritten | src/workers/enrichment_worker.py:383-411 | the seven write steps cover every mirrored field |
| UpdatePolicy.UpdateFields | src/workers/enrichment_worker_ecs_optimized.py:339-367 | a field's standard key and its enriched twin are written together, exactly when the candidate passes the variant's filter, and both hold the candidate |
| UpdatePolicy.FieldWritesHold | src/workers/enrichment_worker.py:383-411 | a field's standard and enriched keys are among the field writes exactly when its candidate is kept, and both hold the candidate |
| UpdatePolicy.MirrorAddress | src/workers/enrichment_worker.py:392-411 | after the two name writes, the five address writes give exactly the field writes of every mirrored field |
| UpdatePolicy.UpdateExtras | src/workers/enrichment_worker.py:413-433 | the full address is present exactly when a component passed, as the components joined by ", "; date, confidence (0 when absent), source tag and completion flag are always present |
| UpdatePolicy.UpdateKeysBounded | src/workers/enrichment_worker.py:369-433 | no key other than the 14 field keys, the full address and the 4 metadata keys is ever written |
| UpdatePolicy.UpdateNeverEmpty | src/workers/enrichment_worker.py:436-438 | a successful update holds at least 4 keys, so `if update_data` always holds |
| UpdatePolicy.UpdateFailure | src/workers/enrichment_worker_ecs_optimized.py:339-383 | building fails exactly on a truthy non-string ECS name, a non-dict address (except a falsy one in the standard file), or a kept non-string address part |
| UpdatePolicy.PaddedPlaceholderRejected | src/workers/enrichment_worker.py:373-380 | any capitalisation of a placeholder, padded with any whitespace, is refused by `is_valid_value` |
| UpdatePolicy.ShoutedPlaceholderRejected | src/workers/enrichment_worker.py:376-379 | "  N/A\t" is refused |
| UpdatePolicy.ValidValueExamples | src/workers/enrichment_worker.py:373-380 | None, "", 0 and False are refused; "Jane" is kept |
| UpdatePolicy.IsValidValue | src/workers/enrichment_worker.py:373-380 | a value that passes is truthy; a non-string passes exactly when it is truthy |
| UpdatePolicy.EcsNameKept | src/workers/enrichment_worker_ecs_optimized.py:339-345 | a name the ECS file keeps is a non-empty string, so its `.lower()` never raises |
| UpdatePolicy.Kept | src/workers/enrichment_worker_ecs_optimized.py:339-367 | neither variant writes a falsy value |
| UpdatePolicy.ResolveAddress | src/workers/enrichment_worker.py:392-393 | reading the address raises AttributeError exactly for a non-dict entry, except a falsy one in the standard file; an absent or falsy entry gives no components |
| UpdatePolicy.EcsKeepsPlaceholderNames | src/workers/enrichment_worker_ecs_optimized.py:339-345 | the ECS name test keeps "Unknown", which the standard filter refuses |
| UpdatePolicy.NullAddressHandling | src/workers/enrichment_worker_ecs_optimized.py:348-349 | a `null` address raises AttributeError in the ECS file; the standard file writes no address field |
| UpdatePolicy.NumericPostalCodeAborts | src/workers/enrichment_worker.py:421-427 | a numeric postal code passes both filters and makes the join raise TypeError |
| PyValues.StripLeftShape | src/workers/enrichment_worker.py:377 | `lstrip` keeps the suffix that starts at the first non-space and removes only whitespace |
| PyValues.StripRightShape | src/workers/enrichment_worker.py:377 | `rstrip` keeps the prefix that ends at the last non-space and removes only whitespace |
| PyValues.StripPadded | src/workers/enrichment_worker.py:377 | stripping a core padded with whitespace gives back the core |
| PyValues.ContainsAt | src/workers/enrichment_worker.py:240 | a substring found at any position is `in` the string |
| Scraping.ScrapeWithRetry | src/workers/enrichment_worker.py:152-251 | the retry loop's result is `ScrapeSpec`; attempt i uses a 20 s + 10 s·i timeout; the sleeps are 2^i s, one fewer than the attempts |
| Scraping.TryAttempt | src/workers/enrichment_worker.py:185-249 | one pass: it retries exactly when the attempt is not decisive; otherwise its result is the attempt's outcome; a loaded page comes with its link visits |
| Scraping.ScrapeOnce | src/workers/enrichment_worker_ecs_optimized.py:152-217 | the ECS scrape is one attempt, with a 15 s timeout on every navigation |
| Scraping.FollowContactLinks | src/workers/enrichment_worker.py:199-211 | of the first three links, those with a non-empty, non-mailto href are visited; the pages that loaded are kept |
| Scraping.SecondaryPagesFromLinks | src/workers/enrichment_worker.py:200-211 | every collected page comes from a followed link with that URL and content; there is at most one page per link |
| Scraping.SecondaryPagesBounded | src/workers/enrichment_worker.py:201-204 | at most 3 secondary pages, none with an empty or mailto URL |
| Scraping.ScrapeSucceedsIff | src/workers/enrichment_worker.py:156-244 | the scrape succeeds on attempt k exactly when attempt k loads and every earlier attempt failed with a retryable error; the result is attempt k's page |
| Scraping.AttemptsBounded | src/workers/enrichment_worker.py:156 | never more than `max_retries` attempts |
| Scraping.BackoffTotal | src/workers/enrichment_worker.py:246-249 | the sleeps 1, 2, …, 2^(k-1) add up to 2^k − 1 s |
| Scraping.DefaultBackoff | src/workers/enrichment_worker.py:242-249 | with 3 attempts there are at most two sleeps, of at most 2 s each and 3 s in total |
| Scraping.NonRetryableStops | src/workers/enrichment_worker.py:240-244 | a non-retryable first failure ends the loop after one attempt, with no result |
| Scraping.ThirdAttemptSucceeds | src/workers/enrichment_worker.py:185-249 | two retryable failures and then a load give the third attempt's page |
| Scraping.TimeoutMessageRetryable | src/workers/enrichment_worker.py:234-240 | any message that contains "Timeout", in any context, is retryable |
| Scraping.EcsIsSingleAttempt | src/workers/enrichment_worker_ecs_optimized.py:152-217 | the ECS scrape equals the retry scrape limited to a single attempt |
| Scraping.CombineContent | src/workers/enrichment_worker.py:258-260 | the loop builds the main content followed by each page's content after a blank line |
| Scraping.CombinedContentLength | src/workers/enrichment_worker.py:258-260 | the combined text starts with the main content and adds 2 + the page length per page |
| Scraping.PromptContent | src/workers/enrichment_worker.py:271 | the prompt holds exactly the first min(length, 3000) characters of the combined content |
| Worker.IsFresh | src/workers/enrichment_worker.py:322-325 | `.days < 1` holds exactly when less than 86400 s have elapsed (future dates included) |
| Worker.Bump | src/workers/enrichment_worker.py:445-461 | exactly one counter goes up by one: processed on success, failed otherwise |
| Worker.BumpsCounters | src/workers/enrichment_worker.py:445-461 | over a sequence of items, a job's processed counter grows by its enriched items and the two counters together by all its items |
| Worker.CheckCache | src/workers/enrichment_worker.py:317-328 | the cached page is returned exactly when the website has an entry less than a day old, and it is that entry's page |
| Worker.Tables.CacheContent | src/workers/enrichment_worker.py:331-342 | the page is stored under its website with the current time; nothing else changes |
| Worker.Tables.UpdateJobProgress | src/workers/enrichment_worker.py:445-461 | only the job's counters change, by `Bump` |
| Worker.Tables.SaveErrorResult | src/workers/enrichment_worker.py:345-356 | one failed item is appended and the job's failed counter goes up |
| Worker.Tables.ProcessLead | src/workers/enrichment_worker.py:88-149 | the returned dict, the one stored item, the new cache and the job's counters (one `Bump`, success exactly when a dict is returned) are `LeadSpec`'s for what the cache held |
| Worker.LeadSpec | src/workers/enrichment_worker.py:118-145 | a lead is returned exactly when an enriched item is stored, and the returned dict holds that item |
| Worker.LeadStored | src/workers/enrichment_worker.py:88-117 | the stored item belongs to the job; a cache write happens only for a lead with a website, stamped with the current clock |
| Worker.CrmOutcome | src/workers/enrichment_worker.py:359-442 | no update unless `update_salesforce` is truthy; a failed login is reported before the builder runs; a builder exception, a refusal and an accepted update each happen exactly in their case, the latter with the built map |
| Worker.UpdateCrmLead | src/workers/enrichment_worker.py:359-442 | logging in, building and issuing the update give `CrmOutcome` whenever an update was requested |
| Worker.ScrapeWebsite | src/workers/enrichment_worker.py:103-105 | the variant's scrape: the retry loop in the standard file, one attempt in the ECS file |
| Worker.LeadFailsIff | src/workers/enrichment_worker.py:90-117 | a lead fails exactly when it has no id key, no website, no page data or no extraction; each stored error holds exactly when its check is the first that failed |
| Worker.NoWebsiteIsFailure | src/workers/enrichment_worker.py:94-95 | a lead without a website is stored as failed with "No website URL provided", and nothing is fetched or cached |
| Worker.CrmDoesNotDecide | src/workers/enrichment_worker.py:128-139 | whether the CRM login succeeds and whether it accepts the update change neither the stored item, nor the lead's success, nor the cache |
| Worker.CrmOutcomeOfEnriched | src/workers/enrichment_worker.py:131-139 | an enriched lead carries `CrmOutcome` for its own extraction; an accepted update sent at least 4 keys, with the source tag and the completion flag |
| Worker.CacheHitSkipsBrowser | src/workers/enrichment_worker.py:100-103 | with a fresh cache entry the browser plays no part and nothing is re-cached |
| Worker.ScrapedPageCached | src/workers/enrichment_worker.py:104-108 | a scraped page is cached with the current time, even when extraction then fails |
| Worker.Tables.HandleBatch | src/workers/enrichment_worker.py:51-86 | the results, the cache and the counters end as `BatchSpec` says for the records in order; processed is the number of enriched items stored, and processed + failed is the record count |
| Worker.Tables.ProcessRecord | src/workers/enrichment_worker.py:59-86 | a parsed record is processed and a malformed one stores nothing; the tables move as `RecordStep` says, and success means an enriched item was stored |
| Worker.BatchStoresParsed | src/workers/enrichment_worker.py:51-86 | exactly the records whose body parsed store an item, each for the job its message names |
| Worker.Tables.PollOnce | src/workers/enrichment_worker.py:499-562 | one loop pass keeps the handled, deleted, pause and table bookkeeping; an empty poll raises the idle count, a message resets it; the idle exit fires exactly on an empty poll at the limit with auto-shutdown on |
| Worker.Tables.RunWorker | src/workers/enrichment_worker.py:464-562 | the loop follows `Run`; every received message is handled, and succeeds exactly when the item stored for it is enriched; exactly the successful ones are deleted; each failed poll sleeps 5 s; the tables end as `BatchSpec` of the received messages says |
| Worker.IdleExitNeedsQuietPolls | src/workers/enrichment_worker.py:510-524 | an idle exit needs auto-shutdown on, an empty last poll, and at least 3·IDLE_TIMEOUT_MINUTES empty polls since the last message (failed polls do not reset the count) |
| Worker.NoPollAfterSignal | src/workers/enrichment_worker.py:472-499 | no event after a signalled one is consumed; a signal exit ends on the signalled event |
| Worker.NoIdleExitWhenDisabled | src/workers/enrichment_worker.py:516 | with auto-shutdown off the loop never stops for idleness |
| Worker.AutoShutdownSettings | src/workers/enrichment_worker.py:485 | an unset value, "TRUE" or "True" enables auto-shutdown; "1", "yes" and "" do not |
| Orchestrator.OptimalWorkersBounds | src/orchestrator/handler.py:162 | between 2 and 10 workers; 2 below 1500 leads; 10 from 5000 leads; otherwise leads // 500 |
| Orchestrator.OptimalWorkersMonotone | src/orchestrator/handler.py:162 | more queued leads never mean fewer workers |
| Orchestrator.OptimalWorkers | src/orchestrator/handler.py:162 | the fleet size is always between 2 and 10 |
| Orchestrator.WorkersStarted | src/orchestrator/handler.py:267-300 | a call that raised counts 0 workers; otherwise the count is the number of tasks the service started |
| Orchestrator.EcsTaskCount | src/orchestrator/handler.py:271 | the requested count is the smaller of the input and 10 |
| Orchestrator.WorkerRequestBounded | src/orchestrator/handler.py:162-166 | the container service is always asked for 2 to 10 tasks |
| Orchestrator.JobParameters | src/orchestrator/handler.py:53-83 | parameters exist exactly for dict events, and always carry `update_salesforce` |
| Orchestrator.ScheduledParameters | src/orchestrator/handler.py:54-61 | a scheduled event gives update on and limit 10000, whatever else it holds |
| Orchestrator.ManualParameters | src/orchestrator/handler.py:73-81 | a manual event updates the CRM exactly when `update_salesforce` is truthy, and keeps `limit` exactly when it is truthy |
| Orchestrator.Query | src/orchestrator/handler.py:211-227 | the query starts with the fixed lead query, and adds a " LIMIT " clause exactly when the limit (10000 by default) is truthy |
| Orchestrator.HandlerQueryLimited | src/orchestrator/handler.py:74-81 | every query the handler runs ends with a LIMIT clause (10000 by default) |
| Orchestrator.LeadsOf | src/orchestrator/handler.py:242-262 | the only conversion error is a missing Id |
| Orchestrator.LeadOf | src/orchestrator/handler.py:243-262 | the lead's id key is present and holds the record's Id, null included; its website and company are the record's |
| Orchestrator.LeadsOfIff | src/orchestrator/handler.py:242-264 | conversion succeeds exactly when every record has an Id, giving one lead per record in order |
| Orchestrator.LeadsOfMissing | src/orchestrator/handler.py:245 | a record without an Id fails the whole conversion |
| Orchestrator.FetchLeads | src/orchestrator/handler.py:242-264 | the conversion loop gives `LeadsOf` |
| Orchestrator.SentCount | src/orchestrator/handler.py:146-157 | the sends before the first refused one are all accepted, and the refused one is not |
| Orchestrator.QueuedRun | src/orchestrator/handler.py:128-205 | once leads are fetched a record is always written; the statuses are fetching_leads, queuing_leads and one more; the job succeeds exactly when every lead was sent |
| Orchestrator.Backend.QueueAndStartWorkers | src/orchestrator/handler.py:128-205 | the answer, the statuses, the queue and the job record are `QueuedRun`'s |
| Orchestrator.Backend.QueueLeads | src/orchestrator/handler.py:145-157 | sends messages in lead order until a send raises; `queued_count` is the number sent |
| Orchestrator.Backend.StartEnrichmentJob | src/orchestrator/handler.py:95-205 | the job record, the queue, the status history and the answer are `JobSpec`'s |
| Orchestrator.StatusProgression | src/orchestrator/handler.py:116-205 | a failed CRM login writes no record; otherwise the statuses start at fetching_leads, each later one a later stage, and the record ends at processing exactly on success, or at failed with the error |
| Orchestrator.QueuedMatchesLeads | src/orchestrator/handler.py:128-191 | on success, leads found = leads queued = messages sent, one per lead, in order |
| Orchestrator.Backend.Handle | src/orchestrator/handler.py:32-92 | 200 exactly with the job summary; any failure gives 500; a non-dict event changes nothing, and a dict event leaves the queue and the job record as `JobSpec` says |

## Left out

- Browser, model, CRM, queue, container service, tables: the real I/O is out of scope. What each returns is a parameter, as listed above.
- Credential loading from the secrets store (handler.py lines 39-51): its failure is swallowed. Only its effect is modelled: whether the CRM login succeeds.
- The prompt text apart from the page content and the company name. JSON parsing of the model's answer. An answer that is JSON but not a dict.
- `convert_floats_to_decimal` and float handling: the model has no floats. Floats, lists and dicts are opaque `Other` values.
- Worker.LeadSpec: assumes `Decimal(str(confidence))` succeeds. In the source, a JSON null confidence (`Decimal("None")`) or one such as `"high"` raises there. The lead is then stored as failed.
- A queue message whose `parameters` is null or not a dict cannot be represented (`Leads.Params` is always a dict). `handler.py` always sends a dict. For such a message, `parameters.get` would raise after the enriched item was stored, and `process_lead` would then store a second, failed item and return None.
- Table write failures (`put_item`, `update_item`) are not modelled. Neither are failures of the `check_cache` date parsing, which the source swallows.
- Worker.CheckCache: time is whole seconds. Microsecond precision is not modelled.
- The results table is modelled as a log of stored items. Overwrites by key are not modelled.
- PyValues.Lower: lowers ASCII letters only. Python's full Unicode case mapping is not modelled.
- Scraping.ScrapeOnce: an exception raised by `browser.close()` in the ECS error path is not modelled. It would escape to `process_lead`.
- Worker.Tables.RunWorker: signals are modelled as a flag on each iteration. A failure to parse IDLE_TIMEOUT_MINUTES at start-up is not modelled. `OutOfEvents` only marks the end of a finite event list. `delete_message` is assumed to succeed. In the source, a delete that raises is caught by the per-message `except`, so the message stays queued and is redelivered, although `total_processed` already counted it.
- Orchestrator.Backend.Handle: the 500 body carries a short error name, not Python's exception text.
- Timestamp formats: every timestamp is a parameter. This includes the ECS file's `utcnow()`, whose text has no UTC offset.
- scripts/monitor.py is not part of this model.

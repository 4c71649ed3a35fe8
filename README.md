# Incremental lifelog sync, modelled in Dafny

The repository pulls lifelogs (recorded conversations) from the Limitless
API, one day at a time, and passes the new ones to two sinks:

- The Mem pipeline sends them as one markdown note.
- The Notion pipeline creates one database page per lifelog.

Each pipeline keeps a watermark file holding the id and timestamp of the
last lifelog its sink accepted. On the next pass it keeps only the lifelogs
fetched before that id, or uses its own fallback when no id is stored.

The model has six modules:

| module | file | models |
|---|---|---|
| `Common` | `common.dfy` | lifelog records (a missing JSON key is `None`), Python truthiness, `dict.get` with a default, `os.getenv` over an explicit environment map, the `missing_vars` check, order-preserving subsequences |
| `Client` | `client.dfy` | `get_lifelogs`: the query parameters, the page size, the retry loop for one page, the pagination loop, truncation to `limit`, and the pipelines' today-then-yesterday fetch |
| `Watermarks` | `watermarks.dfy` | the watermark file as a `WatermarkStore` class whose `file` field is absent, unreadable or holds a watermark; `get_last_processed` with a lookback parameter, and `save_last_processed` |
| `IdFilter` | `idfilter.dfy` | the shared "stop at the stored id" filter branch |
| `MemSync` | `memsync.dfy` | the one-hour time cutoff, the note's markdown, `create_mem_note`, `get_recent_conversations` and `main` of the Mem pipeline |
| `NotionSync` | `notionsync.dfy` | `format_for_notion`, the 2000-character cap, `send_to_notion`, the filter, `get_recent_conversations` and `main` of the Notion pipeline |

The network is a script of replies: the i-th request is answered by the
i-th reply, and any request past the end of the script raises a request
exception. The GET replies are a `seq<Client.Reply>`; the POST replies are a
single `PostReply` (Mem) or a `seq<PostReply>` (Notion).

Other inputs are passed as parameters:

- the clock, as `now` in seconds, with `today`, `yesterday` and the note's hour as strings;
- the local time zone;
- ISO time parsing, as two maps from the time strings that parse: `instant` (to an instant in seconds) and `clock` (to the `%H:%M` form). A string outside a map does not parse.

Sleeps are counted, not timed.

In these places the model follows the code, which a reader might expect to behave otherwise:

- `max_retries` is the total number of attempts per page, not the number of retries after the first.
- The page size is `min(batch_size, limit)` on every page, not the number still missing.
- A sink accepts a request on status 200 exactly, not on any 2xx. The fetch client's "ok" is the requests library's `response.ok`: not 4xx or 5xx.
- A watermark write is a plain overwrite of the file, not an atomic replace.
- Without a stored id, the Mem filter cuts at the clock minus one hour, and the Notion filter keeps everything. Neither reads the stored `last_timestamp`.
- For a newest-first batch, the Notion watermark ends on the oldest accepted entry, not the newest one (see "## Findings").
- `includeHeadings` is sent negated: `"true"` when the argument is False.

## Model

| member | source | states |
|---|---|---|
| Client.PageSize | python/_client.py:12-17 | the page size is `batch_size` when no limit is given and `min(batch_size, limit)` otherwise: never above either, and equal to one of them |
| Client.RequestFlags | python/_client.py:16-23 | `includeMarkdown` is sent as given; `includeHeadings` is sent negated, "false" exactly when the argument is True |
| Client.Truncate | python/_client.py:70-72 | the result is a prefix of the lifelogs fetched, never longer than the limit, exactly the limit long when enough were fetched, and everything when there is no limit or not that many |
| Client.RequestPage | python/_client.py:29-61 | one page's retry loop: at most `max_retries` attempts and one pause between consecutive attempts; only a 504 or a request exception is retried; an ok status ends it; any other failing status raises at once; running out of attempts raises with the last failure's kind; every attempt repeats the same request |
| Client.FetchPage | python/_client.py:15-82 | one iteration of the pagination loop: after the retry loop it fails, returns the lifelogs (cut to the limit) when the limit is reached or the page has no cursor or is short, or goes on with the page's cursor, keeping every fact about the pages so far |
| Client.GetLifelogs | python/_client.py:6-84 | (all of this is the predicate `Outcome`, which callers carry on) the first request has no cursor, a retry repeats its request, and each later request carries the next cursor of the page before it; every request has the same page size; at most `max_retries` attempts per page, and only 504s and request exceptions are retried; success returns the pages' lifelogs concatenated in order and cut to the limit, after a page that ends paging with no earlier page ending it; failure returns no lifelogs and an error that the last reply explains; sleeps are the attempts minus the pages, minus one on failure |
| Client.FetchDay | python/limitless_to_mem.py:70-76 | the result, requests and pauses are those of `get_lifelogs` on the script with the day query (the given date, no limit, New York time, newest first) and the default retry bound; every request asks for that date with the default page size of 10 |
| Client.FetchRecent | python/limitless_to_mem.py:67-89 | today's requests come first and are `get_lifelogs` for today on the script; when and only when that returned an empty list, yesterday's requests follow, answered by the rest of the script, and their result is the result; otherwise today's result is the result and nothing else is sent; each request asks for its own fetch's date; the Notion pipeline (python/daily_notion_sync.py:165-186) fetches the same way |
| Common.MissingVars | python/limitless_to_mem.py:202-209 | a name is reported missing exactly when it is required and its variable is unset or empty; the Notion pipeline runs the same check over three variables (python/daily_notion_sync.py:207-214) |
| Watermarks.WatermarkStore.GetLastProcessed | python/limitless_to_mem.py:14-37 | a readable file's watermark is returned as stored; a missing or unreadable file gives the default (no id, the clock minus the lookback); the default is written to the file only when the file was missing; the Notion pipeline (python/daily_notion_sync.py:111-134) does the same with a seven-day lookback |
| Watermarks.WatermarkStore.SaveLastProcessed | python/limitless_to_mem.py:39-49 | the file is overwritten with exactly the given id and timestamp, in both pipelines (also python/daily_notion_sync.py:136-146) |
| Watermarks.ReadAfterSave | python/limitless_to_mem.py:14-49 | reading a file after a save returns the watermark saved |
| IdFilter.IdIndex | python/limitless_to_mem.py:95-101 | the position of the first lifelog carrying the stored id, or the batch length; no lifelog before it carries that id |
| IdFilter.PrefixBefore | python/limitless_to_mem.py:95-101 | the kept lifelogs are a prefix of the batch in which no lifelog carries the stored id, and the prefix stops only at a lifelog that does |
| IdFilter.TakeBeforeId | python/daily_notion_sync.py:192-198 | the scan with `break` returns exactly that prefix, an order-preserving subsequence of the batch |
| IdFilter.RepeatHoldsNothingNew | python/limitless_to_mem.py:188-193 | after the watermark moves to a batch's first lifelog, the same batch holds nothing new |
| IdFilter.PrefixBeforeUnique | python/limitless_to_mem.py:95-101 | when the stored id is unique in the batch, the kept lifelogs are exactly those before it |
| MemSync.RecentOnlyMembers | python/limitless_to_mem.py:102-119 | a lifelog survives the time cutoff exactly when it is in the batch and its end time is missing, empty, unparseable, or no earlier than the cutoff |
| MemSync.RecentOnlyIsSubsequence | python/limitless_to_mem.py:102-119 | the time cutoff keeps the batch's order |
| MemSync.SelectNew | python/limitless_to_mem.py:91-119 | with a stored id, the lifelogs before it; without one, the lifelogs kept by a cutoff one hour before the clock, ignoring the stored timestamp; in both cases an order-preserving subsequence of the batch |
| MemSync.SectionShape | python/limitless_to_mem.py:137-156 | a section opens with its title heading ("Untitled conversation" when there is no title) and ends with the horizontal rule; it has a time line exactly when both times are set |
| MemSync.SectionAt | python/limitless_to_mem.py:133-156 | the note is the header followed by one section per lifelog, in order: for every i it splits into the header, the sections of the lifelogs before lifelog i, lifelog i's section, and the sections of the lifelogs after it |
| MemSync.SectionsAppend | python/limitless_to_mem.py:136-156 | the sections of two lists joined are the two lists' sections joined |
| MemSync.BuildNote | python/limitless_to_mem.py:132-156 | the `+=` loop builds exactly the header followed by the lifelogs' sections |
| MemSync.CreateMemNote | python/limitless_to_mem.py:124-199 | no note is sent for an empty list or a missing Mem key; otherwise one note holding every lifelog; the watermark moves to the first lifelog's id and end time (the clock when there is none) only on a 200 whose body is a JSON object, and stays unchanged on any other status, on a body that is not JSON or is JSON of another kind (reading its `url` raises inside the `try`), or on an exception |
| MemSync.GetRecentConversations | python/limitless_to_mem.py:51-122 | reads the watermark (writing the default only into a missing file); the fetch is the pipelines' today-then-yesterday fetch on the script; the result is what the filter keeps of it under the stored id (or the one-hour cutoff), and a failed fetch is returned as it is |
| MemSync.SyncPass | python/limitless_to_mem.py:201-218 | with a variable missing, nothing is fetched and the file is untouched; otherwise the pipelines' fetch runs on the script; the pass fails with the fetch's own error exactly when the fetch failed; otherwise the lifelogs delivered are exactly what the filter keeps of the fetch, the note holds them (none when there are none), and the watermark moves to the first of them only when Mem accepted the note |
| NotionSync.ToEntryFields | python/daily_notion_sync.py:22-36 | an entry carries each field of its lifelog; a missing title becomes "Untitled conversation" and any other missing field "" |
| NotionSync.FormatForNotion | python/daily_notion_sync.py:15-40 | one entry per lifelog, in the same order |
| NotionSync.CapContent | python/daily_notion_sync.py:73 | the content sent is a prefix of the entry's content, at most 2000 long, unchanged when it fits, and exactly 2000 long otherwise |
| NotionSync.AcceptedNeverAborts | python/daily_notion_sync.py:101-109 | a 200 never ends the run |
| NotionSync.AbortIndex | python/daily_notion_sync.py:101-105 | the first reply that ends the run: no reply before it does, and it does |
| NotionSync.LastAccepted | python/daily_notion_sync.py:103-109 | the last accepted reply in list order: it was accepted, and no later reply was |
| NotionSync.SendToNotion | python/daily_notion_sync.py:42-109 | one POST per entry in list order, each with its entry's payload; a failed POST is skipped unless it raises (or its body is not JSON), which ends the run; afterwards the file holds the id and end time of the last accepted entry, or is unchanged when none was accepted |
| NotionSync.AbortIndexStable | python/daily_notion_sync.py:56-105 | the first abort stays the first however many entries follow |
| NotionSync.LastAcceptedWins | python/daily_notion_sync.py:103-109 | when the last entry is accepted, the watermark ends on it, whatever happened before |
| NotionSync.NothingAcceptedKeepsFile | python/daily_notion_sync.py:103-109 | when no entry is accepted, the file is unchanged |
| NotionSync.FilterNew | python/daily_notion_sync.py:188-201 | with a stored id, the lifelogs before it; without one, every lifelog fetched, with no time cutoff |
| NotionSync.GetRecentConversations | python/daily_notion_sync.py:148-204 | reads the watermark (writing the default only into a missing file); the fetch is the pipelines' today-then-yesterday fetch on the script; the result is what the filter keeps of it under the stored id, and a failed fetch is returned as it is |
| NotionSync.Deliver | python/daily_notion_sync.py:220-233 | nothing is sent exactly when no lifelog is new; otherwise one entry per new lifelog in order, one POST per entry until an abort, and the file ends on the last accepted entry |
| NotionSync.RunPass | python/daily_notion_sync.py:216-233 | the pipelines' fetch runs on the script; the pass fails with the fetch's error exactly when the fetch failed; it stops with nothing new exactly when the filter keeps nothing of the fetch; otherwise it formats exactly the lifelogs the filter keeps, posts them in order to the database given, and the file ends on the last accepted entry |
| NotionSync.SyncPass | python/daily_notion_sync.py:206-235 | with any of the three variables missing, nothing is fetched and the file is untouched; otherwise the database variable is set and the outcome is that of the pass after the check, posting to that database |
| NotionSync.FilterAtEntry | python/daily_notion_sync.py:192-198 | with distinct ids, filtering at the id of the entry at position p keeps exactly the lifelogs before p |
| NotionSync.AsWrittenResendsAccepted | python/daily_notion_sync.py:56-109 | when every entry of a newest-first batch is accepted, the watermark ends on the oldest one, and the next pass over the same batch keeps every other entry |
| NotionSync.AsWrittenExample | python/daily_notion_sync.py:56-109 | two lifelogs "c" (newer) and "b", both accepted: the watermark is "b", and the next pass keeps "c" |
| NotionSync.SafeIndex | python/daily_notion_sync.py:56-109 | the first position of the run of accepted entries at the end of the list |
| NotionSync.SafeResendsEveryFailure | python/daily_notion_sync.py:56-109 | with the watermark on the newest entry of the accepted tail, the next pass keeps exactly the entries before it: every entry that was not accepted is among them, and a fully accepted batch keeps nothing |

## Left out

- HTTP headers, API keys, URLs, the 30-second request timeout and the value of `retry_delay` are not modelled. Sleeps are only counted.
- Logging (`print`) is not modelled. The Mem reply's note URL is printed and is likewise left out.
- The Mem POST's `add_to_collections` list and its `created_at` clock reading (python/limitless_to_mem.py:169-173) are constants and a clock value sent beside the note; the model sends only the note's content.
- A JSON `null` for a lifelog field is not modelled, only a present or absent key. A `data` or `meta` key holding something other than an object is not modelled either.
- A negative `limit`, which Python would slice from the end, is not modelled: the limit is a `nat`.
- `max_retries` below 1 is excluded by a precondition of `Client.GetLifelogs`, because the Python code would then read an unbound `response`.
- The check at python/_client.py:60-61 is not modelled as its own step. The retry loop only ends with an ok response, so that branch is dead when `max_retries` is at least 1.
- The watermark file is absent, unreadable, or holding a full watermark. A readable JSON file without the `last_id` or `last_timestamp` key would raise `KeyError`; that case is not modelled.
- File write errors and crash atomicity are not modelled: a save always succeeds and replaces the whole file.
- Timestamps are abstract. A default watermark's timestamp is the clock minus the lookback: in UTC for Mem, in naive local time for Notion. That difference is not modelled.
- MemSync.SelectNew: the comparison of a parsed end time with the cutoff is total in the model. In Python, an end time without a time zone compared with the UTC cutoff raises `TypeError`, which is not caught; that crash is not modelled.
- Exceptions from the fetch in either `get_recent_conversations` propagate out of `main`. They are modelled as the `FetchFailed` outcome, after which nothing else happens.
- `sync_monitor.py`, `mem_scheduler.py` and `run_all_sync.py` are not part of this model. They are GUI, scheduling and process supervision.
- NotionSync.SyncPass: models the code as written and uses `SendToNotion`. The corrected watermark of "## Findings" is stated and proved separately (`SafeIndex`, `SafeFileAfter`) and is not wired into the pass.

## Findings

| source | as written | input that shows it | evidently intended | confidence | as-written member | corrected member |
|---|---|---|---|---|---|---|
| python/daily_notion_sync.py:56-109 | every accepted entry overwrites the watermark, so the watermark ends on the last accepted entry in list order; the batch is fetched newest first, so that is the oldest accepted entry | lifelogs "c" (newer) then "b", both answered 200: the watermark becomes "b", and the next pass over the same batch posts "c" again | the watermark marks the newest entry such that it and every older entry were accepted, so a later pass re-sends every failure, loses none, and re-sends nothing of a fully accepted batch | medium, not executed | NotionSync.AsWrittenResendsAccepted | NotionSync.SafeResendsEveryFailure |

# Subscription import decisions of V2rayNG's MainActivity

This project models the part of `MainActivity` that decides how server configurations get
imported. It has four parts.

- **Built-in sources** (modules `DateFormat` and `SourceTable`):
  - the five `SimpleDateFormat` formatters `sdf1`–`sdf5` (`yyyy`, `MM`, `MMdd`, `yyyyMMdd`, `dd`);
  - the URL templates built from them;
  - the fixed, ordered table of 22 built-in subscription URLs;
  - the 22 single-source menu handlers (`importConfigCustomViaSub` and
    `importConfigFree1ViaSub` … `importConfigFree21ViaSub`), kept as one table of rows. Each
    row holds a title, the notice text posted before the fetch, and the URL template fetched.
- **Stored subscriptions** (`importConfigViaSub`): the eligibility filter over the stored
  subscriptions, and one fetch-then-import per eligible entry. A failed fetch shows a failure
  message naming the subscription's remarks.
- **Batch import** (`importBatchConfig`):
  - the choice of target subscription and append/replace mode;
  - the two-tier attempt: the plain text first, then the transport-decoded text if nothing was
    imported;
  - the success/failure verdict, and the reload that comes with success.
- **Custom configurations**:
  - `importCustomizeConfig`, with its outcomes "no data", "added" and "malformed";
  - `importConfigCustomUrl`, which checks the URL before any fetch and imports "" when the fetch
    fails.

Module `Importing` states the behaviour as functions that produce an **event log**: toasts,
fetches, calls into the config manager with their returned counts, stored custom configs and
reloads of the server list. The lemmas in `Importing` are about those functions.

Module `Activity` has the class `MainActivity`. Its methods perform the same steps imperatively
on a `log` field, and each method's postcondition ties the new log to the function in
`Importing`. The two update-all actions are `for` loops with invariants over the prefix
processed so far.

Some code is not part of this model: `AngConfigManager.importBatchConfig`, `Utils.decode`,
`Utils.isValidUrl`, `Utils.idnToASCII`, `Utils.getUrlContentWithCustomUserAgent` and
`MainViewModel.appendCustomConfigServer`. They are the function-valued fields of the `Env`
datatype. This makes two assumptions about them:

- Each one is a fixed, deterministic function for the lifetime of the activity. The same URL
  always fetches the same way, and identical calls into the config manager return the same
  count whatever the server store holds.
- Only the fetch and `appendCustomConfigServer` may throw. A fetch that throws is `None`. An
  `appendCustomConfigServer` that throws is `Rejected(cause)`. The config manager, `decode`,
  `isValidUrl` and `idnToASCII` always return normally.

The current date is a parameter.

Points where the model follows the code:

- **Single-handler notice.** Each single handler posts a toast before its fetch, whether the
  fetch then succeeds or fails. The toast quotes a URL and is worded as a failure. For the
  proxied mirrors, the quoted URL lacks the `https://ghproxy.com/` prefix of the URL actually
  fetched. The model records this toast as the second event of every handler run and builds
  no property on it.
- **Failed fetch in a single handler.** When the fetch throws, the handler shows nothing more.
- **Null payload.** `importBatchConfig` reaches `server!!` only when the plain attempt imported
  nothing. With a null payload it then throws before any toast. This is `BatchThrows`, and the
  verdict lemma excludes it.

## Model

| member | source | states |
|---|---|---|
| DateFormat.DaysInMonth | V2rayNG/app/src/main/kotlin/com/v2ray/ang/ui/MainActivity.kt:668-672 | a month of the Gregorian calendar has 28 to 31 days (the calendar the formatters read) |
| DateFormat.Format | V2rayNG/app/src/main/kotlin/com/v2ray/ang/ui/MainActivity.kt:668-672 | the formatters `sdf1`–`sdf5` are the patterns `Sdf1`–`Sdf5`; formatting a date with a pattern prints only digits and is at least as long as the sum of its field widths (zero padding) |
| DateFormat.Decimal | V2rayNG/app/src/main/kotlin/com/v2ray/ang/ui/MainActivity.kt:668-672 | the decimal rendering of a number is a non-empty digit string, one digit long exactly when the number is below 10 |
| DateFormat.ValueOfDecimal | V2rayNG/app/src/main/kotlin/com/v2ray/ang/ui/MainActivity.kt:668-672 | reading the decimal rendering back gives the number |
| DateFormat.DecimalFits | V2rayNG/app/src/main/kotlin/com/v2ray/ang/ui/MainActivity.kt:668-672 | a number has at most k decimal digits iff it is below 10^k |
| DateFormat.ZeroPad | V2rayNG/app/src/main/kotlin/com/v2ray/ang/ui/MainActivity.kt:668-672 | a field of pattern width w prints all digits, reads back as its value, and is max(w, number of digits) long |
| DateFormat.ZeroPadWidth | V2rayNG/app/src/main/kotlin/com/v2ray/ang/ui/MainActivity.kt:668-672 | a padded field is exactly w characters long iff the value is below 10^w |
| DateFormat.FormatLength | V2rayNG/app/src/main/kotlin/com/v2ray/ang/ui/MainActivity.kt:668-672 | when no field overflows, a formatted date is as long as the sum of the pattern's field widths |
| DateFormat.FormatConcat | V2rayNG/app/src/main/kotlin/com/v2ray/ang/ui/MainActivity.kt:668-672 | formatting with a concatenated pattern is the concatenation of the two formatted parts |
| DateFormat.FormatDeterminesFields | V2rayNG/app/src/main/kotlin/com/v2ray/ang/ui/MainActivity.kt:668-672 | two dates format alike under a non-overflowing pattern iff they agree on every field it names |
| DateFormat.FormatterWidths | V2rayNG/app/src/main/kotlin/com/v2ray/ang/ui/MainActivity.kt:668-672 | on a valid date MM and dd have 2 digits and MMdd 4; yyyy has 4 and yyyyMMdd 8 iff the year is below 10000; yyyyMMdd is yyyy followed by MMdd |
| DateFormat.FormatterValues | V2rayNG/app/src/main/kotlin/com/v2ray/ang/ui/MainActivity.kt:668-672 | yyyy, MM and dd are digit strings that read back as the year, month and day |
| DateFormat.FormatterExample | V2rayNG/app/src/main/kotlin/com/v2ray/ang/ui/MainActivity.kt:668-672 | 2024-03-05 formats as "2024", "03", "0305", "20240305" and "05" |
| DateFormat.FormatterOctober2023 | V2rayNG/app/src/main/kotlin/com/v2ray/ang/ui/MainActivity.kt:717 | the formatter outputs for 2023-10-14 and 2023-10-24 used by the mirror examples |
| SourceTable.Expand | V2rayNG/app/src/main/kotlin/com/v2ray/ang/ui/MainActivity.kt:620-643 | the array entries are the templates of `BatchTemplates`; a template expands part by part, so its URL begins with its first part's rendering |
| SourceTable.BatchUrls | V2rayNG/app/src/main/kotlin/com/v2ray/ang/ui/MainActivity.kt:620-643 | the built-in list has exactly 22 entries, one per template of `BatchTemplates`, in the array's order |
| SourceTable.HandlerFetchesBatchEntry | V2rayNG/app/src/main/kotlin/com/v2ray/ang/ui/MainActivity.kt:678-1359 | the `Handlers` table has 22 rows; handler i fetches the template of batch entry i; handler 0 is titled with the custom-update title and handler i with the free-i title |
| SourceTable.HandlerUrl | V2rayNG/app/src/main/kotlin/com/v2ray/ang/ui/MainActivity.kt:724 | the URL handler i fetches on a date is entry i of the built-in list on that date |
| SourceTable.FixedTemplateIgnoresDate | V2rayNG/app/src/main/kotlin/com/v2ray/ang/ui/MainActivity.kt:620-643 | a template with no date part expands to the same URL on every date |
| SourceTable.ExpandDeterminesStamps | V2rayNG/app/src/main/kotlin/com/v2ray/ang/ui/MainActivity.kt:620-643 | when every stamp fits its width, two dates expand a template alike iff every stamp renders alike |
| SourceTable.FormattersFit | V2rayNG/app/src/main/kotlin/com/v2ray/ang/ui/MainActivity.kt:668-672 | on a valid date with a four-digit year no field of sdf1–sdf5 overflows |
| SourceTable.DatedEntries | V2rayNG/app/src/main/kotlin/com/v2ray/ang/ui/MainActivity.kt:620-643 | an entry depends on the date iff it is entry 0, 8 or 16 |
| SourceTable.FixedEntriesIgnoreDate | V2rayNG/app/src/main/kotlin/com/v2ray/ang/ui/MainActivity.kt:620-643 | every other entry fetches the same URL on any two dates |
| SourceTable.TemplateIdentifiesDate | V2rayNG/app/src/main/kotlin/com/v2ray/ang/ui/MainActivity.kt:622 | a template stamping yyyy, MM and a pattern ending in dd expands alike on two dates iff they are the same date, when every stamp fits |
| SourceTable.DatedTemplatesIdentifyDate | V2rayNG/app/src/main/kotlin/com/v2ray/ang/ui/MainActivity.kt:622-638 | each of the freenode, nodefree and vpn-free-nodes templates gives two valid four-digit-year dates the same URL iff the dates are equal |
| SourceTable.DatedUrls | V2rayNG/app/src/main/kotlin/com/v2ray/ang/ui/MainActivity.kt:622-638 | entries 0, 8 and 16 are the freenode, nodefree and vpn-free-nodes URLs |
| SourceTable.DatedTemplatesFit | V2rayNG/app/src/main/kotlin/com/v2ray/ang/ui/MainActivity.kt:622-638 | on a valid date with a four-digit year every stamp of the three dated templates fits |
| SourceTable.DatedEntriesIdentifyDate | V2rayNG/app/src/main/kotlin/com/v2ray/ang/ui/MainActivity.kt:620-643 | entries 0, 8 and 16 are equal on two valid four-digit-year dates iff the dates are equal |
| SourceTable.ExpandFrom | V2rayNG/app/src/main/kotlin/com/v2ray/ang/ui/MainActivity.kt:622 | expanding from part k renders part k, then the rest |
| SourceTable.ExpandSeven | V2rayNG/app/src/main/kotlin/com/v2ray/ang/ui/MainActivity.kt:622 | a seven-part template expands to its seven renderings in order |
| SourceTable.FreenodeUrl | V2rayNG/app/src/main/kotlin/com/v2ray/ang/ui/MainActivity.kt:622 | entry 0 is the freenode upload URL + yyyy + "/" + MM + "/" + MMdd + ".txt" |
| SourceTable.NodefreeUrl | V2rayNG/app/src/main/kotlin/com/v2ray/ang/ui/MainActivity.kt:630 | entry 8 is the nodefree URL + yyyy + "/" + MM + "/" + yyyyMMdd + ".txt" |
| SourceTable.FreenodeExample | V2rayNG/app/src/main/kotlin/com/v2ray/ang/ui/MainActivity.kt:717 | on 2023-10-14 entry 0 is .../uploads/2023/10/1014.txt |
| SourceTable.NodefreeExample | V2rayNG/app/src/main/kotlin/com/v2ray/ang/ui/MainActivity.kt:630 | on 2023-10-24 entry 8 is .../dy/2023/10/20231024.txt |
| SourceTable.BatchUrlsNonEmpty | V2rayNG/app/src/main/kotlin/com/v2ray/ang/ui/MainActivity.kt:620-643 | no built-in URL is empty, so each one passed as `subid` selects replace mode |
| Importing.FetchedUrls | V2rayNG/app/src/main/kotlin/com/v2ray/ang/ui/MainActivity.kt:593-596 | a URL is among the fetched URLs of a log iff the log has a fetch event for it |
| Importing.FetchesAppend | V2rayNG/app/src/main/kotlin/com/v2ray/ang/ui/MainActivity.kt:593-596 | the fetches of two logs in sequence are the fetches of each, in order |
| Importing.CountsAppend | V2rayNG/app/src/main/kotlin/com/v2ray/ang/ui/MainActivity.kt:493-496 | the import counts of two logs in sequence are the counts of each, in order |
| Importing.Quiet | V2rayNG/app/src/main/kotlin/com/v2ray/ang/ui/MainActivity.kt:497-502 | a log with no fetch and no batch import has neither |
| Importing.ChooseMode | V2rayNG/app/src/main/kotlin/com/v2ray/ang/ui/MainActivity.kt:486-491 | append iff `subid` is empty; the target is the current subscription for an empty `subid`, else `subid` itself |
| Importing.Verdict | V2rayNG/app/src/main/kotlin/com/v2ray/ang/ui/MainActivity.kt:497-502 | the success toast and the reload appear iff the count is positive, the failure toast iff it is not; no fetch, import or source failure |
| Importing.BatchThrows | V2rayNG/app/src/main/kotlin/com/v2ray/ang/ui/MainActivity.kt:495 | importBatchConfig throws only when there is no payload and the plain attempt imported nothing; its log then holds the plain attempt alone |
| Importing.BatchEvents | V2rayNG/app/src/main/kotlin/com/v2ray/ang/ui/MainActivity.kt:485-503 | the first event is the plain attempt with the chosen target and mode |
| Importing.BatchQuiet | V2rayNG/app/src/main/kotlin/com/v2ray/ang/ui/MainActivity.kt:485-503 | importBatchConfig fetches nothing and names no source in a failure toast |
| Importing.BatchRetry | V2rayNG/app/src/main/kotlin/com/v2ray/ang/ui/MainActivity.kt:493-496 | the config manager is called twice iff the plain attempt returned at most 0 and there is a payload; the second call gets the decoded payload with the same target and mode |
| Importing.BatchVerdict | V2rayNG/app/src/main/kotlin/com/v2ray/ang/ui/MainActivity.kt:495-502 | success iff the last count is positive; a reload iff success; failure iff the last count is not positive and the call did not throw; a throwing call leaves only the plain attempt |
| Importing.BatchModes | V2rayNG/app/src/main/kotlin/com/v2ray/ang/ui/MainActivity.kt:486-496 | every call into the config manager uses the chosen target and mode |
| Importing.CustomizeOutcome | V2rayNG/app/src/main/kotlin/com/v2ray/ang/ui/MainActivity.kt:1408-1423 | no data iff the text is null or empty; added iff it is non-empty and the view model takes it; malformed carries the cause the view model threw |
| Importing.CustomizeEvents | V2rayNG/app/src/main/kotlin/com/v2ray/ang/ui/MainActivity.kt:1408-1423 | a reload, a stored config (the text itself) and the success toast iff added; the no-data toast iff no data; the malformed toast with cause c iff rejected with c; no fetch or batch import |
| Importing.FetchedOrEmpty | V2rayNG/app/src/main/kotlin/com/v2ray/ang/ui/MainActivity.kt:556-562 | a fetch that throws yields the empty text; a successful fetch yields its body |
| Importing.CustomUrlEvents | V2rayNG/app/src/main/kotlin/com/v2ray/ang/ui/MainActivity.kt:550-572 | a valid URL is fetched exactly once and an invalid one never; the invalid-URL toast iff invalid; a valid URL's body, or "", goes to importCustomizeConfig |
| Importing.FailedFetchIsNoData | V2rayNG/app/src/main/kotlin/com/v2ray/ang/ui/MainActivity.kt:556-565 | a valid URL whose fetch fails ends in "no data", with no stored config and no reload |
| Importing.FetchedTextIsImported | V2rayNG/app/src/main/kotlin/com/v2ray/ang/ui/MainActivity.kt:556-565 | a valid URL whose fetch returns t hands t to importCustomizeConfig; a custom config is stored iff it is t, t is non-empty and the view model takes it |
| Importing.EligibleSources | V2rayNG/app/src/main/kotlin/com/v2ray/ang/ui/MainActivity.kt:580-592 | a source is fetched iff some stored subscription is eligible (non-empty id, remarks and URL; enabled; valid normalised URL) and yields it; at most one per subscription |
| Importing.EligibleSourcesAppend | V2rayNG/app/src/main/kotlin/com/v2ray/ang/ui/MainActivity.kt:580-592 | filtering works entry by entry, so the stored order is kept |
| Importing.Eligible | V2rayNG/app/src/main/kotlin/com/v2ray/ang/ui/MainActivity.kt:580-590 | an eligible subscription has non-empty remarks and a valid normalised URL, and its imports go in replace mode into its own id |
| Importing.SubscriptionSource | V2rayNG/app/src/main/kotlin/com/v2ray/ang/ui/MainActivity.kt:586-597 | the source of a stored subscription names its remarks in the failure toast, and a non-empty id selects replace mode into that id |
| Importing.UrlSources | V2rayNG/app/src/main/kotlin/com/v2ray/ang/ui/MainActivity.kt:645-658 | one source per URL, in order, using the URL as fetch target, failure name and `subid` |
| Importing.BuiltInSources | V2rayNG/app/src/main/kotlin/com/v2ray/ang/ui/MainActivity.kt:645-658 | the 22 built-in sources each use their URL as fetch target, failure name and `subid` |
| Importing.SourceEvents | V2rayNG/app/src/main/kotlin/com/v2ray/ang/ui/MainActivity.kt:593-604 | a source's events begin with the fetch of its URL |
| Importing.SourceEventsFacts | V2rayNG/app/src/main/kotlin/com/v2ray/ang/ui/MainActivity.kt:593-604 | one fetch per source; a failure toast naming it iff its fetch failed; every import follows a successful fetch and uses the source's target and mode |
| Importing.SourceImports | V2rayNG/app/src/main/kotlin/com/v2ray/ang/ui/MainActivity.kt:593-604 | when a source's fetch succeeds, its second event is the config manager called on the fetched body with the source's target and mode |
| Importing.RunSingle | V2rayNG/app/src/main/kotlin/com/v2ray/ang/ui/MainActivity.kt:580-604 | a run over one source is that source's events |
| Importing.RunEvents | V2rayNG/app/src/main/kotlin/com/v2ray/ang/ui/MainActivity.kt:579-604 | a run has at least one event per source, and a run over a non-empty list begins with the first source's fetch |
| Importing.Urls | V2rayNG/app/src/main/kotlin/com/v2ray/ang/ui/MainActivity.kt:593-596 | the URLs of a list of sources, position by position |
| Importing.RunEventsAppend | V2rayNG/app/src/main/kotlin/com/v2ray/ang/ui/MainActivity.kt:580-604 | the events of a run over two lists in sequence are those of each list, in order, so one source never affects another as long as no collaborator except the fetch throws (a throw would reach the outer `try` at lines 578 and 606 and end the `forEach`) |
| Importing.RunFetches | V2rayNG/app/src/main/kotlin/com/v2ray/ang/ui/MainActivity.kt:593-596 | a run fetches each of its sources once, in list order, and nothing else |
| Importing.RunFailures | V2rayNG/app/src/main/kotlin/com/v2ray/ang/ui/MainActivity.kt:597-601 | a run names n in a failure toast iff one of its sources is named n and its fetch failed |
| Importing.RunImports | V2rayNG/app/src/main/kotlin/com/v2ray/ang/ui/MainActivity.kt:602-604 | every import of a run comes from a source whose fetch succeeded, with that source's target and mode |
| Importing.RunImported | V2rayNG/app/src/main/kotlin/com/v2ray/ang/ui/MainActivity.kt:579-604 | every source of a run whose fetch succeeded has its body imported with the source's target and mode |
| Importing.SubscriptionFetches | V2rayNG/app/src/main/kotlin/com/v2ray/ang/ui/MainActivity.kt:580-596 | importConfigViaSub fetches exactly the URLs of the eligible sources, in stored order |
| Importing.SubscriptionFailures | V2rayNG/app/src/main/kotlin/com/v2ray/ang/ui/MainActivity.kt:593-601 | a failure toast quotes n iff some eligible subscription with remarks n failed to fetch |
| Importing.SubscriptionImports | V2rayNG/app/src/main/kotlin/com/v2ray/ang/ui/MainActivity.kt:602-604 | every import of importConfigViaSub is in replace mode, into the id of an eligible subscription whose fetch succeeded |
| Importing.SubscriptionImported | V2rayNG/app/src/main/kotlin/com/v2ray/ang/ui/MainActivity.kt:593-604 | every eligible subscription whose fetch succeeded has its body imported in replace mode under its own id |
| Importing.BuiltInBatchFetches | V2rayNG/app/src/main/kotlin/com/v2ray/ang/ui/MainActivity.kt:645-650 | the built-in batch fetches its 22 URLs once each, in table order |
| Importing.BuiltInBatchReplaces | V2rayNG/app/src/main/kotlin/com/v2ray/ang/ui/MainActivity.kt:657 | every import of the built-in batch is in replace mode, under one of the table's URLs |
| Importing.BuiltInImported | V2rayNG/app/src/main/kotlin/com/v2ray/ang/ui/MainActivity.kt:645-658 | every built-in URL whose fetch succeeded has its body imported in replace mode under that URL |
| Importing.BuiltInSubid | V2rayNG/app/src/main/kotlin/com/v2ray/ang/ui/MainActivity.kt:657 | a built-in source's `subid` is non-empty and one of the table's URLs |
| Importing.HandlerEvents | V2rayNG/app/src/main/kotlin/com/v2ray/ang/ui/MainActivity.kt:761-783 | a single handler's third event is the fetch of its URL |
| Importing.HandlerFetches | V2rayNG/app/src/main/kotlin/com/v2ray/ang/ui/MainActivity.kt:761-783 | a single handler fetches its template's URL once and nothing else |
| Importing.NoticesThenFetch | V2rayNG/app/src/main/kotlin/com/v2ray/ang/ui/MainActivity.kt:763-771 | the two toasts posted before a handler's fetch add no fetch |
| Importing.HandlerEventsFacts | V2rayNG/app/src/main/kotlin/com/v2ray/ang/ui/MainActivity.kt:761-783 | when a single handler's fetch succeeds, its fourth event is the config manager called on the body in append mode into the current subscription; every import it leads to is in that mode and target |
| Importing.BuiltInHandlerFetches | V2rayNG/app/src/main/kotlin/com/v2ray/ang/ui/MainActivity.kt:678-1359 | single handler i fetches exactly entry i of the built-in list, and on success imports that entry's body in append mode into the current subscription |
| Activity.MainActivity.ImportBatchConfig | V2rayNG/app/src/main/kotlin/com/v2ray/ang/ui/MainActivity.kt:485-503 | the log grows by exactly the events of `BatchEvents`; it reports a throw iff `BatchThrows` |
| Activity.MainActivity.ImportCustomizeConfig | V2rayNG/app/src/main/kotlin/com/v2ray/ang/ui/MainActivity.kt:1408-1423 | the log grows by exactly `CustomizeEvents` |
| Activity.MainActivity.ImportConfigCustomUrl | V2rayNG/app/src/main/kotlin/com/v2ray/ang/ui/MainActivity.kt:550-572 | returns false iff the URL is invalid; the log grows by exactly `CustomUrlEvents` |
| Activity.MainActivity.FetchAndImport | V2rayNG/app/src/main/kotlin/com/v2ray/ang/ui/MainActivity.kt:593-604 | the log grows by exactly `SourceEvents` |
| Activity.MainActivity.ImportSubscription | V2rayNG/app/src/main/kotlin/com/v2ray/ang/ui/MainActivity.kt:580-605 | one `forEach` step: the log grows by the events of the subscription's eligible source, if any |
| Activity.MainActivity.ImportConfigViaSub | V2rayNG/app/src/main/kotlin/com/v2ray/ang/ui/MainActivity.kt:577-612 | returns true; the log grows by the title toast and then the run over the eligible sources in stored order |
| Activity.MainActivity.ImportConfigCustomSetViaSub | V2rayNG/app/src/main/kotlin/com/v2ray/ang/ui/MainActivity.kt:617-666 | returns true; the log grows by the title toast and then the run over the 22 built-in sources in table order |
| Activity.MainActivity.ImportUrls | V2rayNG/app/src/main/kotlin/com/v2ray/ang/ui/MainActivity.kt:645-660 | the `forEach` over the URL array: the log grows by the run over the URLs' sources, in array order |
| Activity.MainActivity.ImportBuiltIn | V2rayNG/app/src/main/kotlin/com/v2ray/ang/ui/MainActivity.kt:678-1359 | returns true; the log grows by exactly the events of handler i on the given date |
| Activity.MainActivity.RunHandler | V2rayNG/app/src/main/kotlin/com/v2ray/ang/ui/MainActivity.kt:761-783 | returns true; the log grows by exactly `HandlerEvents` for the given handler row |

## Left out

- Android UI and lifecycle are not modelled: the drawer, the menu dispatch, the list view,
  progress circles and key handling. Toasts appear only as log events. The clipboard, file and
  QR-code entry points are not modelled; the null URL a QR scan can pass to
  `importConfigCustomUrl` is not modelled either, and its `url` is a plain string.
- Coroutine scheduling (`lifecycleScope.launch` on the IO and Main dispatchers) is flattened.
  Each source is one sequential fetch-then-import step, in list order. Interleavings of
  concurrent sources are not modelled.
- The network and the clock are parameters: `Env.fetch`, and the `Date` argument. The time zone
  `Date()` is read in is not modelled.
- Merging and deduplication in the server store are not modelled. So are the wire-format
  decoders. `AngConfigManager`, `MmkvManager` and `Utils` are not part of this model, and only
  their results are used: a count, a text, a validity verdict.
- The surrounding `try`/`catch` blocks of the update-all actions are not modelled. The model
  assumes `decodeSubscriptions`, the coroutine launch and the collaborators other than the fetch
  and `appendCustomConfigServer` do not throw. `Utils.decode` and `reloadServerList` are
  therefore treated as returning normally. A throw inside the `forEach` would end the remaining
  sources of the run; the model does not capture that.
- The collaborators are fixed functions of their arguments. A server that answers differently
  on a second fetch, or a config manager whose count depends on what the store already holds,
  is not modelled.
- DateFormat.Format: the formatters are built without a `Locale`, so the real output follows the
  device's default locale. The model assumes a default locale that prints ASCII digits with the
  Gregorian calendar. Other digit sets and calendars are not modelled.
- DateFormat.Format: it supports only the numeric `y`, `M` and `d` fields the five formatters
  use. Year-of-era rules for years below 1, and other letters, are not modelled.
- SourceTable.Handlers: each handler row's notice text is kept as written. No property relates
  it to the URL actually fetched, because for the proxied mirrors it differs by the proxy prefix.
- Activity.MainActivity.ImportBuiltIn: the 22 handler methods are one method indexed by table
  row, not 22 separate methods.
- SourceTable.Title: the free-handler number is an `int` field, because the resource strings it
  names are not part of this model.

/** The decision layer of MainActivity's import actions, stated over an event log: which
    sources get fetched, what each fetch leads to, how a payload is handed to the config
    manager (mode, two-tier decoding) and which messages and reloads follow. The collaborators
    whose code is not part of this model are the function-valued fields of `Env`. */
module Importing {
  import opened DateFormat
  import opened SourceTable

  datatype Option<T> = None | Some(value: T)

  /** How `mainViewModel.appendCustomConfigServer` ends: it returns, or throws with a cause message. */
  datatype AppendResult = Appended | Rejected(cause: string)

  /** The collaborators, fixed for one run. */
  datatype Env = Env(
    // AngConfigManager.importBatchConfig(server, subid, append): the number of configs imported
    importBatch: (Option<string>, string, bool) -> int,
    // Utils.decode: the transport decoding (base64) of a payload
    decode: string -> string,
    // Utils.isValidUrl
    isValidUrl: string -> bool,
    // Utils.idnToASCII
    idnToAscii: string -> string,
    // Utils.getUrlContentWithCustomUserAgent: the body, or None when it throws
    fetch: string -> Option<string>,
    // mainViewModel.appendCustomConfigServer
    appendCustom: string -> AppendResult
  )

  /** The toasts the activity shows. */
  datatype Message =
    | Titled(title: Title)         // title_sub_custom_update / title_sub_freeN_update
    | Success                      // toast_success
    | Failure                      // toast_failure
    | NoneData                     // toast_none_data
    | InvalidUrl                   // toast_invalid_url
    | SourceFailed(name: string)   // "\"" + name + "\" " + toast_failure
    | Malformed(cause: string)     // toast_malformed_josn + cause

  /** What the activity does that can be observed: toasts, network fetches, calls that import
      into the server store, and reloads of the server list. */
  datatype Event =
    | Toast(msg: Message)
    | Fetch(url: string)
    | BatchImport(input: Option<string>, subid: string, append: bool, count: int)
    | CustomAppend(text: string)
    | Reload

  // ---------------------------------------------------------------------------
  // Reading an event log

  /** The URLs fetched, in order. */
  function Fetches(log: seq<Event>): seq<string> {
    if log == [] then []
    else (if log[0].Fetch? then [log[0].url] else []) + Fetches(log[1..])
  }

  /** A URL is among the fetched ones iff the log holds a fetch of it. */
  lemma {:induction false} FetchedUrls(log: seq<Event>)
    ensures forall u :: u in Fetches(log) <==> Fetch(u) in log
  {
    if log != [] {
      FetchedUrls(log[1..]);
      assert forall e :: e in log <==> e == log[0] || e in log[1..];
    }
  }

  lemma {:induction false} FetchesAppend(a: seq<Event>, b: seq<Event>)
    ensures Fetches(a + b) == Fetches(a) + Fetches(b)
  {
    if a == [] {
      assert a + b == b;
    } else {
      assert (a + b)[0] == a[0] && (a + b)[1..] == a[1..] + b;
      FetchesAppend(a[1..], b);
    }
  }

  lemma {:induction false} CountsAppend(a: seq<Event>, b: seq<Event>)
    ensures Counts(a + b) == Counts(a) + Counts(b)
  {
    if a == [] {
      assert a + b == b;
    } else {
      assert (a + b)[0] == a[0] && (a + b)[1..] == a[1..] + b;
      CountsAppend(a[1..], b);
    }
  }

  /** Both readings of a log distribute over concatenation. */
  lemma LogAppend(a: seq<Event>, b: seq<Event>)
    ensures Fetches(a + b) == Fetches(a) + Fetches(b)
    ensures Counts(a + b) == Counts(a) + Counts(b)
  {
    FetchesAppend(a, b);
    CountsAppend(a, b);
  }

  /** A log with no fetch and no batch import reads as empty both ways. */
  lemma {:induction false} Quiet(log: seq<Event>)
    requires forall i :: 0 <= i < |log| ==> !log[i].Fetch? && !log[i].BatchImport?
    ensures Fetches(log) == [] && Counts(log) == []
  {
    if log != [] {
      Quiet(log[1..]);
    }
  }

  /** The counts returned by the config manager, in order of the calls. */
  function Counts(log: seq<Event>): (cs: seq<int>)
    ensures |cs| <= |log|
  {
    if log == [] then []
    else (if log[0].BatchImport? then [log[0].count] else []) + Counts(log[1..])
  }

  // ---------------------------------------------------------------------------
  // importBatchConfig

  /** Where a batch goes: a subscription id, and whether it is appended to what is there
      (otherwise it replaces it). */
  datatype Mode = Mode(subid: string, append: bool)

  /** An empty `subid` imports into the currently selected subscription in append mode; any other
      `subid` is the target itself, in replace mode. */
  function ChooseMode(subid: string, current: string): (m: Mode)
    ensures m.append <==> subid == ""
    ensures m.subid == if subid == "" then current else subid
  {
    if subid == "" then Mode(current, true) else Mode(subid, false)
  }

  /** `importBatchConfig` throws (a NullPointerException from `server!!`) exactly when there is no
      payload and the plain attempt imported nothing. */
  function BatchThrows(env: Env, current: string, server: Option<string>, subid: string): (b: bool)
    ensures b ==> server.None? && |BatchEvents(env, current, server, subid)| == 1
  {
    var m := ChooseMode(subid, current);
    server.None? && env.importBatch(server, m.subid, m.append) <= 0
  }

  /** The closing toast of `importBatchConfig`, and the reload that goes with success. */
  function Verdict(count: int): (r: seq<Event>)
    ensures Counts(r) == [] && Fetches(r) == []
    ensures Toast(Success) in r <==> count > 0
    ensures Reload in r <==> count > 0
    ensures Toast(Failure) in r <==> count <= 0
    ensures forall n :: Toast(SourceFailed(n)) !in r
  {
    Quiet([Toast(Success), Reload]);
    if count > 0 then [Toast(Success), Reload] else [Toast(Failure)]
  }

  /** The events of `importBatchConfig(server, subid)` while `current` is the selected subscription:
      the plain attempt, then (only if it imported nothing) the attempt on the decoded text, then the
      verdict. When `server` is null and the plain attempt imports nothing, `server!!` throws before
      any toast. The call fetches nothing and names no source. */
  function BatchEvents(env: Env, current: string, server: Option<string>, subid: string): (r: seq<Event>)
    ensures var m := ChooseMode(subid, current);
      |r| >= 1 && r[0] == BatchImport(server, m.subid, m.append, env.importBatch(server, m.subid, m.append))
  {
    var m := ChooseMode(subid, current);
    var first := env.importBatch(server, m.subid, m.append);
    var plain := [BatchImport(server, m.subid, m.append, first)];
    if first > 0 then
      plain + Verdict(first)
    else if server.None? then
      plain
    else
      var decoded := env.decode(server.value);
      var second := env.importBatch(Some(decoded), m.subid, m.append);
      var retry := [BatchImport(Some(decoded), m.subid, m.append, second)];
      plain + retry + Verdict(second)
  }

  /** `importBatchConfig` fetches nothing and names no source. */
  lemma BatchQuiet(env: Env, current: string, server: Option<string>, subid: string)
    ensures Fetches(BatchEvents(env, current, server, subid)) == []
    ensures forall n :: Toast(SourceFailed(n)) !in BatchEvents(env, current, server, subid)
  {
    var m := ChooseMode(subid, current);
    var first := env.importBatch(server, m.subid, m.append);
    var plain := [BatchImport(server, m.subid, m.append, first)];
    if first > 0 {
      LogAppend(plain, Verdict(first));
    } else if server.Some? {
      var decoded := env.decode(server.value);
      var second := env.importBatch(Some(decoded), m.subid, m.append);
      var retry := [BatchImport(Some(decoded), m.subid, m.append, second)];
      LogAppend(plain, retry);
      LogAppend(plain + retry, Verdict(second));
    }
  }

  /** Two-tier decoding: the attempt on `Utils.decode(server)` is made iff the plain attempt returned
      a count <= 0 and there is a payload; it uses the same target and mode. */
  lemma BatchRetry(env: Env, current: string, server: Option<string>, subid: string)
    ensures var r := BatchEvents(env, current, server, subid);
      |Counts(r)| == if r[0].count <= 0 && server.Some? then 2 else 1
    ensures var r := BatchEvents(env, current, server, subid); var m := ChooseMode(subid, current);
      |Counts(r)| == 2 ==> r[1] == BatchImport(Some(env.decode(server.value)), m.subid, m.append, r[1].count)
  {
    var r := BatchEvents(env, current, server, subid);
    var m := ChooseMode(subid, current);
    var first := env.importBatch(server, m.subid, m.append);
    var plain := [BatchImport(server, m.subid, m.append, first)];
    assert Counts(plain) == [first];
    if first > 0 {
      LogAppend(plain, Verdict(first));
    } else if server.Some? {
      var decoded := env.decode(server.value);
      var second := env.importBatch(Some(decoded), m.subid, m.append);
      var retry := [BatchImport(Some(decoded), m.subid, m.append, second)];
      assert Counts(retry) == [second];
      LogAppend(plain, retry);
      LogAppend(plain + retry, Verdict(second));
    }
  }

  /** The verdict: success (and a reload of the server list) iff the last count is positive; failure
      otherwise, unless the call threw; a throwing call shows nothing and reloads nothing. */
  lemma BatchVerdict(env: Env, current: string, server: Option<string>, subid: string)
    ensures var r := BatchEvents(env, current, server, subid);
      |Counts(r)| >= 1 &&
      (Toast(Success) in r <==> Counts(r)[|Counts(r)| - 1] > 0) &&
      (Reload in r <==> Toast(Success) in r) &&
      (Toast(Failure) in r <==> Counts(r)[|Counts(r)| - 1] <= 0 && !BatchThrows(env, current, server, subid))
    ensures BatchThrows(env, current, server, subid) ==> BatchEvents(env, current, server, subid) == [BatchEvents(env, current, server, subid)[0]]
  {
    BatchRetry(env, current, server, subid);
    var r := BatchEvents(env, current, server, subid);
    var m := ChooseMode(subid, current);
    var first := env.importBatch(server, m.subid, m.append);
    var plain := [BatchImport(server, m.subid, m.append, first)];
    assert Counts(plain) == [first];
    if first > 0 {
      LogAppend(plain, Verdict(first));
    } else if server.Some? {
      var decoded := env.decode(server.value);
      var second := env.importBatch(Some(decoded), m.subid, m.append);
      var retry := [BatchImport(Some(decoded), m.subid, m.append, second)];
      assert Counts(retry) == [second];
      LogAppend(plain, retry);
      LogAppend(plain + retry, Verdict(second));
    }
  }

  // ---------------------------------------------------------------------------
  // importCustomizeConfig and importConfigCustomUrl

  /** The three ways `importCustomizeConfig` ends. */
  datatype CustomOutcome = NoData | Added | MalformedInput(cause: string)

  /** A null or empty text is "no data"; otherwise the text is handed to the view model, which either
      takes it or throws (malformed). */
  function CustomizeOutcome(env: Env, server: Option<string>): (o: CustomOutcome)
    ensures o.NoData? <==> server.None? || server.value == ""
    ensures o.Added? <==> server.Some? && server.value != "" && env.appendCustom(server.value).Appended?
    ensures o.MalformedInput? ==> server.Some? && env.appendCustom(server.value) == Rejected(o.cause)
  {
    if server.None? || server.value == "" then NoData
    else match env.appendCustom(server.value)
      case Appended => Added
      case Rejected(cause) => MalformedInput(cause)
  }

  /** The events of `importCustomizeConfig(server)`: exactly one toast, and a stored config and a
      reload only when the config was added. */
  function CustomizeEvents(env: Env, server: Option<string>): (r: seq<Event>)
    ensures Reload in r <==> CustomizeOutcome(env, server).Added?
    ensures forall t :: CustomAppend(t) in r <==> CustomizeOutcome(env, server).Added? && server == Some(t)
    ensures Toast(Success) in r <==> CustomizeOutcome(env, server).Added?
    ensures Toast(NoneData) in r <==> CustomizeOutcome(env, server).NoData?
    ensures forall c :: Toast(Malformed(c)) in r <==> CustomizeOutcome(env, server) == MalformedInput(c)
    ensures Fetches(r) == [] && Counts(r) == []
  {
    match CustomizeOutcome(env, server)
    case NoData => [Toast(NoneData)]
    case Added =>
      Quiet([CustomAppend(server.value), Reload, Toast(Success)]);
      [CustomAppend(server.value), Reload, Toast(Success)]
    case MalformedInput(cause) => [Toast(Malformed(cause))]
  }

  /** The body `importConfigCustomUrl` hands on: the fetched text, or "" when the fetch throws. */
  function FetchedOrEmpty(env: Env, url: string): (text: string)
    ensures env.fetch(url).None? ==> text == ""
    ensures env.fetch(url).Some? ==> text == env.fetch(url).value
  {
    match env.fetch(url)
    case None => ""
    case Some(body) => body
  }

  /** The events of `importConfigCustomUrl(url)`: an invalid URL is refused with its own toast and never
      fetched; a valid one is fetched once and its body (or "") imported as a custom config. */
  function CustomUrlEvents(env: Env, url: string): (r: seq<Event>)
    ensures Fetches(r) == if env.isValidUrl(url) then [url] else []
    ensures Toast(InvalidUrl) in r <==> !env.isValidUrl(url)
    ensures env.isValidUrl(url) ==> r == [Fetch(url)] + CustomizeEvents(env, Some(FetchedOrEmpty(env, url)))
  {
    if !env.isValidUrl(url) then
      [Toast(InvalidUrl)]
    else
      LogAppend([Fetch(url)], CustomizeEvents(env, Some(FetchedOrEmpty(env, url))));
      [Fetch(url)] + CustomizeEvents(env, Some(FetchedOrEmpty(env, url)))
  }

  /** A failed fetch of a valid URL ends in "no data": nothing is stored and nothing reloaded. */
  lemma FailedFetchIsNoData(env: Env, url: string)
    requires env.isValidUrl(url) && env.fetch(url).None?
    ensures Toast(NoneData) in CustomUrlEvents(env, url)
    ensures Reload !in CustomUrlEvents(env, url)
    ensures forall t :: CustomAppend(t) !in CustomUrlEvents(env, url)
  {
    var rest := CustomizeEvents(env, Some(FetchedOrEmpty(env, url)));
    assert CustomUrlEvents(env, url) == [Fetch(url)] + rest;
    assert CustomizeOutcome(env, Some("")) == NoData;
  }

  /** A valid URL whose fetch returns `text` imports exactly that text as a custom config: it is
      stored (and the list reloaded) iff it is non-empty and the view model takes it. */
  lemma FetchedTextIsImported(env: Env, url: string, text: string)
    requires env.isValidUrl(url) && env.fetch(url) == Some(text)
    ensures CustomUrlEvents(env, url) == [Fetch(url)] + CustomizeEvents(env, Some(text))
    ensures forall t :: CustomAppend(t) in CustomUrlEvents(env, url) <==>
      t == text && text != "" && env.appendCustom(text).Appended?
  {
    assert FetchedOrEmpty(env, url) == text;
  }

  // ---------------------------------------------------------------------------
  // Sources: stored subscriptions and the built-in batch

  /** A stored subscription: its remarks, its URL and whether it is enabled. */
  datatype SubscriptionItem = SubscriptionItem(remarks: string, url: string, enabled: bool)

  /** One entry of `MmkvManager.decodeSubscriptions()`: the id and the item. */
  datatype Subscription = Subscription(id: string, item: SubscriptionItem)

  /** A subscription is fetched iff its id, remarks and URL are non-empty, it is enabled and its URL,
      normalised from an internationalised domain name to ASCII, passes validation. */
  function Eligible(env: Env, s: Subscription): (b: bool)
    ensures b ==> s.item.remarks != "" && env.isValidUrl(SubscriptionSource(env, s).url)
    ensures b ==> forall current :: ChooseMode(SubscriptionSource(env, s).subid, current) == Mode(s.id, false)
  {
    && s.id != "" && s.item.remarks != "" && s.item.url != ""
    && s.item.enabled
    && env.isValidUrl(env.idnToAscii(s.item.url))
  }

  /** One fetch-then-import unit: the URL fetched, the name a failure toast quotes, and the `subid`
      the payload is imported under. */
  datatype Source = Source(url: string, name: string, subid: string)

  /** A stored subscription is fetched at its normalised URL, reported by its remarks and imported
      under its id. */
  function SubscriptionSource(env: Env, s: Subscription): (src: Source)
    ensures src.name == s.item.remarks
    ensures s.id != "" ==> forall current :: ChooseMode(src.subid, current) == Mode(s.id, false)
  {
    Source(env.idnToAscii(s.item.url), s.item.remarks, s.id)
  }

  /** The sources `importConfigViaSub` fetches, in stored order. */
  function EligibleSources(env: Env, subs: seq<Subscription>): (r: seq<Source>)
    ensures |r| <= |subs|
    ensures forall src :: src in r <==> exists s :: s in subs && Eligible(env, s) && src == SubscriptionSource(env, s)
  {
    if subs == [] then []
    else (if Eligible(env, subs[0]) then [SubscriptionSource(env, subs[0])] else []) + EligibleSources(env, subs[1..])
  }

  /** Filtering is done entry by entry: the eligible sources of a concatenation are those of each part. */
  lemma {:induction false} EligibleSourcesAppend(env: Env, a: seq<Subscription>, b: seq<Subscription>)
    ensures EligibleSources(env, a + b) == EligibleSources(env, a) + EligibleSources(env, b)
  {
    if a == [] {
      assert a + b == b;
    } else {
      assert (a + b)[0] == a[0] && (a + b)[1..] == a[1..] + b;
      EligibleSourcesAppend(env, a[1..], b);
    }
  }

  /** A list of URLs used as sources: each is fetched at itself, reported by itself and imported
      with itself as `subid`. */
  function UrlSources(urls: seq<string>): (r: seq<Source>)
    ensures |r| == |urls|
    ensures forall i :: 0 <= i < |urls| ==> r[i] == Source(urls[i], urls[i], urls[i])
  {
    seq(|urls|, i requires 0 <= i < |urls| => Source(urls[i], urls[i], urls[i]))
  }

  /** The sources of the built-in batch: its 22 URLs, in table order. */
  function BuiltInSources(d: Date): (r: seq<Source>)
    ensures |r| == 22
    ensures forall i :: 0 <= i < 22 ==> r[i].url == r[i].name == r[i].subid == BatchUrls(d)[i]
  {
    UrlSources(BatchUrls(d))
  }

  /** The events of one source: fetch it; on failure a toast quoting its name, on success the
      batch import of the payload under its `subid`. */
  function SourceEvents(env: Env, current: string, src: Source): (r: seq<Event>)
    ensures |r| >= 1 && r[0] == Fetch(src.url)
  {
    match env.fetch(src.url)
    case None => [Fetch(src.url), Toast(SourceFailed(src.name))]
    case Some(text) => [Fetch(src.url)] + BatchEvents(env, current, Some(text), src.subid)
  }

  /** One source is fetched once; it is named in a failure toast iff its fetch failed; every
      import it leads to follows a successful fetch and goes where its `subid` sends it. */
  lemma SourceEventsFacts(env: Env, current: string, src: Source)
    ensures Fetches(SourceEvents(env, current, src)) == [src.url]
    ensures forall n :: Toast(SourceFailed(n)) in SourceEvents(env, current, src) <==> env.fetch(src.url).None? && n == src.name
    ensures forall e :: e in SourceEvents(env, current, src) && e.BatchImport? ==>
      env.fetch(src.url).Some? && e.subid == ChooseMode(src.subid, current).subid && e.append == (src.subid == "")
  {
    match env.fetch(src.url)
    case None =>
      Quiet([Toast(SourceFailed(src.name))]);
      LogAppend([Fetch(src.url)], [Toast(SourceFailed(src.name))]);
      assert SourceEvents(env, current, src) == [Fetch(src.url)] + [Toast(SourceFailed(src.name))];
    case Some(text) =>
      BatchModes(env, current, Some(text), src.subid);
      BatchQuiet(env, current, Some(text), src.subid);
      LogAppend([Fetch(src.url)], BatchEvents(env, current, Some(text), src.subid));
  }

  /** After a successful fetch, the payload itself goes to `importBatchConfig` under the source's
      `subid`: the plain attempt right after the fetch imports it with the chosen target and mode. */
  lemma SourceImports(env: Env, current: string, src: Source)
    ensures var r := SourceEvents(env, current, src); env.fetch(src.url).Some? ==>
      |r| >= 2 && r[1] == BatchImport(env.fetch(src.url), ChooseMode(src.subid, current).subid, src.subid == "", r[1].count)
  {
    if env.fetch(src.url).Some? {
      var tail := BatchEvents(env, current, env.fetch(src.url), src.subid);
      assert SourceEvents(env, current, src) == [Fetch(src.url)] + tail;
      assert ([Fetch(src.url)] + tail)[1] == tail[0];
    }
  }

  /** Every call `importBatchConfig` makes into the config manager uses the mode it chose. */
  lemma BatchModes(env: Env, current: string, server: Option<string>, subid: string)
    ensures forall e :: e in BatchEvents(env, current, server, subid) && e.BatchImport? ==>
      e.subid == ChooseMode(subid, current).subid && e.append == ChooseMode(subid, current).append
  {
  }

  /** The events of a run over a list of sources: each source's events, in list order. */
  function RunEvents(env: Env, current: string, sources: seq<Source>): (r: seq<Event>)
    ensures |r| >= |sources|
    ensures sources != [] ==> r[0] == Fetch(sources[0].url)
  {
    if sources == [] then [] else SourceEvents(env, current, sources[0]) + RunEvents(env, current, sources[1..])
  }

  lemma RunSingle(env: Env, current: string, src: Source)
    ensures RunEvents(env, current, [src]) == SourceEvents(env, current, src)
  {
    assert [src][1..] == [];
  }

  function Urls(sources: seq<Source>): (urls: seq<string>)
    ensures |urls| == |sources| && forall i :: 0 <= i < |urls| ==> urls[i] == sources[i].url
  {
    if sources == [] then [] else [sources[0].url] + Urls(sources[1..])
  }

  /** Isolation: the events of a run over `a + b` are those of `a` followed by those of `b`, so what
      one source does (fail, import, reload) never changes what another does. */
  lemma {:induction false} RunEventsAppend(env: Env, current: string, a: seq<Source>, b: seq<Source>)
    ensures RunEvents(env, current, a + b) == RunEvents(env, current, a) + RunEvents(env, current, b)
  {
    if a == [] {
      assert a + b == b;
    } else {
      assert (a + b)[0] == a[0] && (a + b)[1..] == a[1..] + b;
      RunEventsAppend(env, current, a[1..], b);
    }
  }

  /** A run fetches each of its sources exactly once, in list order, and nothing else. */
  lemma {:induction false} RunFetches(env: Env, current: string, sources: seq<Source>)
    ensures Fetches(RunEvents(env, current, sources)) == Urls(sources)
  {
    if sources != [] {
      SourceEventsFacts(env, current, sources[0]);
      RunFetches(env, current, sources[1..]);
      LogAppend(SourceEvents(env, current, sources[0]), RunEvents(env, current, sources[1..]));
    }
  }

  /** A run names a source in a failure toast iff that source's fetch failed. */
  lemma {:induction false} RunFailures(env: Env, current: string, sources: seq<Source>, n: string)
    ensures Toast(SourceFailed(n)) in RunEvents(env, current, sources) <==>
      exists src :: src in sources && env.fetch(src.url).None? && src.name == n
  {
    if sources != [] {
      SourceEventsFacts(env, current, sources[0]);
      RunFailures(env, current, sources[1..], n);
      assert forall src :: src in sources <==> src == sources[0] || src in sources[1..];
    }
  }

  /** Every import of a run comes from a source whose fetch succeeded and goes where that source's
      `subid` sends it. */
  lemma {:induction false} RunImports(env: Env, current: string, sources: seq<Source>, e: Event)
    requires e in RunEvents(env, current, sources) && e.BatchImport?
    ensures exists src :: (src in sources && env.fetch(src.url).Some?
      && e.subid == ChooseMode(src.subid, current).subid && e.append == (src.subid == ""))
  {
    SourceEventsFacts(env, current, sources[0]);
    if e !in SourceEvents(env, current, sources[0]) {
      RunImports(env, current, sources[1..], e);
      var src :| src in sources[1..] && env.fetch(src.url).Some?
        && e.subid == ChooseMode(src.subid, current).subid && e.append == (src.subid == "");
      assert src in sources;
    }
  }

  /** The log calls the config manager on `input` with target `subid` and the given mode. */
  predicate Imports(log: seq<Event>, input: Option<string>, subid: string, append: bool) {
    exists e :: e in log && e.BatchImport? && e.input == input && e.subid == subid && e.append == append
  }

  /** Every source of a run whose fetch succeeds has its payload imported with its target and mode. */
  lemma {:induction false} RunImported(env: Env, current: string, sources: seq<Source>, src: Source)
    requires src in sources && env.fetch(src.url).Some?
    ensures Imports(RunEvents(env, current, sources), env.fetch(src.url), ChooseMode(src.subid, current).subid, src.subid == "")
  {
    var first := SourceEvents(env, current, sources[0]);
    var rest := RunEvents(env, current, sources[1..]);
    assert RunEvents(env, current, sources) == first + rest;
    if src == sources[0] {
      SourceImports(env, current, src);
      assert first[1] in first + rest;
    } else {
      assert src in sources[1..];
      RunImported(env, current, sources[1..], src);
      var e :| e in rest && e.BatchImport? && e.input == env.fetch(src.url)
        && e.subid == ChooseMode(src.subid, current).subid && e.append == (src.subid == "");
      assert e in first + rest;
    }
  }

  // ---------------------------------------------------------------------------
  // What the three kinds of action amount to

  /** importConfigViaSub fetches exactly the eligible subscriptions, at their normalised URLs, in
      stored order; ineligible ones get no fetch. */
  lemma SubscriptionFetches(env: Env, current: string, subs: seq<Subscription>)
    ensures Fetches(RunEvents(env, current, EligibleSources(env, subs))) == Urls(EligibleSources(env, subs))
  {
    RunFetches(env, current, EligibleSources(env, subs));
  }

  /** A failure toast of importConfigViaSub quotes the remarks of an eligible subscription whose fetch
      failed, and every such subscription gets one. */
  lemma SubscriptionFailures(env: Env, current: string, subs: seq<Subscription>, n: string)
    ensures Toast(SourceFailed(n)) in RunEvents(env, current, EligibleSources(env, subs)) <==>
      exists s :: s in subs && Eligible(env, s) && env.fetch(env.idnToAscii(s.item.url)).None? && s.item.remarks == n
  {
    var srcs := EligibleSources(env, subs);
    RunFailures(env, current, srcs, n);
    if Toast(SourceFailed(n)) in RunEvents(env, current, srcs) {
      var src :| src in srcs && env.fetch(src.url).None? && src.name == n;
      var s :| s in subs && Eligible(env, s) && src == SubscriptionSource(env, s);
    }
    if exists s :: s in subs && Eligible(env, s) && env.fetch(env.idnToAscii(s.item.url)).None? && s.item.remarks == n {
      var s :| s in subs && Eligible(env, s) && env.fetch(env.idnToAscii(s.item.url)).None? && s.item.remarks == n;
      var src := SubscriptionSource(env, s);
      assert src in srcs && env.fetch(src.url).None? && src.name == n;
    }
  }

  /** Every import of importConfigViaSub is in replace mode into the id of an eligible subscription
      whose fetch succeeded. */
  lemma SubscriptionImports(env: Env, current: string, subs: seq<Subscription>, e: Event)
    requires e in RunEvents(env, current, EligibleSources(env, subs)) && e.BatchImport?
    ensures !e.append
    ensures exists s :: s in subs && Eligible(env, s) && env.fetch(env.idnToAscii(s.item.url)).Some? && e.subid == s.id
  {
    var srcs := EligibleSources(env, subs);
    RunImports(env, current, srcs, e);
    var src :| src in srcs && env.fetch(src.url).Some?
      && e.subid == ChooseMode(src.subid, current).subid && e.append == (src.subid == "");
    var s :| s in subs && Eligible(env, s) && src == SubscriptionSource(env, s);
  }

  /** Every eligible subscription whose fetch succeeds has that payload imported in replace mode
      under its id. */
  lemma SubscriptionImported(env: Env, current: string, subs: seq<Subscription>, s: Subscription)
    requires s in subs && Eligible(env, s) && env.fetch(env.idnToAscii(s.item.url)).Some?
    ensures Imports(RunEvents(env, current, EligibleSources(env, subs)), env.fetch(env.idnToAscii(s.item.url)), s.id, false)
  {
    var src := SubscriptionSource(env, s);
    assert src in EligibleSources(env, subs);
    RunImported(env, current, EligibleSources(env, subs), src);
  }

  /** The built-in batch fetches its 22 URLs once each, in table order. */
  lemma BuiltInBatchFetches(env: Env, current: string, d: Date)
    ensures Fetches(RunEvents(env, current, BuiltInSources(d))) == BatchUrls(d)
  {
    RunFetches(env, current, BuiltInSources(d));
  }

  /** The built-in batch imports each payload in replace mode, under one of the table's URLs. */
  lemma BuiltInBatchReplaces(env: Env, current: string, d: Date, e: Event)
    requires e in RunEvents(env, current, BuiltInSources(d)) && e.BatchImport?
    ensures !e.append && e.subid in BatchUrls(d)
  {
    RunImports(env, current, BuiltInSources(d), e);
    var src :| src in BuiltInSources(d) && env.fetch(src.url).Some?
      && e.subid == ChooseMode(src.subid, current).subid && e.append == (src.subid == "");
    BuiltInSubid(d, src);
  }

  /** Every built-in entry whose fetch succeeds has that payload imported in replace mode under
      its own URL. */
  lemma BuiltInImported(env: Env, current: string, d: Date, i: nat)
    requires i < 22 && env.fetch(BatchUrls(d)[i]).Some?
    ensures Imports(RunEvents(env, current, BuiltInSources(d)), env.fetch(BatchUrls(d)[i]), BatchUrls(d)[i], false)
  {
    var src := BuiltInSources(d)[i];
    BatchUrlsNonEmpty(d, i);
    RunImported(env, current, BuiltInSources(d), src);
  }

  /** A built-in source is imported under a non-empty `subid` taken from the table. */
  lemma BuiltInSubid(d: Date, src: Source)
    requires src in BuiltInSources(d)
    ensures src.subid != "" && src.subid in BatchUrls(d)
  {
    var i :| 0 <= i < 22 && BuiltInSources(d)[i] == src;
    BatchUrlsNonEmpty(d, i);
  }

  /** The events of a single handler (importConfigCustomViaSub, importConfigFree{n}ViaSub): its
      title, the failure-worded notice posted before the fetch, the fetch, and on success the batch
      import of the payload with an empty `subid`; a failed fetch adds nothing. */
  function HandlerEvents(env: Env, current: string, h: Handler, d: Date): (r: seq<Event>)
    ensures |r| >= 3 && r[2] == Fetch(Expand(h.fetch, d))
  {
    var url := Expand(h.fetch, d);
    var head := [Toast(Titled(h.title)), Toast(SourceFailed(Expand(h.notice, d))), Fetch(url)];
    match env.fetch(url)
    case None => head
    case Some(text) => head + BatchEvents(env, current, Some(text), "")
  }

  /** A single handler fetches its URL once and nothing else. */
  lemma HandlerFetches(env: Env, current: string, h: Handler, d: Date)
    ensures Fetches(HandlerEvents(env, current, h, d)) == [Expand(h.fetch, d)]
  {
    var url := Expand(h.fetch, d);
    var title, notice := Titled(h.title), SourceFailed(Expand(h.notice, d));
    var tail := if env.fetch(url).Some? then BatchEvents(env, current, env.fetch(url), "") else [];
    assert HandlerEvents(env, current, h, d) == [Toast(title), Toast(notice), Fetch(url)] + tail;
    BatchQuiet(env, current, env.fetch(url), "");
    NoticesThenFetch(title, notice, url, tail);
  }

  /** Two toasts and a fetch, then more: the fetch comes first among the fetched URLs. */
  lemma NoticesThenFetch(m1: Message, m2: Message, url: string, tail: seq<Event>)
    ensures Fetches([Toast(m1), Toast(m2), Fetch(url)] + tail) == [url] + Fetches(tail)
  {
    var log := [Toast(m1), Toast(m2), Fetch(url)] + tail;
    assert log[1..] == [Toast(m2), Fetch(url)] + tail;
    assert log[1..][1..] == [Fetch(url)] + tail;
    assert log[1..][1..][1..] == tail;
    calc {
      Fetches(log);
      [] + Fetches(log[1..]);
      { assert [] + Fetches(log[1..]) == Fetches(log[1..]); }
      Fetches(log[1..]);
      { assert [] + Fetches(log[1..][1..]) == Fetches(log[1..][1..]); }
      Fetches(log[1..][1..]);
      [url] + Fetches(tail);
    }
  }

  /** After a successful fetch a single handler imports the payload it fetched, in append mode into
      the currently selected subscription; it makes no other kind of import. */
  lemma HandlerEventsFacts(env: Env, current: string, h: Handler, d: Date)
    ensures var r := HandlerEvents(env, current, h, d); var body := env.fetch(Expand(h.fetch, d));
      body.Some? ==> |r| >= 4 && r[3] == BatchImport(body, current, true, r[3].count)
    ensures forall e :: e in HandlerEvents(env, current, h, d) && e.BatchImport? ==> e.append && e.subid == current
  {
    var url := Expand(h.fetch, d);
    var head := [Toast(Titled(h.title)), Toast(SourceFailed(Expand(h.notice, d))), Fetch(url)];
    if env.fetch(url).Some? {
      var tail := BatchEvents(env, current, env.fetch(url), "");
      assert HandlerEvents(env, current, h, d) == head + tail;
      assert (head + tail)[3] == tail[0];
      BatchModes(env, current, env.fetch(url), "");
    }
  }

  /** Single handler `i` fetches exactly entry `i` of the built-in batch, and on success imports
      what it fetched there in append mode. */
  lemma BuiltInHandlerFetches(env: Env, current: string, i: nat, d: Date)
    requires i < |Handlers|
    ensures Fetches(HandlerEvents(env, current, Handlers[i], d)) == [BatchUrls(d)[i]]
    ensures var r := HandlerEvents(env, current, Handlers[i], d); var body := env.fetch(BatchUrls(d)[i]);
      body.Some? ==> |r| >= 4 && r[3] == BatchImport(body, current, true, r[3].count)
  {
    HandlerFetches(env, current, Handlers[i], d);
    HandlerEventsFacts(env, current, Handlers[i], d);
    HandlerFetchesBatchEntry(i);
  }
}

/** The import actions of MainActivity as methods that append to the activity's event log.
    Each method is proved to produce exactly the events its specification function in
    `Importing` describes; the properties of those functions are proved there. */
module Activity {
  import opened DateFormat
  import opened SourceTable
  import opened Importing

  lemma Assoc(a: seq<Event>, b: seq<Event>, c: seq<Event>)
    ensures (a + b) + c == a + (b + c)
  {
  }

  class MainActivity {
    /** The collaborators the activity calls into. */
    const env: Env
    /** `mainViewModel.subscriptionId`: the subscription currently selected in the UI. */
    var subscriptionId: string
    /** Everything the activity has done so far, oldest first. */
    var log: seq<Event>

    constructor (env: Env, subscriptionId: string)
      ensures this.env == env && this.subscriptionId == subscriptionId && log == []
    {
      this.env := env;
      this.subscriptionId := subscriptionId;
      log := [];
    }

    /** importBatchConfig(server, subid); `threw` reports the NullPointerException of `server!!`. */
    method ImportBatchConfig(server: Option<string>, subid: string) returns (threw: bool)
      modifies this`log
      ensures log == old(log) + BatchEvents(env, subscriptionId, server, subid)
      ensures threw <==> BatchThrows(env, subscriptionId, server, subid)
    {
      var subid2 := if subid == "" then subscriptionId else subid;
      var append := subid == "";
      var count := env.importBatch(server, subid2, append);
      var calls := [BatchImport(server, subid2, append, count)];
      if count <= 0 {
        if server.None? {
          log := log + calls;
          return true;
        }
        var decoded := env.decode(server.value);
        count := env.importBatch(Some(decoded), subid2, append);
        calls := calls + [BatchImport(Some(decoded), subid2, append, count)];
      }
      if count > 0 {
        log := log + (calls + [Toast(Success), Reload]);
      } else {
        log := log + (calls + [Toast(Failure)]);
      }
      threw := false;
    }

    /** importCustomizeConfig(server). */
    method ImportCustomizeConfig(server: Option<string>)
      modifies this`log
      ensures log == old(log) + CustomizeEvents(env, server)
    {
      if server.None? || server.value == "" {
        log := log + [Toast(NoneData)];
        return;
      }
      var result := env.appendCustom(server.value);
      match result {
        case Appended =>
          log := log + [CustomAppend(server.value), Reload, Toast(Success)];
        case Rejected(cause) =>
          log := log + [Toast(Malformed(cause))];
      }
    }

    /** importConfigCustomUrl(url): `ok` is false exactly when the URL is refused. */
    method ImportConfigCustomUrl(url: string) returns (ok: bool)
      modifies this`log
      ensures ok <==> env.isValidUrl(url)
      ensures log == old(log) + CustomUrlEvents(env, url)
    {
      if !env.isValidUrl(url) {
        log := log + [Toast(InvalidUrl)];
        return false;
      }
      log := log + [Fetch(url)];
      var body := env.fetch(url);
      var configText := if body.Some? then body.value else "";
      ImportCustomizeConfig(Some(configText));
      ok := true;
    }

    /** The shared step of both update-all actions: fetch one source, report a failure under its
        name, or import the payload under its `subid`. */
    method FetchAndImport(src: Source)
      modifies this`log
      ensures log == old(log) + SourceEvents(env, subscriptionId, src)
    {
      log := log + [Fetch(src.url)];
      var body := env.fetch(src.url);
      match body {
        case None =>
          log := log + [Toast(SourceFailed(src.name))];
        case Some(text) =>
          var _ := ImportBatchConfig(Some(text), src.subid);
          assert SourceEvents(env, subscriptionId, src) == [Fetch(src.url)] + BatchEvents(env, subscriptionId, Some(text), src.subid);
      }
    }

    /** The body of importConfigViaSub's `forEach`: skip an ineligible subscription, fetch and
        import an eligible one. */
    method ImportSubscription(s: Subscription)
      modifies this`log
      ensures log == old(log) + RunEvents(env, subscriptionId, EligibleSources(env, [s]))
    {
      assert [s][1..] == [];
      if s.id == "" || s.item.remarks == "" || s.item.url == "" {
        return;
      }
      if !s.item.enabled {
        return;
      }
      var url := env.idnToAscii(s.item.url);
      if !env.isValidUrl(url) {
        return;
      }
      RunSingle(env, subscriptionId, SubscriptionSource(env, s));
      FetchAndImport(Source(url, s.item.remarks, s.id));
    }

    /** importConfigViaSub(): one pass over the stored subscriptions in order, skipping the ineligible. */
    method ImportConfigViaSub(subs: seq<Subscription>) returns (ok: bool)
      modifies this`log
      ensures ok
      ensures log == old(log) + [Toast(Titled(SubCustomUpdate))] + RunEvents(env, subscriptionId, EligibleSources(env, subs))
    {
      log := log + [Toast(Titled(SubCustomUpdate))];
      ghost var start := log;
      for i := 0 to |subs|
        invariant log == start + RunEvents(env, subscriptionId, EligibleSources(env, subs[..i]))
      {
        ghost var before := EligibleSources(env, subs[..i]);
        ghost var step := EligibleSources(env, [subs[i]]);
        EligibleSourcesAppend(env, subs[..i], [subs[i]]);
        assert subs[..i + 1] == subs[..i] + [subs[i]];
        RunEventsAppend(env, subscriptionId, before, step);
        ImportSubscription(subs[i]);
        Assoc(start, RunEvents(env, subscriptionId, before), RunEvents(env, subscriptionId, step));
      }
      assert subs[..|subs|] == subs;
      ok := true;
    }

    /** importConfigCustomSetViaSub(), with the date `Date()` would give passed in. */
    method ImportConfigCustomSetViaSub(d: Date) returns (ok: bool)
      modifies this`log
      ensures ok
      ensures log == old(log) + [Toast(Titled(SubCustomUpdate))] + RunEvents(env, subscriptionId, BuiltInSources(d))
    {
      log := log + [Toast(Titled(SubCustomUpdate))];
      var arrs := BatchUrls(d);
      ImportUrls(arrs);
      ok := true;
    }

    /** The `forEach` of importConfigCustomSetViaSub: fetch every URL in order and import each payload
        with the URL itself as `subid`. */
    method ImportUrls(arrs: seq<string>)
      modifies this`log
      ensures log == old(log) + RunEvents(env, subscriptionId, UrlSources(arrs))
    {
      ghost var start := log;
      ghost var sources := UrlSources(arrs);
      for i := 0 to |arrs|
        invariant log == start + RunEvents(env, subscriptionId, sources[..i])
      {
        var src := Source(arrs[i], arrs[i], arrs[i]);
        assert sources[..i + 1] == sources[..i] + [src];
        RunEventsAppend(env, subscriptionId, sources[..i], [src]);
        RunSingle(env, subscriptionId, src);
        FetchAndImport(src);
        Assoc(start, RunEvents(env, subscriptionId, sources[..i]), SourceEvents(env, subscriptionId, src));
      }
      assert sources[..|arrs|] == sources;
    }

    /** importConfigCustomViaSub(date) for i = 0 and importConfigFree{i}ViaSub for 1 <= i <= 21. */
    method ImportBuiltIn(i: nat, d: Date) returns (ok: bool)
      requires i < |Handlers|
      modifies this`log
      ensures ok
      ensures log == old(log) + HandlerEvents(env, subscriptionId, Handlers[i], d)
    {
      ok := RunHandler(Handlers[i], d);
    }

    /** The body the 22 single handlers share, run with one row of the handler table. */
    method RunHandler(handler: Handler, d: Date) returns (ok: bool)
      modifies this`log
      ensures ok
      ensures log == old(log) + HandlerEvents(env, subscriptionId, handler, d)
    {
      var url := Expand(handler.fetch, d);
      var head := [Toast(Titled(handler.title)), Toast(SourceFailed(Expand(handler.notice, d))), Fetch(url)];
      ghost var start := log;
      log := log + head;
      var body := env.fetch(url);
      match body {
        case None =>
        case Some(text) =>
          var _ := ImportBatchConfig(Some(text), "");
          Assoc(start, head, BatchEvents(env, subscriptionId, Some(text), ""));
      }
      ok := true;
    }
  }
}
